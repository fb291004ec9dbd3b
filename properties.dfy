/** The one persisted attribute of a rundown item: its color tag. A saved
    item's property document is modelled as a map from element name to text. */
module Properties {

  datatype Option<T> = None | Some(value: T)

  type Document = map<string, string>

  const ColorKey: string := "color"

  /** Looking up the color element; a document without one yields `None`
      (the property-tree lookup fails and the item is left as it was). */
  function ReadColor(doc: Document): (r: Option<string>)
    ensures r.Some? <==> ColorKey in doc
  {
    if ColorKey in doc then Some(doc[ColorKey]) else None
  }

  /** Writing the color element. Reading it back yields the color written, and
      every other element of the document is left alone. */
  function WriteColor(doc: Document, color: string): (r: Document)
    ensures ReadColor(r) == Some(color)
    ensures forall k :: k in doc && k != ColorKey ==> k in r && r[k] == doc[k]
    ensures r.Keys == doc.Keys + {ColorKey}
  {
    doc[ColorKey := color]
  }
}
