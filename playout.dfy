/** Vocabulary shared by every rundown item kind: the playout triggers, the
    notifications an item filters, and the library model an item is bound to. */
module Playout {

  /** The triggers a rundown item can be asked to execute. `Other` stands for
      every member of the playout enumeration that no item kind of this model
      names (it is ignored by both of them). */
  datatype PlayoutType =
    | Stop
    | Play
    | Load
    | Clear
    | ClearVideolayer
    | ClearChannel
    | Invoke
    | Update
    | Other(code: nat)

  /** The application-wide notifications an item's event filter looks at;
      `OtherEvent` is every other event type, which the filter passes on. */
  datatype Event =
    | RundownItemChanged(labelText: string, deviceName: string, name: string)
    | RundownItemPreview
    | ConnectionStateChanged(deviceName: string, connected: bool)
    | OtherEvent

  /** The library entry an item was created from; `deviceName` names its
      primary device. */
  datatype LibraryModel = LibraryModel(labelText: string, deviceName: string, name: string)
}
