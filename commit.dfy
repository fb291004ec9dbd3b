/** The commit rundown item: Play, Invoke and Update each schedule one
    `setCommit` on the item's channel, sent to the primary device and to every
    shadow device when the timer entry fires. This item has no `loaded` state. */
module Commit {
  import opened Playout
  import opened Devices
  import opened Properties

  /** The three settable fields of the item's command. */
  datatype CommitCommand = CommitCommand(channel: int, delay: int, allowGpi: bool)

  /** The triggers this item kind reacts to. */
  predicate Handled(t: PlayoutType)
  {
    t.Play? || t.Invoke? || t.Update?
  }

  /** The delays of the timer entries one trigger adds; each entry runs the
      commit slot. Exactly one entry, with the command's delay, for Play, Invoke
      and Update; none for any other trigger. */
  function Schedule(t: PlayoutType, delay: int): (r: seq<int>)
    ensures |r| == (if Handled(t) then 1 else 0)
    ensures forall k :: 0 <= k < |r| ==> r[k] == delay
  {
    if t == PlayoutType.Play || t == PlayoutType.Invoke || t == PlayoutType.Update then [delay] else []
  }

  /** What the commit slot sends to each device it reaches. */
  function Requests(c: CommitCommand): seq<Request>
  {
    [SetCommit(c.channel)]
  }

  class CommitItem {
    var command: CommitCommand
    var model: LibraryModel
    var color: string
    var active: bool
    var inGroup: bool
    var disconnected: bool
    /** Delays of the commit timer entries scheduled and not yet fired, oldest first. */
    var pending: seq<int>
    /** Every device call this item has issued, in order. */
    var sent: seq<Call>

    constructor (model: LibraryModel, command: CommitCommand, color: string,
                 active: bool, inGroup: bool, disconnected: bool)
      ensures this.model == model && this.command == command && this.color == color
      ensures this.active == active && this.inGroup == inGroup && this.disconnected == disconnected
      ensures pending == [] && sent == []
    {
      this.model := model;
      this.command := command;
      this.color := color;
      this.active := active;
      this.inGroup := inGroup;
      this.disconnected := disconnected;
      pending := [];
      sent := [];
    }

    /** Accepts every trigger: Play, Invoke and Update add one commit entry
        behind those already pending; any other trigger adds nothing. */
    method ExecuteCommand(t: PlayoutType) returns (r: bool)
      modifies this`pending
      ensures r
      ensures pending == old(pending) + Schedule(t, command.delay)
    {
      if t == PlayoutType.Play || t == PlayoutType.Invoke || t == PlayoutType.Update {
        pending := pending + [command.delay];
      }
      r := true;
    }

    /** The timer entry at index `i` expires: it leaves the queue and the
        commit is sent. An index with no entry fires nothing. */
    method Fire(i: nat, reg: Registry) returns (fired: bool)
      modifies this`pending, this`sent
      ensures fired == (i < |old(pending)|)
      ensures fired ==> pending == old(pending[..i] + pending[i + 1..])
      ensures fired ==> sent == old(sent) + Dispatch(reg, model.deviceName, Requests(command))
      ensures !fired ==> pending == old(pending) && sent == old(sent)
    {
      fired := i < |pending|;
      if fired {
        pending := pending[..i] + pending[i + 1..];
        ExecutePlay(reg);
      }
    }

    /** Sends `setCommit(channel)` to the primary and every shadow that resolve
        and are connected; only the call log changes. */
    method ExecutePlay(reg: Registry)
      modifies this`sent
      ensures sent == old(sent) + Dispatch(reg, model.deviceName, Requests(command))
    {
      var calls := FanOut(reg, model.deviceName, [SetCommit(command.channel)]);
      sent := sent + calls;
    }

    /** Metadata updates and preview reach only the active item; preview
        commits at once, without the delay. Connection changes for the bound
        device are tracked whether or not the item is active. */
    method EventFilter(ev: Event, reg: Registry)
      modifies this`model, this`disconnected, this`sent
      ensures ev.RundownItemChanged? ==>
        model == (if old(active) then old(model).(labelText := ev.labelText, deviceName := ev.deviceName, name := ev.name)
                  else old(model))
        && disconnected == old(disconnected) && sent == old(sent)
      ensures ev.RundownItemPreview? ==>
        model == old(model) && disconnected == old(disconnected)
        && sent == old(sent) + (if old(active) then Dispatch(reg, model.deviceName, Requests(command)) else [])
      ensures ev.ConnectionStateChanged? ==>
        disconnected == (if ev.deviceName == old(model.deviceName) then !ev.connected else old(disconnected))
        && model == old(model) && sent == old(sent)
      ensures ev.OtherEvent? ==>
        model == old(model) && disconnected == old(disconnected) && sent == old(sent)
    {
      match ev
      case RundownItemChanged(labelText, deviceName, name) =>
        if active {
          model := model.(labelText := labelText, deviceName := deviceName, name := name);
        }
      case RundownItemPreview =>
        if active {
          ExecutePlay(reg);
        }
      case ConnectionStateChanged(deviceName, connected) =>
        if deviceName == model.deviceName {
          disconnected := !connected;
        }
      case OtherEvent =>
    }

    /** An independent item with the same command, model, color and flags, no
        pending timers and no calls issued. */
    method Clone() returns (w: CommitItem)
      ensures fresh(w)
      ensures w.command == command && w.model == model && w.color == color
      ensures w.active == active && w.inGroup == inGroup && w.disconnected == disconnected
      ensures w.pending == [] && w.sent == []
    {
      w := new CommitItem(model, command, color, active, inGroup, disconnected);
    }

    method SetActive(active: bool)
      modifies this`active
      ensures this.active == active
    {
      this.active := active;
    }

    /** Group membership; the label shifting that goes with it is presentation. */
    method SetInGroup(inGroup: bool)
      modifies this`inGroup
      ensures this.inGroup == inGroup
    {
      this.inGroup := inGroup;
    }

    /** Takes the color from the document; a document without one leaves the
        item unchanged and reports failure. */
    method ReadProperties(doc: Document) returns (ok: bool)
      modifies this`color
      ensures ok == (ReadColor(doc) != None)
      ensures color == (if ok then doc[ColorKey] else old(color))
    {
      var r := ReadColor(doc);
      ok := r.Some?;
      if ok {
        color := r.value;
      }
    }

    method WriteProperties(doc: Document) returns (out: Document)
      ensures ReadColor(out) == Some(color)
      ensures out == WriteColor(doc, color)
    {
      out := WriteColor(doc, color);
    }
  }

  // ---------------------------------------------------------------------------
  // Properties of the commit slot

  /** The commit reaches exactly the reachable primary and the reachable
      shadows: the primary whether or not any shadow is up, every shadow
      whether or not the primary is up, and nothing else. */
  lemma CommitReaches(reg: Registry, primary: string, c: CommitCommand, d: string)
    ensures Call(d, SetCommit(c.channel)) in Dispatch(reg, primary, Requests(c))
        <==> (d == primary && Reachable(reg, primary)) || IsLiveShadow(reg, d)
    ensures forall x :: x in Dispatch(reg, primary, Requests(c)) ==> x.request == SetCommit(c.channel)
  {
    DispatchMembership(reg, primary, Requests(c), Call(d, SetCommit(c.channel)));
    forall x | x in Dispatch(reg, primary, Requests(c))
      ensures x.request == SetCommit(c.channel)
    {
      DispatchMembership(reg, primary, Requests(c), x);
    }
  }

  /** One commit per target, in target order: the primary first, then the
      shadows in registry order. */
  lemma CommitOrder(reg: Registry, primary: string, c: CommitCommand, i: nat)
    requires i < |Targets(reg, primary)|
    ensures |Dispatch(reg, primary, Requests(c))| == |Targets(reg, primary)|
    ensures Dispatch(reg, primary, Requests(c))[i] == Call(Targets(reg, primary)[i], SetCommit(c.channel))
  {
    BroadcastAt(Targets(reg, primary), Requests(c), i, 0);
  }
}
