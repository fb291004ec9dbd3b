/** The DeckLink input rundown item: it plays, loads, stops and clears a
    capture-card input on a channel and video layer of its device and of every
    shadow device. Triggers are turned into timer entries; a timer entry, when
    it fires, sends its requests and updates `loaded`. */
module DeckLinkInput {
  import opened Playout
  import opened Devices
  import opened Properties

  /** The ten settable fields of the item's command. */
  datatype DeckLinkInputCommand = DeckLinkInputCommand(
    channel: int,
    videolayer: int,
    delay: int,
    allowGpi: bool,
    device: int,
    format: string,
    transition: string,
    duration: int,
    tween: string,
    direction: string)

  /** The slots `ExecuteCommand` schedules, one per handled trigger. */
  datatype Slot = StopSlot | PlaySlot | LoadSlot | ClearSlot | ClearVideolayerSlot | ClearChannelSlot
  {
    /** The trigger that schedules this slot. */
    function Trigger(): PlayoutType
    {
      match this
      case StopSlot => PlayoutType.Stop
      case PlaySlot => PlayoutType.Play
      case LoadSlot => PlayoutType.Load
      case ClearSlot => PlayoutType.Clear
      case ClearVideolayerSlot => PlayoutType.ClearVideolayer
      case ClearChannelSlot => PlayoutType.ClearChannel
    }
  }

  /** A single-shot timer entry: `slot` runs once `delay` has elapsed. */
  datatype Timer = Timer(delay: int, slot: Slot)

  /** The triggers this item kind reacts to. */
  predicate Handled(t: PlayoutType)
  {
    t.Stop? || t.Play? || t.Load? || t.Clear? || t.ClearVideolayer? || t.ClearChannel?
  }

  /** The timer entries one trigger adds: exactly one for a handled trigger,
      running the slot of that trigger, delayed by the command's delay for Play
      and by 0 for every other; none for any other trigger. */
  function Schedule(t: PlayoutType, delay: int): (r: seq<Timer>)
    ensures |r| == (if Handled(t) then 1 else 0)
    ensures |r| == 1 ==> r[0].slot.Trigger() == t && r[0].delay == (if t.Play? then delay else 0)
  {
    if t.Stop? then [Timer(0, StopSlot)]
    else if t.Play? then [Timer(delay, PlaySlot)]
    else if t.Load? then [Timer(0, LoadSlot)]
    else if t.Clear? then [Timer(0, ClearSlot)]
    else if t.ClearVideolayer? then [Timer(0, ClearVideolayerSlot)]
    else if t.ClearChannel? then [Timer(0, ClearChannelSlot)]
    else []
  }

  /** What a slot sends to each device it reaches, given the command and the
      value of `loaded` when it fires. */
  function Requests(slot: Slot, c: DeckLinkInputCommand, loaded: bool): seq<Request>
  {
    match slot
    case StopSlot => [StopDeviceInput(c.channel, c.videolayer)]
    case PlaySlot =>
      if loaded then [PlayDeviceInput(c.channel, c.videolayer)]
      else [PlayDeviceInputWith(c.channel, c.videolayer, c.device, c.format)]
    case LoadSlot => [LoadDeviceInput(c.channel, c.videolayer, c.device, c.format)]
    case ClearSlot => [StopDeviceInput(c.channel, c.videolayer)]
    case ClearVideolayerSlot => [Request.ClearVideolayer(c.channel, c.videolayer)]
    case ClearChannelSlot => [Request.ClearChannel(c.channel), ClearMixerChannel(c.channel)]
  }

  /** `loaded` after a slot has run: only Load leaves content loaded. */
  function LoadedAfter(slot: Slot): bool
  {
    slot == LoadSlot
  }

  class DeckLinkInputItem {
    var command: DeckLinkInputCommand
    var model: LibraryModel
    var color: string
    var active: bool
    var loaded: bool
    var inGroup: bool
    var disconnected: bool
    /** Timer entries scheduled and not yet fired, oldest first. */
    var pending: seq<Timer>
    /** Every device call this item has issued, in order. */
    var sent: seq<Call>

    constructor (model: LibraryModel, command: DeckLinkInputCommand, color: string,
                 active: bool, loaded: bool, inGroup: bool, disconnected: bool)
      ensures this.model == model && this.command == command && this.color == color
      ensures this.active == active && this.loaded == loaded
      ensures this.inGroup == inGroup && this.disconnected == disconnected
      ensures pending == [] && sent == []
    {
      this.model := model;
      this.command := command;
      this.color := color;
      this.active := active;
      this.loaded := loaded;
      this.inGroup := inGroup;
      this.disconnected := disconnected;
      pending := [];
      sent := [];
    }

    /** Accepts every trigger: a handled one adds its timer entry behind the
        ones already pending (nothing is cancelled or replaced), any other adds
        nothing. No device is called before the entry fires. */
    method ExecuteCommand(t: PlayoutType) returns (r: bool)
      modifies this`pending
      ensures r
      ensures pending == old(pending) + Schedule(t, command.delay)
    {
      if t == PlayoutType.Stop {
        pending := pending + [Timer(0, StopSlot)];
      } else if t == PlayoutType.Play {
        pending := pending + [Timer(command.delay, PlaySlot)];
      } else if t == PlayoutType.Load {
        pending := pending + [Timer(0, LoadSlot)];
      } else if t == PlayoutType.Clear {
        pending := pending + [Timer(0, ClearSlot)];
      } else if t == PlayoutType.ClearVideolayer {
        pending := pending + [Timer(0, ClearVideolayerSlot)];
      } else if t == PlayoutType.ClearChannel {
        pending := pending + [Timer(0, ClearChannelSlot)];
      }
      r := true;
    }

    /** The timer entry at index `i` expires: it leaves the queue and its slot
        runs against the item's state and the registry as they are now. An index
        with no entry fires nothing. */
    method Fire(i: nat, reg: Registry) returns (fired: bool)
      modifies this`pending, this`sent, this`loaded
      ensures fired == (i < |old(pending)|)
      ensures fired ==> pending == old(pending[..i] + pending[i + 1..])
      ensures fired ==> sent == old(sent) + Dispatch(reg, model.deviceName, Requests(old(pending[i].slot), command, old(loaded)))
      ensures fired ==> loaded == LoadedAfter(old(pending[i].slot))
      ensures !fired ==> pending == old(pending) && sent == old(sent) && loaded == old(loaded)
    {
      fired := i < |pending|;
      if fired {
        var slot := pending[i].slot;
        pending := pending[..i] + pending[i + 1..];
        match slot
        case StopSlot => ExecuteStop(reg);
        case PlaySlot => ExecutePlay(reg);
        case LoadSlot => ExecuteLoad(reg);
        case ClearSlot => ExecuteClear(reg);
        case ClearVideolayerSlot => ExecuteClearVideolayer(reg);
        case ClearChannelSlot => ExecuteClearChannel(reg);
      }
    }

    method ExecuteStop(reg: Registry)
      modifies this`sent, this`loaded
      ensures sent == old(sent) + Dispatch(reg, model.deviceName, Requests(StopSlot, command, old(loaded)))
      ensures loaded == LoadedAfter(StopSlot)
    {
      var calls := FanOut(reg, model.deviceName, [StopDeviceInput(command.channel, command.videolayer)]);
      sent := sent + calls;
      loaded := false;
    }

    /** Plays the input on every target with the short form when `loaded` holds
        now and with the full form otherwise; afterwards nothing is loaded. */
    method ExecutePlay(reg: Registry)
      modifies this`sent, this`loaded
      ensures sent == old(sent) + Dispatch(reg, model.deviceName, Requests(PlaySlot, command, old(loaded)))
      ensures loaded == LoadedAfter(PlaySlot)
    {
      var request;
      if loaded {
        request := PlayDeviceInput(command.channel, command.videolayer);
      } else {
        request := PlayDeviceInputWith(command.channel, command.videolayer, command.device, command.format);
      }
      var calls := FanOut(reg, model.deviceName, [request]);
      sent := sent + calls;
      loaded := false;
    }

    method ExecuteLoad(reg: Registry)
      modifies this`sent, this`loaded
      ensures sent == old(sent) + Dispatch(reg, model.deviceName, Requests(LoadSlot, command, old(loaded)))
      ensures loaded == LoadedAfter(LoadSlot)
    {
      var calls := FanOut(reg, model.deviceName,
                          [LoadDeviceInput(command.channel, command.videolayer, command.device, command.format)]);
      sent := sent + calls;
      loaded := true;
    }

    method ExecuteClear(reg: Registry)
      modifies this`sent, this`loaded
      ensures sent == old(sent) + Dispatch(reg, model.deviceName, Requests(ClearSlot, command, old(loaded)))
      ensures loaded == LoadedAfter(ClearSlot)
    {
      var calls := FanOut(reg, model.deviceName, [StopDeviceInput(command.channel, command.videolayer)]);
      sent := sent + calls;
      loaded := false;
    }

    method ExecuteClearVideolayer(reg: Registry)
      modifies this`sent, this`loaded
      ensures sent == old(sent) + Dispatch(reg, model.deviceName, Requests(ClearVideolayerSlot, command, old(loaded)))
      ensures loaded == LoadedAfter(ClearVideolayerSlot)
    {
      var calls := FanOut(reg, model.deviceName, [Request.ClearVideolayer(command.channel, command.videolayer)]);
      sent := sent + calls;
      loaded := false;
    }

    method ExecuteClearChannel(reg: Registry)
      modifies this`sent, this`loaded
      ensures sent == old(sent) + Dispatch(reg, model.deviceName, Requests(ClearChannelSlot, command, old(loaded)))
      ensures loaded == LoadedAfter(ClearChannelSlot)
    {
      var calls := FanOut(reg, model.deviceName,
                          [Request.ClearChannel(command.channel), ClearMixerChannel(command.channel)]);
      sent := sent + calls;
      loaded := false;
    }

    /** Metadata updates and preview reach only the active item; preview plays
        at once, without the delay. Connection changes for the bound device
        are tracked whether or not the item is active. */
    method EventFilter(ev: Event, reg: Registry)
      modifies this`model, this`disconnected, this`sent, this`loaded
      ensures ev.RundownItemChanged? ==>
        model == (if old(active) then old(model).(labelText := ev.labelText, deviceName := ev.deviceName, name := ev.name)
                  else old(model))
        && disconnected == old(disconnected) && sent == old(sent) && loaded == old(loaded)
      ensures ev.RundownItemPreview? ==>
        model == old(model) && disconnected == old(disconnected)
        && (if old(active)
            then sent == old(sent) + Dispatch(reg, model.deviceName, Requests(PlaySlot, command, old(loaded)))
                 && loaded == LoadedAfter(PlaySlot)
            else sent == old(sent) && loaded == old(loaded))
      ensures ev.ConnectionStateChanged? ==>
        disconnected == (if ev.deviceName == old(model.deviceName) then !ev.connected else old(disconnected))
        && model == old(model) && sent == old(sent) && loaded == old(loaded)
      ensures ev.OtherEvent? ==>
        model == old(model) && disconnected == old(disconnected) && sent == old(sent) && loaded == old(loaded)
    {
      match ev
      case RundownItemChanged(labelText, deviceName, name) =>
        if active {
          model := model.(labelText := labelText, deviceName := deviceName, name := name);
        }
      case RundownItemPreview =>
        if active {
          ExecutePlay(reg);
        }
      case ConnectionStateChanged(deviceName, connected) =>
        if deviceName == model.deviceName {
          disconnected := !connected;
        }
      case OtherEvent =>
    }

    /** An independent item with the same command, model, color and flags
        (`loaded` included), no pending timers and no calls issued. */
    method Clone() returns (w: DeckLinkInputItem)
      ensures fresh(w)
      ensures w.command == command && w.model == model && w.color == color
      ensures w.active == active && w.loaded == loaded && w.inGroup == inGroup && w.disconnected == disconnected
      ensures w.pending == [] && w.sent == []
    {
      w := new DeckLinkInputItem(model, command, color, active, loaded, inGroup, disconnected);
    }

    method SetActive(active: bool)
      modifies this`active
      ensures this.active == active
    {
      this.active := active;
    }

    /** Group membership; the label shifting that goes with it is presentation. */
    method SetInGroup(inGroup: bool)
      modifies this`inGroup
      ensures this.inGroup == inGroup
    {
      this.inGroup := inGroup;
    }

    /** Takes the color from the document; a document without one leaves the
        item unchanged and reports failure. */
    method ReadProperties(doc: Document) returns (ok: bool)
      modifies this`color
      ensures ok == (ReadColor(doc) != None)
      ensures color == (if ok then doc[ColorKey] else old(color))
    {
      var r := ReadColor(doc);
      ok := r.Some?;
      if ok {
        color := r.value;
      }
    }

    method WriteProperties(doc: Document) returns (out: Document)
      ensures ReadColor(out) == Some(color)
      ensures out == WriteColor(doc, color)
    {
      out := WriteColor(doc, color);
    }
  }

  // ---------------------------------------------------------------------------
  // Properties of the slots

  /** Play makes one choice of overload, from `loaded` at fire time, and every
      target receives that same call. */
  lemma PlayOverloadUniform(reg: Registry, primary: string, c: DeckLinkInputCommand, loaded: bool)
    ensures forall x :: x in Dispatch(reg, primary, Requests(PlaySlot, c, loaded)) ==>
              x.request == (if loaded then PlayDeviceInput(c.channel, c.videolayer)
                            else PlayDeviceInputWith(c.channel, c.videolayer, c.device, c.format))
    ensures forall d :: d in Targets(reg, primary) ==>
              Call(d, Requests(PlaySlot, c, loaded)[0]) in Dispatch(reg, primary, Requests(PlaySlot, c, loaded))
  {
    var reqs := Requests(PlaySlot, c, loaded);
    forall x | x in Dispatch(reg, primary, reqs)
      ensures x.request == reqs[0]
    {
      BroadcastMembership(Targets(reg, primary), reqs, x);
    }
    forall d | d in Targets(reg, primary)
      ensures Call(d, reqs[0]) in Dispatch(reg, primary, reqs)
    {
      BroadcastMembership(Targets(reg, primary), reqs, Call(d, reqs[0]));
    }
  }

  /** ClearChannel sends each target clearChannel and then clearMixerChannel,
      target after target. */
  lemma ClearChannelOrder(reg: Registry, primary: string, c: DeckLinkInputCommand, loaded: bool, i: nat)
    requires i < |Targets(reg, primary)|
    ensures |Dispatch(reg, primary, Requests(ClearChannelSlot, c, loaded))| == 2 * |Targets(reg, primary)|
    ensures Dispatch(reg, primary, Requests(ClearChannelSlot, c, loaded))[2 * i]
            == Call(Targets(reg, primary)[i], Request.ClearChannel(c.channel))
    ensures Dispatch(reg, primary, Requests(ClearChannelSlot, c, loaded))[2 * i + 1]
            == Call(Targets(reg, primary)[i], ClearMixerChannel(c.channel))
  {
    var ts, reqs := Targets(reg, primary), Requests(ClearChannelSlot, c, loaded);
    BroadcastAt(ts, reqs, i, 0);
    BroadcastAt(ts, reqs, i, 1);
  }

  /** Clear is Stop under another trigger: same device call, same `loaded`. */
  lemma ClearSendsStop(reg: Registry, primary: string, c: DeckLinkInputCommand, loaded: bool)
    ensures Dispatch(reg, primary, Requests(ClearSlot, c, loaded)) == Dispatch(reg, primary, Requests(StopSlot, c, loaded))
    ensures LoadedAfter(ClearSlot) == LoadedAfter(StopSlot) == false
  {
  }

  /** A Play is not cancelled by a later Stop, and it reads `loaded` when it
      fires: an item that was loaded when Play was triggered, but whose Stop
      fired first, plays with the full form and ends up unloaded. */
  method StopOvertakesPlay(model: LibraryModel, command: DeckLinkInputCommand, reg: Registry)
    returns (playCalls: seq<Call>, left: nat, loaded: bool)
    ensures playCalls == Dispatch(reg, model.deviceName,
                                  [PlayDeviceInputWith(command.channel, command.videolayer, command.device, command.format)])
    ensures left == 0 && !loaded
  {
    var item := new DeckLinkInputItem(model, command, "", true, true, false, false);
    var ok := item.ExecuteCommand(PlayoutType.Play);
    ok := item.ExecuteCommand(PlayoutType.Stop);
    assert item.pending == [Timer(command.delay, PlaySlot), Timer(0, StopSlot)];
    // The environment lets the Stop entry (index 1) expire first, as its
    // zero delay does whenever the Play's delay is positive.
    var fired := item.Fire(1, reg);
    assert item.pending == [Timer(command.delay, PlaySlot)] && !item.loaded;
    var before := |item.sent|;
    fired := item.Fire(0, reg);
    playCalls := item.sent[before..];
    left := |item.pending|;
    loaded := item.loaded;
  }

  /** An item bound to a device the registry does not know, with one connected
      shadow: Load reaches only the shadow, and the item is loaded. */
  method LoadReachesShadowOnly(command: DeckLinkInputCommand) returns (calls: seq<Call>, loaded: bool)
    ensures calls == [Call("CG2", LoadDeviceInput(command.channel, command.videolayer, command.device, command.format))]
    ensures loaded
  {
    var reg := Registry([DeviceModel("CG2", "Yes")], map["CG2" := true]);
    var item := new DeckLinkInputItem(LibraryModel("", "CG1", ""), command, "", true, false, false, false);
    var ok := item.ExecuteCommand(PlayoutType.Load);
    var fired := item.Fire(0, reg);
    assert ShadowTargets(reg, 1) == ["CG2"];
    assert Targets(reg, "CG1") == ["CG2"];
    var load := LoadDeviceInput(command.channel, command.videolayer, command.device, command.format);
    assert SendTo("CG2", [load]) == [Call("CG2", load)];
    assert ["CG2"][..0] == [];
    assert item.sent == Dispatch(reg, "CG1", [load]);
    assert Dispatch(reg, "CG1", [load]) == Broadcast(["CG2"], [load]);
    assert Broadcast(["CG2"], [load]) == [Call("CG2", load)];
    calls := item.sent;
    loaded := item.loaded;
  }
}
