# Rundown item execution engine

This project models two rundown items of a playout controller. Each item
turns a playout trigger into a timer entry. When the entry fires, the item
sends device requests to its primary device and to every shadow device.

- The **DeckLink input item** handles Stop, Play, Load, Clear, ClearVideolayer
  and ClearChannel. It also tracks `loaded`, which selects between the two Play
  forms.
- The **commit item** sends `setCommit` on Play, Invoke and Update.

Both items also:

- filter application events: metadata changes, preview and connection changes;
- clone themselves;
- persist their color tag.

Layout:

- `playout.dfy` (module `Playout`): the trigger enumeration, the events an item
  filters, and the library model an item is bound to.
- `devices.dfy` (module `Devices`): the device registry, seen as the configured
  devices in registry order plus a map from names that resolve to whether they
  are connected. It also holds the requests, the call log entries, and the
  fan-out rule. The rule is stated as a function (`Targets`, `Dispatch`) and
  implemented once as a loop (`FanOut`). Both item kinds use that one loop;
  in the source it is repeated in every `execute*` slot.
- `properties.dfy` (module `Properties`): the color attribute of the property
  document.
- `decklink_input.dfy` (module `DeckLinkInput`): class `DeckLinkInputItem`, its
  timer entries, its per-slot requests, and the lemmas about them.
- `commit.dfy` (module `Commit`): class `CommitItem` and the lemmas about its
  commit slot.

Each item is a class whose fields are the item's state (`command`, `model`,
`color`, `active`, `loaded`, `inGroup`, `disconnected`). Two more fields stand
for the outside world:

- `pending` holds the single-shot timer entries not yet fired, oldest first.
- `sent` holds every device call the item has issued, in order.

`ExecuteCommand` only appends to `pending`. `Fire(i, reg)` is the expiry of
the entry at index `i`. The environment chooses that index, because which timer
expires first is a matter of wall-clock time. The slot then runs against the
item's fields and the registry as they are at that moment. An index with no
entry fires nothing.

Three facts of the source shape the model:

- A clone keeps `loaded`: `clone` passes `this->loaded` to the new item's
  constructor (Widgets/Rundown/RundownDeckLinkInputWidget.cpp:94-96).
- Preview calls `executePlay` directly, without the delay
  (Widgets/Rundown/RundownDeckLinkInputWidget.cpp:73,
  Widgets/Rundown/RundownCommitWidget.cpp:68).
- The shadows are visited whether or not the primary was reachable
  (Widgets/Rundown/RundownCommitWidget.cpp:183-195).

## Model

| member | source | states |
|---|---|---|
| `Devices.FanOut` | Widgets/Rundown/RundownDeckLinkInputWidget.cpp:208-220 | The per-slot loop issues exactly `Dispatch`. The primary gets the requests first, if it resolves and is connected. Then each registry entry whose shadow field is not "No" gets them, in registry order, if it resolves and is connected. Unreachable devices are skipped. |
| `Devices.DispatchSplits` | Widgets/Rundown/RundownCommitWidget.cpp:183-195 | A slot's calls are the primary's share followed by the shadows' share. The shadows' share does not depend on the primary, and the primary's share does not depend on any shadow. |
| `Devices.TargetsMembership` | Widgets/Rundown/RundownDeckLinkInputWidget.cpp:258-272 | A device is reached if and only if it is the reachable primary or a reachable shadow entry. An absent or disconnected device is never reached. |
| `Devices.ShadowTargetsMembership` | Widgets/Rundown/RundownDeckLinkInputWidget.cpp:212-220 | Among the first n registry entries, the shadows reached are exactly the reachable names carried by entries not marked "No". |
| `Devices.PrimaryAlsoShadowReachedTwice` | Widgets/Rundown/RundownDeckLinkInputWidget.cpp:208-219 | A reachable primary that is also marked as a shadow is called once more than its shadow entries alone would call it, so at least twice. |
| `Devices.ShadowTargetsPrefix` | Widgets/Rundown/RundownDeckLinkInputWidget.cpp:237-251 | Shadows are reached in registry order. The shadows of a registry prefix come before those of the rest. |
| `Devices.DispatchMembership` | Widgets/Rundown/RundownDeckLinkInputWidget.cpp:296-310 | A call occurs if and only if its request is one of the slot's requests and its device is the reachable primary or a reachable shadow. |
| `Devices.BroadcastMembership` | Widgets/Rundown/RundownDeckLinkInputWidget.cpp:277-291 | Sending a request list to a target list yields exactly the pairs of a listed target with a listed request. |
| `Devices.BroadcastAt` | Widgets/Rundown/RundownDeckLinkInputWidget.cpp:324-335 | Target i receives request j at position i·n+j, where n is the number of requests. Each target receives its whole list before the next target receives anything. |
| `Devices.BroadcastAppend` | Widgets/Rundown/RundownCommitWidget.cpp:187-195 | Fanning out to two target lists in turn is the concatenation of the two fan-outs. |
| `Properties.ReadColor` | Widgets/Rundown/RundownDeckLinkInputWidget.cpp:113-116 | Reading the color succeeds exactly when the document has a color element. |
| `Properties.WriteColor` | Widgets/Rundown/RundownDeckLinkInputWidget.cpp:118-121 | After writing the color, reading it back yields that color. Other elements are kept. |
| `DeckLinkInput.Schedule` | Widgets/Rundown/RundownDeckLinkInputWidget.cpp:188-204 | A trigger adds exactly one timer entry for Stop, Play, Load, Clear, ClearVideolayer and ClearChannel, and none for any other trigger. The entry's slot maps back to the trigger. Its delay is the command's delay for Play and 0 otherwise. |
| `DeckLinkInput.DeckLinkInputItem.constructor` | Widgets/Rundown/RundownDeckLinkInputWidget.cpp:13-16 | A new item holds the given model, color and flags. It has nothing pending and has sent nothing. |
| `DeckLinkInput.DeckLinkInputItem.ExecuteCommand` | Widgets/Rundown/RundownDeckLinkInputWidget.cpp:188-204 | Returns true for every trigger. It appends the trigger's entries behind the pending ones, so nothing is cancelled or replaced. It changes nothing else. |
| `DeckLinkInput.DeckLinkInputItem.Fire` | Widgets/Rundown/RundownDeckLinkInputWidget.cpp:190-201 | Firing an entry removes it and only it. It runs its slot with `loaded` as it is at fire time. After a Load slot `loaded` is true; after any other slot it is false, so repeated ClearChannel keeps it false. |
| `DeckLinkInput.DeckLinkInputItem.ExecuteStop` | Widgets/Rundown/RundownDeckLinkInputWidget.cpp:206-223 | Sends `stopDeviceInput(channel, videolayer)` to every target, then clears `loaded`. |
| `DeckLinkInput.DeckLinkInputItem.ExecutePlay` | Widgets/Rundown/RundownDeckLinkInputWidget.cpp:225-254 | Sends the short play form if `loaded` is true and the full form otherwise, to every target. Then clears `loaded`. |
| `DeckLinkInput.DeckLinkInputItem.ExecuteLoad` | Widgets/Rundown/RundownDeckLinkInputWidget.cpp:256-275 | Sends `loadDeviceInput(channel, videolayer, device, format)` to every target, then sets `loaded`. |
| `DeckLinkInput.DeckLinkInputItem.ExecuteClear` | Widgets/Rundown/RundownDeckLinkInputWidget.cpp:277-294 | Sends `stopDeviceInput(channel, videolayer)` to every target, then clears `loaded`. |
| `DeckLinkInput.DeckLinkInputItem.ExecuteClearVideolayer` | Widgets/Rundown/RundownDeckLinkInputWidget.cpp:296-313 | Sends `clearVideolayer(channel, videolayer)` to every target, then clears `loaded`. |
| `DeckLinkInput.DeckLinkInputItem.ExecuteClearChannel` | Widgets/Rundown/RundownDeckLinkInputWidget.cpp:315-338 | Sends `clearChannel(channel)` and then `clearMixerChannel(channel)` to every target, then clears `loaded`. |
| `DeckLinkInput.DeckLinkInputItem.EventFilter` | Widgets/Rundown/RundownDeckLinkInputWidget.cpp:46-90 | When the item is inactive, metadata changes and preview change nothing. When it is active, a metadata change sets label, device name and name. Preview then runs the play slot at once, without the delay. A connection change sets `disconnected` to the negation of `connected` exactly when its device name is the bound one, whatever `active` is. |
| `DeckLinkInput.DeckLinkInputItem.Clone` | Widgets/Rundown/RundownDeckLinkInputWidget.cpp:92-111 | A fresh item with the same ten command fields, model, color, `active`, `loaded`, `inGroup` and `disconnected`. |
| `DeckLinkInput.DeckLinkInputItem.SetActive` | Widgets/Rundown/RundownDeckLinkInputWidget.cpp:138-146 | Sets `active` and nothing else. |
| `DeckLinkInput.DeckLinkInputItem.SetInGroup` | Widgets/Rundown/RundownDeckLinkInputWidget.cpp:148-151 | Sets `inGroup` and nothing else. |
| `DeckLinkInput.DeckLinkInputItem.ReadProperties` | Widgets/Rundown/RundownDeckLinkInputWidget.cpp:113-116 | Takes the color from the document. A document without a color leaves the item unchanged and reports failure. |
| `DeckLinkInput.DeckLinkInputItem.WriteProperties` | Widgets/Rundown/RundownDeckLinkInputWidget.cpp:118-121 | Writes the item's color so that reading it back yields it. |
| `DeckLinkInput.PlayOverloadUniform` | Widgets/Rundown/RundownDeckLinkInputWidget.cpp:228-250 | Every call of a Play slot uses the form chosen from `loaded`: the short form when loaded, the full form otherwise. Every target receives that same call. |
| `DeckLinkInput.ClearChannelOrder` | Widgets/Rundown/RundownDeckLinkInputWidget.cpp:318-334 | A ClearChannel slot issues two calls per target. Target i gets `clearChannel` at position 2i and `clearMixerChannel` at position 2i+1. |
| `DeckLinkInput.ClearSendsStop` | Widgets/Rundown/RundownDeckLinkInputWidget.cpp:277-293 | A Clear slot issues exactly the calls of a Stop slot and leaves `loaded` false, as Stop does. |
| `DeckLinkInput.StopOvertakesPlay` | Widgets/Rundown/RundownDeckLinkInputWidget.cpp:190-193 | Take an item loaded when Play is triggered, whose later Stop fires first. Its Play still fires and uses the full play form. No entry is left pending and the item ends unloaded. |
| `DeckLinkInput.LoadReachesShadowOnly` | Widgets/Rundown/RundownDeckLinkInputWidget.cpp:256-274 | Take an item bound to "CG1", which does not resolve, with one connected shadow "CG2". Load sends exactly one `loadDeviceInput` call, to "CG2", and the item ends loaded. |
| `Commit.Schedule` | Widgets/Rundown/RundownCommitWidget.cpp:171-179 | Play, Invoke and Update each add exactly one commit entry with the command's delay. Every other trigger adds none. |
| `Commit.CommitItem.constructor` | Widgets/Rundown/RundownCommitWidget.cpp:13-16 | A new item holds the given model, color and flags. It has nothing pending and has sent nothing. |
| `Commit.CommitItem.ExecuteCommand` | Widgets/Rundown/RundownCommitWidget.cpp:171-179 | Returns true for every trigger and appends the trigger's entries behind the pending ones. It changes nothing else. |
| `Commit.CommitItem.Fire` | Widgets/Rundown/RundownCommitWidget.cpp:176 | Firing an entry removes it and only it, then sends the commit fan-out. |
| `Commit.CommitItem.ExecutePlay` | Widgets/Rundown/RundownCommitWidget.cpp:181-196 | Sends `setCommit(channel)` to every target. Only the call log changes; `active`, `inGroup`, `disconnected`, `color`, `model` and `command` stay as they were. |
| `Commit.CommitItem.EventFilter` | Widgets/Rundown/RundownCommitWidget.cpp:44-85 | When the item is inactive, metadata changes and preview change nothing. When it is active, a metadata change sets label, device name and name. Preview then commits at once, without the delay. A connection change sets `disconnected` to the negation of `connected` exactly when its device name is the bound one, whatever `active` is. |
| `Commit.CommitItem.Clone` | Widgets/Rundown/RundownCommitWidget.cpp:87-98 | A fresh item with the same channel, delay, allowGpi, model, color, `active`, `inGroup` and `disconnected`. |
| `Commit.CommitItem.SetActive` | Widgets/Rundown/RundownCommitWidget.cpp:125-133 | Sets `active` and nothing else. |
| `Commit.CommitItem.SetInGroup` | Widgets/Rundown/RundownCommitWidget.cpp:135-138 | Sets `inGroup` and nothing else. |
| `Commit.CommitItem.ReadProperties` | Widgets/Rundown/RundownCommitWidget.cpp:100-103 | Takes the color from the document. A document without a color leaves the item unchanged and reports failure. |
| `Commit.CommitItem.WriteProperties` | Widgets/Rundown/RundownCommitWidget.cpp:105-108 | Writes the item's color so that reading it back yields it. |
| `Commit.CommitReaches` | Widgets/Rundown/RundownCommitWidget.cpp:183-195 | Every call of the commit slot is `setCommit(channel)`. It reaches a device exactly when that device is the reachable primary or a reachable shadow. |
| `Commit.CommitOrder` | Widgets/Rundown/RundownCommitWidget.cpp:184-194 | The commit slot issues one call per target, in target order: the primary first, then the shadows in registry order. |

## Left out

- Presentation is not modelled. That covers `setupUi`, label texts, stylesheets and pixmaps. It also covers the geometry shifting in `setInGroup`, `setColor`'s stylesheet, `checkEmptyDevice`, and the `channelChanged`, `delayChanged` and `videolayerChanged` label slots. None of them affects execution.
- `checkGpiTriggerable`, `allowGpiChanged` and `gpiDeviceConnected` only show or hide a label and pick an icon, so they are not modelled.
- The event filter's return value, the `dynamic_cast` of the event and `installEventFilter` are Qt plumbing and are not modelled.
- `isGroup`, `getCommand` and `getLibraryModel` are accessors and are not modelled. The model's fields are read directly instead.
- Real timers are not modelled. The time of an entry's expiry, the event loop and the order in which equal delays expire are left to the caller of `Fire`.
- The device manager, the GPI manager and the device connections are foreign code. The registry is a value passed to each slot when it fires, and device calls are appended to the item's `sent` log. No acknowledgement or network behaviour is modelled.
- The command classes are not part of this model. Their default field values are unknown, so each constructor takes the initial command. Their setters and change signals are not modelled. The field types (int for channel, videolayer, delay, device and duration; text for format, transition, tween and direction) are assumed. No range, such as a non-negative delay, is assumed.
- The property tree and the XML stream writer are foreign code. A property document is a map from element name to text. A missing color element, which throws in the source, makes `ReadProperties` report failure and leave the item unchanged.
- `LibraryModel` carries only the label, device name and name, the three fields the event filter sets. Its other fields are not part of this model.
