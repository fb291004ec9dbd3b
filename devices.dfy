/** The device side of the engine: the registry an item resolves device names
    through, the requests it sends, and the fan-out rule that decides which
    devices receive them. */
module Devices {

  /** One configured device. A device is a shadow unless `shadow` is exactly "No". */
  datatype DeviceModel = DeviceModel(name: string, shadow: string)

  /** The device manager as seen at one instant: the configured devices in
      registry order, and for every name that resolves to a connection whether
      that connection is up. A name absent from `connections` does not resolve. */
  datatype Registry = Registry(models: seq<DeviceModel>, connections: map<string, bool>)

  /** One request to a device, named after the device call it stands for. */
  datatype Request =
    | StopDeviceInput(channel: int, videolayer: int)
    | PlayDeviceInput(channel: int, videolayer: int)
    | PlayDeviceInputWith(channel: int, videolayer: int, device: int, format: string)
    | LoadDeviceInput(channel: int, videolayer: int, device: int, format: string)
    | ClearVideolayer(channel: int, videolayer: int)
    | ClearChannel(channel: int)
    | ClearMixerChannel(channel: int)
    | SetCommit(channel: int)

  /** A request as it reached one named device. */
  datatype Call = Call(device: string, request: Request)

  /** `name` resolves to a connection and that connection is up. */
  predicate Reachable(reg: Registry, name: string)
  {
    name in reg.connections && reg.connections[name]
  }

  predicate IsShadow(m: DeviceModel)
  {
    m.shadow != "No"
  }

  /** Some registry entry named `name` is marked as a shadow and it is reachable. */
  ghost predicate IsLiveShadow(reg: Registry, name: string)
  {
    Reachable(reg, name) &&
    exists i :: 0 <= i < |reg.models| && reg.models[i].name == name && IsShadow(reg.models[i])
  }

  /** The live shadows among the first `n` registry entries, in registry order. */
  function ShadowTargets(reg: Registry, n: nat): seq<string>
    requires n <= |reg.models|
  {
    if n == 0 then []
    else
      var m := reg.models[n - 1];
      ShadowTargets(reg, n - 1) + (if IsShadow(m) && Reachable(reg, m.name) then [m.name] else [])
  }

  /** The primary, when it is reachable. */
  function PrimaryTarget(reg: Registry, primary: string): seq<string>
  {
    if Reachable(reg, primary) then [primary] else []
  }

  /** Every device one slot reaches, in the order it reaches them. */
  function Targets(reg: Registry, primary: string): seq<string>
  {
    PrimaryTarget(reg, primary) + ShadowTargets(reg, |reg.models|)
  }

  /** `reqs`, in order, as sent to device `d`. */
  function SendTo(d: string, reqs: seq<Request>): (r: seq<Call>)
    ensures |r| == |reqs|
    ensures forall j :: 0 <= j < |reqs| ==> r[j] == Call(d, reqs[j])
  {
    seq(|reqs|, j requires 0 <= j < |reqs| => Call(d, reqs[j]))
  }

  /** `reqs` sent to each device of `ts` in turn. */
  function Broadcast(ts: seq<string>, reqs: seq<Request>): seq<Call>
  {
    if ts == [] then []
    else Broadcast(ts[..|ts| - 1], reqs) + SendTo(ts[|ts| - 1], reqs)
  }

  /** The calls one slot issues for `reqs` when its item is bound to `primary`. */
  function Dispatch(reg: Registry, primary: string, reqs: seq<Request>): seq<Call>
  {
    Broadcast(Targets(reg, primary), reqs)
  }

  /** The fan-out every slot runs: the primary first if it resolves and is
      connected, then every registry entry not marked "No" that resolves and
      is connected, each receiving all of `reqs`. Unreachable devices are skipped. */
  method FanOut(reg: Registry, primary: string, reqs: seq<Request>) returns (calls: seq<Call>)
    ensures calls == Dispatch(reg, primary, reqs)
  {
    calls := [];
    if primary in reg.connections && reg.connections[primary] {
      calls := SendTo(primary, reqs);
    }
    assert [primary][..0] == [];
    for k := 0 to |reg.models|
      invariant calls == Broadcast(PrimaryTarget(reg, primary) + ShadowTargets(reg, k), reqs)
    {
      var m := reg.models[k];
      if m.shadow != "No" && m.name in reg.connections && reg.connections[m.name] {
        ghost var before := PrimaryTarget(reg, primary) + ShadowTargets(reg, k);
        ghost var after := before + [m.name];
        assert PrimaryTarget(reg, primary) + ShadowTargets(reg, k + 1) == after;
        assert after[..|after| - 1] == before;
        assert Broadcast(after, reqs) == Broadcast(before, reqs) + SendTo(m.name, reqs);
        calls := calls + SendTo(m.name, reqs);
      } else {
        assert ShadowTargets(reg, k + 1) == ShadowTargets(reg, k);
      }
    }
  }

  // ---------------------------------------------------------------------------
  // Properties of the fan-out rule

  lemma {:induction false} BroadcastAppend(a: seq<string>, b: seq<string>, reqs: seq<Request>)
    ensures Broadcast(a + b, reqs) == Broadcast(a, reqs) + Broadcast(b, reqs)
    decreases |b|
  {
    if b == [] {
      assert a + b == a;
    } else {
      var b' := b[..|b| - 1];
      assert (a + b)[..|a + b| - 1] == a + b';
      BroadcastAppend(a, b', reqs);
    }
  }

  /** The calls of a slot are the primary's share, then the shadows' share; the
      shadows' share does not depend on the primary at all, and the primary's
      does not depend on any shadow. */
  lemma DispatchSplits(reg: Registry, primary: string, reqs: seq<Request>)
    ensures Dispatch(reg, primary, reqs)
         == (if Reachable(reg, primary) then SendTo(primary, reqs) else [])
            + Broadcast(ShadowTargets(reg, |reg.models|), reqs)
  {
    BroadcastAppend(PrimaryTarget(reg, primary), ShadowTargets(reg, |reg.models|), reqs);
    assert [primary][..0] == [];
  }

  lemma {:induction false} BroadcastLength(ts: seq<string>, reqs: seq<Request>)
    ensures |Broadcast(ts, reqs)| == |ts| * |reqs|
  {
    if ts != [] {
      BroadcastLength(ts[..|ts| - 1], reqs);
      assert (|ts| - 1) * |reqs| + |reqs| == |ts| * |reqs|;
    }
  }

  lemma {:induction false} MulStep(a: nat, b: nat, m: nat, j: nat)
    requires a < b && j < m
    ensures a * m + j < b * m
    decreases b
  {
    if a + 1 < b {
      MulStep(a, b - 1, m, j);
    }
    assert b * m == (b - 1) * m + m;
  }

  /** Device `ts[i]` receives request `reqs[j]` at position `i * |reqs| + j`:
      each device receives the whole request list before the next device
      receives anything. */
  lemma {:induction false} BroadcastAt(ts: seq<string>, reqs: seq<Request>, i: nat, j: nat)
    requires i < |ts| && j < |reqs|
    ensures |Broadcast(ts, reqs)| == |ts| * |reqs|
    ensures i * |reqs| + j < |ts| * |reqs|
    ensures Broadcast(ts, reqs)[i * |reqs| + j] == Call(ts[i], reqs[j])
  {
    BroadcastLength(ts, reqs);
    MulStep(i, |ts|, |reqs|, j);
    var n := |ts| - 1;
    var prefix := ts[..n];
    var whole := Broadcast(ts, reqs);
    assert whole == Broadcast(prefix, reqs) + SendTo(ts[n], reqs);
    BroadcastLength(prefix, reqs);
    if i == n {
      assert whole[n * |reqs| + j] == SendTo(ts[n], reqs)[j];
    } else {
      MulStep(i, n, |reqs|, j);
      BroadcastAt(prefix, reqs, i, j);
      assert whole[i * |reqs| + j] == Broadcast(prefix, reqs)[i * |reqs| + j];
    }
  }

  /** A call is issued exactly when its device is one of the targets and its
      request is one of the requests. */
  lemma {:induction false} BroadcastMembership(ts: seq<string>, reqs: seq<Request>, c: Call)
    ensures c in Broadcast(ts, reqs) <==> c.device in ts && c.request in reqs
  {
    if ts != [] {
      var prefix := ts[..|ts| - 1];
      BroadcastMembership(prefix, reqs, c);
      assert ts == prefix + [ts[|ts| - 1]];
      var tail := SendTo(ts[|ts| - 1], reqs);
      if c.device == ts[|ts| - 1] && c.request in reqs {
        var j :| 0 <= j < |reqs| && reqs[j] == c.request;
        assert tail[j] == c;
      }
    }
  }

  /** The live shadows among the first `n` entries are exactly the reachable
      names some shadow entry among them carries. */
  lemma {:induction false} ShadowTargetsMembership(reg: Registry, n: nat, x: string)
    requires n <= |reg.models|
    ensures x in ShadowTargets(reg, n)
        <==> Reachable(reg, x) &&
             exists i :: 0 <= i < n && reg.models[i].name == x && IsShadow(reg.models[i])
  {
    if n > 0 {
      ShadowTargetsMembership(reg, n - 1, x);
      var m := reg.models[n - 1];
      if x in ShadowTargets(reg, n) && x !in ShadowTargets(reg, n - 1) {
        assert m.name == x;
      }
    }
  }

  /** Union semantics: a device is reached exactly when it is the reachable
      primary or a reachable shadow. An absent or disconnected device is never
      reached, and neither half depends on the other. */
  lemma TargetsMembership(reg: Registry, primary: string, x: string)
    ensures x in Targets(reg, primary)
        <==> (x == primary && Reachable(reg, primary)) || IsLiveShadow(reg, x)
  {
    ShadowTargetsMembership(reg, |reg.models|, x);
  }

  /** A reachable primary that is also marked as a shadow receives every slot twice. */
  lemma PrimaryAlsoShadowReachedTwice(reg: Registry, primary: string)
    requires IsLiveShadow(reg, primary)
    ensures multiset(Targets(reg, primary))[primary] == 1 + multiset(ShadowTargets(reg, |reg.models|))[primary]
    ensures multiset(Targets(reg, primary))[primary] >= 2
  {
    ShadowTargetsMembership(reg, |reg.models|, primary);
  }

  /** Shadows are reached in registry order: the shadows among a prefix of the
      registry are reached before those among the rest. */
  lemma {:induction false} ShadowTargetsPrefix(reg: Registry, n: nat, m: nat)
    requires n <= m <= |reg.models|
    ensures ShadowTargets(reg, n) <= ShadowTargets(reg, m)
    decreases m - n
  {
    if n < m {
      ShadowTargetsPrefix(reg, n, m - 1);
    }
  }

  /** Every call of a slot is one of its requests sent to a reachable primary
      or a reachable shadow, and every such pairing occurs. */
  lemma DispatchMembership(reg: Registry, primary: string, reqs: seq<Request>, c: Call)
    ensures c in Dispatch(reg, primary, reqs)
        <==> c.request in reqs &&
             ((c.device == primary && Reachable(reg, primary)) || IsLiveShadow(reg, c.device))
  {
    BroadcastMembership(Targets(reg, primary), reqs, c);
    TargetsMembership(reg, primary, c.device);
  }
}
