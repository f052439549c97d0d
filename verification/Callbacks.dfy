/** What an upcall can change: the device may re-enter the adapter any number of times, in any
    order, before it returns. */
module Callbacks {
  import opened Bytes
  import opened Wire
  import opened Model
  import opened Adapter
  import opened Ledgers

  /** What a port looks like after any number of device callbacks: packets may have been written or
      thrown away and the parked request dropped, but nothing was shipped, acknowledged or parked. */
  ghost predicate QuietPort(p: Port, q: Port) {
    && q.ledger.acks == p.ledger.acks && q.ledger.outs == p.ledger.outs && q.ledger.parked == p.ledger.parked
    && p.ledger.wrote <= q.ledger.wrote && p.ledger.fates <= q.ledger.fates
    && ShippedOf(q.ledger) == ShippedOf(p.ledger)
    && q.endpoint.intrIn == p.endpoint.intrIn
    && (q.endpoint.hostReady ==> p.endpoint.hostReady)
  }

  ghost predicate QuietPorts(ps: Ports, qs: Ports) {
    forall ep: Ep :: QuietPort(ps[ep], qs[ep])
  }

  ghost predicate Quiet(s: State, t: State) {
    && SameLink(s.link, t.link)
    && t.attached == s.attached && t.tables == s.tables && t.clock == s.clock
    && QuietPorts(s.ports, t.ports)
    && SameWaiting(s.ports, s.link.cancelled, t.ports, t.link.cancelled)
  }

  lemma {:induction false} QuietRefl(s: State)
    ensures Quiet(s, s)
  {
    hide ShippedOf, Waiting;
  }

  lemma {:induction false} QuietTrans(s: State, t: State, u: State)
    requires Quiet(s, t) && Quiet(t, u)
    ensures Quiet(s, u)
  {
    hide ShippedOf, Waiting;
    forall ep: Ep ensures QuietPort(s.ports[ep], u.ports[ep]) {
      assert QuietPort(s.ports[ep], t.ports[ep]) && QuietPort(t.ports[ep], u.ports[ep]);
    }
  }

  lemma {:induction false} ConservedQuiet(ps: Ports, qs: Ports, rs: seq<Reply>, current: Option<Submit>, gathered: seq<byte>)
    requires Conserved(ps, rs, current, gathered) && QuietPorts(ps, qs)
    ensures Conserved(qs, rs, current, gathered)
  {
    hide ShippedOf, Payloads, Flatten;
    forall ep: Ep ensures ConservedAt(qs[ep], rs, current, gathered, ep) {
      assert ConservedAt(ps[ep], rs, current, gathered, ep);
      assert QuietPort(ps[ep], qs[ep]);
    }
  }

  lemma {:induction false} QuietKeeps(s: State, t: State)
    requires Inv(s) && Quiet(s, t) && PortsOk(t.ports)
    requires CancelsOk(t.link.cancelled)
    requires TimerOk(t.timer, t.armings, t.fired, t.ticks, t.clock)
    ensures Inv(t)
  {
    hide TimerOk, PortsOk, RepliesOk, OutputOk, CancelsOk, BufferOk, Conserved, Balanced, SameWaiting, QuietPorts;
    var l := s.link;
    ConservedQuiet(s.ports, t.ports, l.replies, l.current, l.gathered);
    BalancedQuiet(l.consumed, l.replies, s.ports, l.cancelled, l.current, t.ports, t.link.cancelled);
  }

  lemma {:induction false} QuietPortsSet(ps: Ports, ep: Ep, p: Port)
    requires QuietPort(ps[ep], p)
    ensures QuietPorts(ps, ps[ep := p])
  {
    hide ShippedOf;
  }

  /** Replacing one port by a quiet successor that waits for the same request. */
  lemma {:induction false} QuietSet(s: State, ep: Ep, p: Port)
    requires Inv(s) && PortOk(ep, p) && QuietPort(s.ports[ep], p) && SameSlot(s.ports[ep], p)
    ensures Quiet(s, SetPort(s, ep, p)) && Inv(SetPort(s, ep, p))
  {
    hide PortOk, PortsOk, QuietPort, QuietPorts, LinkInv, SameWaiting;
    var t := SetPort(s, ep, p);
    SetPortOk(s.ports, ep, p);
    SameParked(s.ports, s.link.cancelled, ep, p);
    QuietPortsSet(s.ports, ep, p);
    assert Quiet(s, t);
    assert CancelsOk(s.link.cancelled) by {
      LinkInvCancels(s.ports, s.link);
    }
    QuietKeeps(s, t);
  }

  lemma {:induction false} LinkInvCancels(ps: Ports, l: Link)
    requires LinkInv(ps, l)
    ensures CancelsOk(l.cancelled)
  {}

  lemma {:induction false} CloseWaiting(s: State, ep: Ep)
    ensures SameWaiting(s.ports, s.link.cancelled, Closed(s, ep, true).ports, Closed(s, ep, true).link.cancelled)
  {
    hide CountParked, CountCancelled;
    var p := s.ports[ep];
    var q := p.(endpoint := p.endpoint.(mps := 0));
    var cs := CancelParked(p, EndpointClosed(ep));
    forall x: Submit
      ensures Waiting(s.ports, s.link.cancelled, x) ==
              Waiting(s.ports[ep := Unparked(Retired(q, Discarded(InClosed)))], s.link.cancelled + cs, x)
    {
      ParkedUpdate(s.ports, ep, Unparked(Retired(q, Discarded(InClosed))), x);
      CancelParkedCount(p, EndpointClosed(ep), x);
      CancelledAppend(s.link.cancelled, cs, x);
    }
  }

  function ClosedPort(p: Port, dirIn: bool): Port {
    var q := p.(endpoint := p.endpoint.(mps := 0));
    if dirIn then Unparked(Retired(q, Discarded(InClosed))) else q
  }

  lemma {:induction false} ClosedPortOk(ep: Ep, p: Port, dirIn: bool)
    requires PortOk(ep, p)
    ensures PortOk(ep, ClosedPort(p, dirIn)) && QuietPort(p, ClosedPort(p, dirIn))
    ensures CancelsOk(CancelParked(p, EndpointClosed(ep)))
  {
    hide ShippedOf, TakenCount;
    var q := p.(endpoint := p.endpoint.(mps := 0));
    RetiredOk(ep, q, Discarded(InClosed));
    if p.endpoint.hostReady {
      assert p.endpoint.intrIn in p.ledger.parked;
    }
  }

  lemma {:induction false} CancelsAppend(a: seq<Cancel>, b: seq<Cancel>)
    requires CancelsOk(a) && CancelsOk(b)
    ensures CancelsOk(a + b)
  {
    hide CancelOk;
  }

  lemma {:induction false} ClosedKeeps(s: State, ep: Ep, dirIn: bool)
    requires Inv(s)
    ensures Quiet(s, Closed(s, ep, dirIn)) && Inv(Closed(s, ep, dirIn))
  {
    hide PortOk, PortsOk, LinkInv, SameWaiting, QuietPort, QuietPorts, CancelsOk, CancelParked, Retired;
    var p := s.ports[ep];
    PortsOkAt(s.ports, ep);
    ClosedPortOk(ep, p, dirIn);
    if dirIn {
      SetPortOk(s.ports, ep, ClosedPort(p, true));
      CloseWaiting(s, ep);
      QuietPortsSet(s.ports, ep, ClosedPort(p, true));
      LinkInvCancels(s.ports, s.link);
      CancelsAppend(s.link.cancelled, CancelParked(p, EndpointClosed(ep)));
      QuietKeeps(s, Closed(s, ep, true));
    } else {
      QuietSet(s, ep, ClosedPort(p, false));
    }
  }

  lemma {:induction false} PortsOkAt(ps: Ports, ep: Ep)
    requires PortsOk(ps)
    ensures PortOk(ep, ps[ep])
  {}

  lemma {:induction false} StopKeeps(s: State)
    requires Inv(s)
    ensures Quiet(s, s.(ports := AllRetired(s.ports))) && Inv(s.(ports := AllRetired(s.ports)))
  {
    hide LinkInv, ShippedOf, TakenCount;
    var t := s.(ports := AllRetired(s.ports));
    forall ep: Ep ensures PortOk(ep, t.ports[ep]) && QuietPort(s.ports[ep], t.ports[ep]) {
      assert PortOk(ep, s.ports[ep]);
      RetiredOk(ep, s.ports[ep], Discarded(DeviceStopped));
      assert t.ports[ep] == Retired(s.ports[ep], Discarded(DeviceStopped));
    }
    LinkInvCancels(s.ports, s.link);
    forall x: Submit ensures Waiting(s.ports, s.link.cancelled, x) == Waiting(t.ports, s.link.cancelled, x) {}
    QuietKeeps(s, t);
  }

  lemma {:induction false} WriteStep(s: State, ep: Ep, bytes: seq<byte>)
    requires Inv(s) && !s.ports[ep].pending && |bytes| <= s.ports[ep].endpoint.mps
    ensures Quiet(s, SetPort(s, ep, Staged(s.ports[ep], bytes))) && Inv(SetPort(s, ep, Staged(s.ports[ep], bytes)))
  {
    hide LinkInv, ShippedOf, TakenCount;
    PortsOkAt(s.ports, ep);
    StagedOk(ep, s.ports[ep], bytes);
    QuietSet(s, ep, Staged(s.ports[ep], bytes));
  }

  /** Steps that touch only the clock, the timer and the script. */
  lemma {:induction false} TimerOnly(s: State, t: State)
    requires Inv(s) && TimerOk(t.timer, t.armings, t.fired, t.ticks, t.clock)
    requires t == s.(timer := t.timer, armings := t.armings, fired := t.fired, ticks := t.ticks, script := t.script)
    ensures Quiet(s, t) && Inv(t)
  {
    hide PortsOk, LinkInv, ShippedOf, Waiting, TimerOk;
  }

  /** (now - deadline) mod 2^32, whatever the true values. */
  lemma {:induction false} WrappedLateness(now: nat, due: nat)
    ensures (now % TWO_32 - due % TWO_32) % TWO_32 == (now - due) % TWO_32
  {}

  /** A deadline that is still ahead by less than half the range is never taken for a past one. */
  lemma {:induction false} NotEarly(now: nat, due: nat)
    requires due <= now + 0xFFFF && (now - due) % TWO_32 < TWO_31
    ensures due <= now
  {}

  lemma {:induction false} ReadingKeeps(s: State)
    requires Inv(s)
    ensures Inv(Ticked(s)) && Quiet(s, Ticked(s))
  {
    hide PortsOk, LinkInv, Quiet;
    TimerOnly(s, Ticked(s));
  }

  lemma {:induction false} ArmedKeeps(s: State, callback: nat, ms: uint16)
    requires Inv(s)
    ensures Inv(Armed(s, callback, ms)) && Quiet(s, Armed(s, callback, ms))
  {
    hide PortsOk, LinkInv, Quiet;
    var due := Arming(callback, ms, s.clock(s.ticks)).Due();
    assert (s.clock(s.ticks) % TWO_32 + ms) % TWO_32 == due % TWO_32;
    TimerOnly(s, Armed(s, callback, ms));
  }

  lemma {:induction false} DisarmedKeeps(s: State)
    requires Inv(s) && s.timer.Some? && Expired(s.timer.value, Now(s))
    ensures Inv(Disarmed(s)) && Quiet(s, Disarmed(s))
  {
    hide PortsOk, LinkInv, Quiet;
    var t := s.timer.value;
    var at := s.clock(s.ticks);
    var due := s.armings[t.id].Due();
    WrappedLateness(at, due);
    if Monotone(s.clock) {
      NotEarly(at, due);
    }
    TimerOnly(s, Disarmed(s));
  }

  /** The contract of each callback, in numbers. Opening gives an endpoint its type (0 control, 2 bulk, 3
      interrupt) and packet size, and ends the halt of the direction opened; closing leaves it without a
      packet size, and on the IN side without a packet or a waiting request; a packet is taken exactly when
      the endpoint is free and it fits; stopping frees every endpoint. Nothing else changes. */
  lemma {:induction false} CallbackContract(s: State, c: Callback, ep: Ep)
    ensures
      var run := Apply(s, c);
      var p, q := s.ports[ep], run.state.ports[ep];
      match c
      case Open(e, d) =>
        && run.flow.Continue? && q.pending == p.pending && q.packet == p.packet
        && q.endpoint.hostReady == p.endpoint.hostReady && q.endpoint.intrIn == p.endpoint.intrIn
        && q.endpoint.kind == (if e != ep then p.endpoint.kind else if ep == 0 then 0 else if ep == 3 then 2 else 3)
        && q.endpoint.mps == (if e != ep then p.endpoint.mps else if ep == 0 then 16 else if ep == 1 then 8 else 64)
        && q.haltedIn == (p.haltedIn && !(e == ep && d)) && q.haltedOut == (p.haltedOut && !(e == ep && !d))
      case Close(e, d) =>
        && run.flow.Continue? && q.packet == p.packet && q.haltedIn == p.haltedIn && q.haltedOut == p.haltedOut
        && q.endpoint.kind == p.endpoint.kind && q.endpoint.intrIn == p.endpoint.intrIn
        && q.endpoint.mps == (if e == ep then 0 else p.endpoint.mps)
        && q.pending == (p.pending && !(e == ep && d)) && q.endpoint.hostReady == (p.endpoint.hostReady && !(e == ep && d))
      case Stall(e, d, h) =>
        && run.flow.Continue? && q.pending == p.pending && q.packet == p.packet && q.endpoint == p.endpoint
        && q.haltedIn == (if e == ep && d then h else p.haltedIn) && q.haltedOut == (if e == ep && !d then h else p.haltedOut)
      case Write(e, bytes) =>
        && (run.flow.Continue? <==> |bytes| <= s.ports[e].endpoint.mps && !s.ports[e].pending)
        && (run.flow.Continue? || (run.flow.Aborted? && run.state == s))
        && q.endpoint == p.endpoint && q.haltedIn == p.haltedIn && q.haltedOut == p.haltedOut
        && (run.flow.Continue? ==>
              if e == ep then q.pending && q.packet == bytes else q.pending == p.pending && q.packet == p.packet)
      case Stop =>
        && run.flow.Continue? && !q.pending && q.packet == p.packet && q.endpoint == p.endpoint
        && q.haltedIn == p.haltedIn && q.haltedOut == p.haltedOut
      case SetTimeout(_, _) => run.flow.Continue? && q == p
  {
    hide CancelParked;
  }

  /** Every callback the device can make is quiet and keeps the invariant. */
  lemma {:induction false} ApplyKeeps(s: State, c: Callback)
    requires Inv(s)
    ensures Quiet(s, Apply(s, c).state) && Inv(Apply(s, c).state)
  {
    hide Inv, Quiet, ShippedOf, TakenCount;
    QuietRefl(s);
    match c
    case Open(ep, dirIn) =>
      InvAt(s, ep);
      QuietSet(s, ep, Opened(s.ports[ep], ep, dirIn));
    case Close(ep, dirIn) => ClosedKeeps(s, ep, dirIn);
    case Stall(ep, dirIn, halt) =>
      InvAt(s, ep);
      QuietSet(s, ep, if dirIn then s.ports[ep].(haltedIn := halt) else s.ports[ep].(haltedOut := halt));
    case Write(ep, bytes) =>
      if |bytes| <= s.ports[ep].endpoint.mps && !s.ports[ep].pending {
        WriteStep(s, ep, bytes);
      }
    case Stop => StopKeeps(s);
    case SetTimeout(callback, ms) => ArmedKeeps(s, callback, ms);
  }

  lemma {:induction false} InvAt(s: State, ep: Ep)
    requires Inv(s)
    ensures PortOk(ep, s.ports[ep])
  {
    hide PortOk, LinkInv;
  }

  lemma {:induction false} ScriptOnly(s: State, script: seq<seq<Callback>>)
    requires Inv(s)
    ensures Inv(s.(script := script)) && Quiet(s, s.(script := script))
  {
    hide PortsOk, LinkInv, TimerOk, Quiet;
    TimerOnly(s, s.(script := script));
  }

  lemma {:induction false} ApplyAllKeeps(s: State, cs: seq<Callback>)
    requires Inv(s)
    ensures Quiet(s, ApplyAll(s, cs).state) && Inv(ApplyAll(s, cs).state)
    decreases |cs|
  {
    hide Inv, Quiet, Apply;
    if cs == [] {
      QuietRefl(s);
    } else {
      var r := Apply(s, cs[0]);
      ApplyKeeps(s, cs[0]);
      if r.flow.Continue? {
        ApplyAllKeeps(r.state, cs[1..]);
        QuietTrans(s, r.state, ApplyAll(r.state, cs[1..]).state);
      }
    }
  }

  /** Whatever the device does inside an upcall keeps the invariant, provided it held once the
      upcall was noted. */
  lemma {:induction false} CallKeeps(s: State, u: Upcall)
    requires u.InDone? ==> !s.ports[u.ep].pending
    requires Inv(Noted(s, u))
    ensures Quiet(Noted(s, u), Call(s, u).state) && Inv(Call(s, u).state)
  {
    hide Inv, Quiet, Noted, ApplyAll;
    var t := Noted(s, u);
    QuietRefl(t);
    if s.script != [] {
      var t1 := t.(script := s.script[1..]);
      ScriptOnly(t, s.script[1..]);
      ApplyAllKeeps(t1, s.script[0]);
      QuietTrans(t, t1, ApplyAll(t1, s.script[0]).state);
    }
  }

  /** An upcall that moves no packet. */
  lemma {:induction false} PlainCallKeeps(s: State, u: Upcall)
    requires Inv(s) && !u.InDone? && !u.OutData?
    ensures Quiet(s, Call(s, u).state) && Inv(Call(s, u).state)
  {
    hide Quiet, Call;
    PlainNoted(s, u);
    CallKeeps(s, u);
    QuietTrans(s, Noted(s, u), Call(s, u).state);
  }

  lemma {:induction false} PlainNoted(s: State, u: Upcall)
    requires Inv(s) && !u.InDone? && !u.OutData?
    ensures Quiet(s, Noted(s, u)) && Inv(Noted(s, u))
  {
    hide PortsOk, LinkInv, ShippedOf, Waiting, TimerOk;
  }

  lemma {:induction false} TimerStepKeeps(s: State)
    requires Inv(s)
    ensures Quiet(s, TimerStep(s).state) && Inv(TimerStep(s).state)
  {
    hide Inv, Quiet, Call;
    QuietRefl(s);
    if s.timer.Some? {
      ReadingKeeps(s);
      if Expired(s.timer.value, Now(s)) {
        var t := Disarmed(s);
        DisarmedKeeps(s);
        PlainCallKeeps(t, TimerFired(s.timer.value.callback));
        QuietTrans(s, t, TimerStep(s).state);
      }
    }
  }

  lemma {:induction false} DeviceLoopKeeps(s: State)
    requires Inv(s)
    ensures Quiet(s, DeviceLoop(s).state) && Inv(DeviceLoop(s).state)
  {
    hide Inv, Quiet, Call, TimerStep;
    TimerStepKeeps(s);
    var s1 := TimerStep(s);
    if s1.flow.Continue? {
      PlainCallKeeps(s1.state, Loop);
      QuietTrans(s, s1.state, DeviceLoop(s).state);
    }
  }
}
