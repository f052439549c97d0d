/** Time: the one-shot timer and the IN timeout, both read off a clock that wraps at 2^32. */
module Timing {
  import opened Bytes
  import opened Wire
  import opened Model
  import opened Adapter
  import opened Ledgers
  import opened Callbacks
  import opened Invariants
  import opened Traces
  import opened Transfers
  import opened Upcalls

  // -------------------------------------------------------- the one-shot timer

  /** The comparison the code makes, in true time: an armed timer fires at a reading exactly when its
      lateness, modulo 2^32, is less than 2^31. A deadline less than 2^16 ahead never looks past, so
      it does not fire early; a poll that comes 2^31 or more ticks late (and less than 2^32) misses
      it. */
  lemma {:induction false} FiresExactly(s: State)
    requires Inv(s) && Monotone(s.clock) && s.timer.Some?
    ensures
      var now := s.clock(s.ticks);
      var due := s.armings[s.timer.value.id].Due();
      Expired(s.timer.value, Now(s)) <==> due <= now && (now - due) % TWO_32 < TWO_31
  {
    hide PortsOk, LinkInv;
    var due := s.armings[s.timer.value.id].Due();
    WrappedLateness(s.clock(s.ticks), due);
    if Expired(s.timer.value, Now(s)) {
      NotEarly(s.clock(s.ticks), due);
    }
  }

  /** Arming, in 32 bits: the deadline is the reading of the clock plus the delay. A later arming replaces
      an earlier one. */
  lemma {:induction false} ArmsForDelay(s: State, callback: nat, ms: uint16)
    ensures
      var run := Apply(s, SetTimeout(callback, ms));
      var t := run.state;
      && run.flow.Continue? && t.armings == s.armings + [Arming(callback, ms, s.clock(s.ticks))]
      && t.timer == Some(Timer(callback, (s.clock(s.ticks) + ms) % 0x1_0000_0000, |s.armings|))
      && t.ports == s.ports && t.link == s.link && t.fired == s.fired
  {
    assert (s.clock(s.ticks) % TWO_32 + ms) % TWO_32 == (s.clock(s.ticks) + ms) % TWO_32;
  }

  /** The first turn of the device loop at or after the deadline fires it, unless it comes too late: the
      device's callback is called, before anything else. */
  lemma {:induction false} FiresOnTime(s: State)
    requires Inv(s) && Monotone(s.clock) && s.timer.Some? && s.timer.value.id < |s.armings|
    requires s.armings[s.timer.value.id].Due() <= s.clock(s.ticks) < s.armings[s.timer.value.id].Due() + TWO_31
    ensures
      var callback := s.armings[s.timer.value.id].callback;
      var t := DeviceLoop(s).state;
      && t.fired == s.fired + [Firing(s.timer.value.id, callback, s.clock(s.ticks))]
      && s.calls + [Made(TimerFired(callback), |s.link.replies|)] <= t.calls
  {
    hide PortsOk, LinkInv, ApplyAll;
    FiresExactly(s);
    var late := s.clock(s.ticks) - s.armings[s.timer.value.id].Due();
    assert late % TWO_32 == late;
    CallFires(Disarmed(s), TimerFired(s.timer.value.callback));
    CallFires(TimerStep(s).state, Loop);
  }

  /** No firing of a run comes before its true deadline, or so late that it could be taken for early. */
  lemma {:induction false} FiresNeverEarly(s: State, i: nat)
    requires Inv(s) && Monotone(s.clock) && i < |s.fired|
    ensures
      var f, a := s.fired[i], s.armings[s.fired[i].id];
      f.callback == a.callback && a.at + a.milliseconds <= f.at && (f.at - a.at - a.milliseconds) % TWO_32 < TWO_31
  {
    hide PortsOk, LinkInv;
    assert FiringOk(s.fired[i], s.armings, s.clock);
  }

  /** Over a whole run the firings belong to distinct armings, made in the order of the firings, and
      the arming that still stands has not fired. */
  lemma {:induction false} FiresAtMostOnce(s: State, i: nat)
    requires Inv(s) && i < |s.fired|
    ensures forall j :: i < j < |s.fired| ==> s.fired[i].id < s.fired[j].id
    ensures s.timer.Some? ==> s.fired[i].id != s.timer.value.id
  {
    hide PortsOk, LinkInv;
  }

  /** The device fires nothing itself, and the last arming it makes inside an upcall is the one that
      stands when the upcall returns. */
  ghost predicate ArmingStands(s: State, t: State) {
    && t.fired == s.fired && t.calls == s.calls && s.armings <= t.armings
    && (|t.armings| > |s.armings| ==> t.timer.Some? && t.timer.value.id == |t.armings| - 1)
    && (|t.armings| == |s.armings| ==> t.timer == s.timer)
  }

  lemma {:induction false} ApplyStands(s: State, c: Callback)
    ensures ArmingStands(s, Apply(s, c).state)
    ensures c.SetTimeout? ==> |Apply(s, c).state.armings| == |s.armings| + 1
  {}

  lemma {:induction false} ApplyAllStands(s: State, cs: seq<Callback>)
    ensures ArmingStands(s, ApplyAll(s, cs).state)
    ensures ApplyAll(s, cs).flow.Continue? && (exists j :: 0 <= j < |cs| && cs[j].SetTimeout?) ==>
              |ApplyAll(s, cs).state.armings| > |s.armings|
    decreases |cs|
  {
    hide Apply;
    if cs != [] {
      ApplyStands(s, cs[0]);
      var r := Apply(s, cs[0]);
      if r.flow.Continue? {
        ApplyAllStands(r.state, cs[1..]);
        if j :| 0 <= j < |cs| && cs[j].SetTimeout? {
          if j > 0 {
            assert cs[1..][j - 1].SetTimeout?;
          }
        }
      }
    }
  }

  lemma {:induction false} CallFires(s: State, u: Upcall)
    requires u.InDone? ==> !s.ports[u.ep].pending
    ensures ArmingStands(Noted(s, u), Call(s, u).state)
  {
    hide ApplyAll;
    if s.script != [] {
      ApplyAllStands(Noted(s, u).(script := s.script[1..]), s.script[0]);
    }
  }

  /** A callback that re-arms the timer does not lose the new arming: when the timer's callback calls
      device_set_timeout, the arming it made last is still armed after the callback. */
  lemma {:induction false} RearmingSurvives(s: State)
    requires s.timer.Some? && Expired(s.timer.value, Now(s)) && s.script != []
    requires exists j :: 0 <= j < |s.script[0]| && s.script[0][j].SetTimeout?
    requires TimerStep(s).flow.Continue?
    ensures
      var t := TimerStep(s).state;
      t.timer.Some? && t.timer.value.id == |t.armings| - 1 >= |s.armings|
  {
    hide ApplyAll;
    var t := Disarmed(s);
    ApplyAllStands(Noted(t, TimerFired(s.timer.value.callback)).(script := s.script[1..]), s.script[0]);
  }

  // -------------------------------------------------------------- the IN timeout

  /** How many turns the IN loop makes. */
  function Turns(s: State, r: Submit, capacity: nat, started: uint32): nat
    requires r.ep < 4 && |s.link.gathered| <= capacity <= TX_BUFFER_BYTES
    decreases |s.script|
  {
    if |s.link.gathered| >= capacity then 0
    else
      var t := GatherTurn(s, r, capacity, started);
      GatherTurnBounded(s, r, capacity, started);
      1 + if t.run.flow.Continue? && t.status.None? then Turns(t.run.state, r, capacity, started) else 0
  }

  /** The state the loop's last turn starts in, or the loop ends in. */
  function LastState(s: State, r: Submit, capacity: nat, started: uint32): State
    requires r.ep < 4 && |s.link.gathered| <= capacity <= TX_BUFFER_BYTES
    decreases |s.script|
  {
    if |s.link.gathered| >= capacity then s
    else
      var t := GatherTurn(s, r, capacity, started);
      GatherTurnBounded(s, r, capacity, started);
      if t.run.flow.Continue? && t.status.None? then LastState(t.run.state, r, capacity, started) else s
  }

  lemma {:induction false} ApplyAllTicks(s: State, cs: seq<Callback>)
    ensures ApplyAll(s, cs).state.ticks >= s.ticks && ApplyAll(s, cs).state.clock == s.clock
    decreases |cs|
  {
    if cs != [] {
      var r := Apply(s, cs[0]);
      if r.flow.Continue? {
        ApplyAllTicks(r.state, cs[1..]);
      }
    }
  }

  lemma {:induction false} CallTicks(s: State, u: Upcall)
    requires u.InDone? ==> !s.ports[u.ep].pending
    ensures Call(s, u).state.ticks >= s.ticks && Call(s, u).state.clock == s.clock
  {
    hide ApplyAll;
    if s.script != [] {
      ApplyAllTicks(Noted(s, u).(script := s.script[1..]), s.script[0]);
    }
  }

  lemma {:induction false} DeviceLoopTicks(s: State)
    ensures DeviceLoop(s).state.ticks >= s.ticks && DeviceLoop(s).state.clock == s.clock
  {
    hide Call;
    if s.timer.Some? {
      CallTicks(Disarmed(s), TimerFired(s.timer.value.callback));
    }
    CallTicks(TimerStep(s).state, Loop);
  }

  lemma {:induction false} TurnTicks(s: State, r: Submit, capacity: nat, started: uint32)
    requires r.ep < 4 && |s.link.gathered| <= capacity
    ensures GatherTurn(s, r, capacity, started).run.state.ticks >= s.ticks
    ensures GatherTurn(s, r, capacity, started).run.state.clock == s.clock
  {
    hide Call, DeviceLoop;
    DeviceLoopTicks(s);
    var d := DeviceLoop(s).state;
    CallTicks(Taken(d, r.ep), InDone(r.ep));
  }

  /** The turn found no packet: it reads the clock once and, unless the transfer ends there, sleeps. */
  predicate Idles(s: State, ep: Ep) {
    !DeviceLoop(s).state.ports[ep].pending
  }

  /** What usleep(1000) does to the clock of this loop: after an idle turn that goes on, the next reading
      is later than the one the turn made. All other readings may share a tick. */
  ghost predicate Sleeps(s: State, r: Submit, capacity: nat, started: uint32)
    requires r.ep < 4 && |s.link.gathered| <= capacity <= TX_BUFFER_BYTES
    decreases |s.script|
  {
    |s.link.gathered| < capacity ==>
      var t := GatherTurn(s, r, capacity, started);
      GatherTurnBounded(s, r, capacity, started);
      t.run.flow.Continue? && t.status.None? ==>
        && (Idles(s, r.ep) ==> s.clock(DeviceLoop(s).state.ticks) < s.clock(t.run.state.ticks))
        && Sleeps(t.run.state, r, capacity, started)
  }

  /** A turn that goes on was either idle, and then the timeout has not passed, or took a full packet. */
  lemma {:induction false} TurnGoesOn(s: State, z: State, r: Submit, capacity: nat, k0: nat)
    requires Serving(s, r) && OpenUntil(s, z, r.ep) && |s.link.gathered| < capacity <= TX_BUFFER_BYTES
    requires Monotone(s.clock) && k0 < s.ticks
    requires
      var t := GatherTurn(s, r, capacity, s.clock(k0) % TWO_32);
      && t.run.flow.Continue? && t.status.None? && |z.script| <= |t.run.state.script|
      && s.clock(t.run.state.ticks) - s.clock(k0) <= TWO_32
      && (Idles(s, r.ep) ==> s.clock(DeviceLoop(s).state.ticks) < s.clock(t.run.state.ticks))
    ensures
      var t := GatherTurn(s, r, capacity, s.clock(k0) % TWO_32).run.state;
      && OpenUntil(t, z, r.ep) && t.clock == s.clock
      && (|| (t.link.gathered == s.link.gathered
              && s.clock(s.ticks) - s.clock(k0) <= REQUEST_TIMEOUT_MS && s.clock(s.ticks) < s.clock(t.ticks))
          || (|t.link.gathered| == |s.link.gathered| + PacketBytes(r.ep) && s.clock(s.ticks) <= s.clock(t.ticks)))
  {
    hide Inv, Flushed, Call, DeviceLoop, Moved, OpenUntil, PacketBytes, Flatten;
    var started: uint32 := s.clock(k0) % TWO_32;
    var took := TurnEffect(s, z, r, capacity, started);
    TurnTicks(s, r, capacity, started);
    DeviceLoopTicks(s);
    FlattenAtMostOne(took);
    var d := DeviceLoop(s).state;
    if took == [] {
      WrappedLateness(s.clock(d.ticks), s.clock(k0));
      assert s.clock(k0) <= s.clock(s.ticks) <= s.clock(d.ticks);
    } else {
      assert took[0] in took;
      CallTicks(Taken(d, r.ep), InDone(r.ep));
    }
  }

  function Div(a: nat, b: nat): nat
    requires b > 0
  {
    a / b
  }

  lemma {:induction false} DivStep(a: nat, b: nat)
    requires 0 < b <= a
    ensures Div(a, b) == Div(a - b, b) + 1
  {
    var p, q := a / b, (a - b) / b;
    assert a == b * p + a % b && a - b == b * q + (a - b) % b;
    assert b * (p - q - 1) == b * p - b * q - b;
    SmallMultiple(b, p - q - 1, (a - b) % b - a % b);
  }

  /** The idle turns left before the time is up. */
  function IdleLeft(elapsed: int): nat {
    if elapsed <= REQUEST_TIMEOUT_MS then REQUEST_TIMEOUT_MS + 1 - elapsed else 0
  }

  /** The IN loop always terminates: while its true duration stays below 2^32 ticks, it makes at most
      one idle turn for each tick of the timeout still left, one turn per full packet that fits, and one
      last turn. Of the clock it is assumed that it does not run backwards and that a sleep moves it. */
  lemma {:induction false} WaitIsBounded(s: State, r: Submit, capacity: nat, k0: nat)
    requires Serving(s, r) && |s.link.gathered| <= capacity <= TX_BUFFER_BYTES
    requires Monotone(s.clock) && k0 < s.ticks
    requires
      var z := LastState(s, r, capacity, s.clock(k0) % TWO_32);
      OpenUntil(s, z, r.ep) && s.clock(z.ticks) - s.clock(k0) <= TWO_32
    requires Sleeps(s, r, capacity, s.clock(k0) % TWO_32)
    ensures
      Turns(s, r, capacity, s.clock(k0) % TWO_32) <=
      IdleLeft(s.clock(s.ticks) - s.clock(k0)) + Div(capacity - |s.link.gathered|, PacketBytes(r.ep)) + 1
    decreases |s.script|
  {
    hide Inv, Flushed, GatherTurn, OpenUntil, Div, PacketBytes, Idles;
    var started: uint32 := s.clock(k0) % TWO_32;
    if |s.link.gathered| < capacity {
      var t := GatherTurn(s, r, capacity, started);
      GatherTurnBounded(s, r, capacity, started);
      if t.run.flow.Continue? && t.status.None? {
        var m := t.run.state;
        TurnTicks(s, r, capacity, started);
        LastTicks(m, r, capacity, started);
        var z := LastState(m, r, capacity, started);
        assert s.clock(m.ticks) <= s.clock(z.ticks);
        TurnGoesOn(s, z, r, capacity, k0);
        GatherTurnKeeps(s, r, capacity, started);
        WaitIsBounded(m, r, capacity, k0);
        if m.link.gathered != s.link.gathered {
          DivStep(capacity - |s.link.gathered|, PacketBytes(r.ep));
        }
      }
    }
  }

  lemma {:induction false} LastTicks(s: State, r: Submit, capacity: nat, started: uint32)
    requires r.ep < 4 && |s.link.gathered| <= capacity <= TX_BUFFER_BYTES
    ensures LastState(s, r, capacity, started).ticks >= s.ticks
    ensures |LastState(s, r, capacity, started).script| <= |s.script|
    decreases |s.script|
  {
    hide GatherTurn;
    if |s.link.gathered| < capacity {
      var t := GatherTurn(s, r, capacity, started);
      GatherTurnBounded(s, r, capacity, started);
      if t.run.flow.Continue? && t.status.None? {
        TurnTicks(s, r, capacity, started);
        LastTicks(t.run.state, r, capacity, started);
      }
    }
  }

  /** As rust_submit starts the loop: at most 10001 idle turns, one turn for each full packet that fits,
      and one last turn. */
  lemma {:induction false} TimeoutBound(s: State, r: Submit)
    requires Serving(s, r) && s.link.gathered == [] && Monotone(s.clock)
    requires
      var z := LastState(Ticked(s), r, Capacity(r), Now(s));
      OpenUntil(s, z, r.ep) && s.clock(z.ticks) - s.clock(s.ticks) <= TWO_32
    requires Sleeps(Ticked(s), r, Capacity(r), Now(s))
    ensures Turns(Ticked(s), r, Capacity(r), Now(s)) <= 10001 + Div(Capacity(r), PacketBytes(r.ep)) + 1
  {
    hide Inv, Flushed, Turns, LastState, OpenUntil, Div, PacketBytes, Sleeps;
    ReadingKeeps(s);
    StillServing(s, Ticked(s), r);
    OpenTicked(s, LastState(Ticked(s), r, Capacity(r), Now(s)), r.ep);
    assert s.clock(s.ticks) <= s.clock(s.ticks + 1);
    WaitIsBounded(Ticked(s), r, Capacity(r), s.ticks);
  }

  // ------------------------------------------------------- why the wait ended

  /** The true time since reading `k0`, as far as a 32-bit clock can tell. */
  function Elapsed(s: State, k0: nat): nat {
    (s.clock(s.ticks) - s.clock(k0)) % TWO_32
  }

  /** What the last look at the endpoint justifies. */
  predicate Justified(status: uint32, d: State, ep: Ep, k0: nat) {
    var p := d.ports[ep];
    && (status == 0x1_0000_0000 - 32 <==> p.haltedIn)
    && (status == 0x1_0000_0000 - 110 <==> !p.haltedIn && !p.pending && Elapsed(d, k0) > 10000)
    && (status in {0, 0x1_0000_0000 - 32, 0x1_0000_0000 - 110})
  }

  lemma {:induction false} TurnVerdict(s: State, r: Submit, capacity: nat, k0: nat)
    requires r.ep < 4 && |s.link.gathered| <= capacity
    requires
      var t := GatherTurn(s, r, capacity, s.clock(k0) % TWO_32);
      t.run.flow.Continue? && t.status.Some?
    ensures Justified(GatherTurn(s, r, capacity, s.clock(k0) % TWO_32).status.value, DeviceLoop(s).state, r.ep, k0)
  {
    hide Call, DeviceLoop;
    DeviceLoopTicks(s);
    var d := DeviceLoop(s).state;
    WrappedLateness(d.clock(d.ticks), s.clock(k0));
  }

  /** The status of an IN reply says why the wait ended: success without another look when the buffer
      is full; otherwise -EPIPE exactly when the last look found the endpoint halted, and -ETIMEDOUT
      exactly when it found no packet more than 10000 ticks after the start. */
  lemma {:induction false} StatusIsJustified(s: State, r: Submit, capacity: nat, k0: nat) returns (reply: Reply)
    requires Serving(s, r) && r.direction == 1 && |s.link.gathered| <= capacity == Capacity(r)
    requires Gather(s, r, capacity, s.clock(k0) % TWO_32).flow.Continue?
    ensures
      var started: uint32 := s.clock(k0) % TWO_32;
      var z := LastState(s, r, capacity, started);
      && reply.RetSubmit? && reply.req == r
      && Gather(s, r, capacity, started).state.link.replies == s.link.replies + [reply]
      && (if |z.link.gathered| >= capacity then reply.status == 0 && |reply.payload| == capacity
          else Justified(reply.status, DeviceLoop(z).state, r.ep, k0))
    decreases |s.script|
  {
    hide Inv, Flushed, FinishIn, GatherTurn, DeviceLoop, Moved, Justified;
    var started: uint32 := s.clock(k0) % TWO_32;
    if |s.link.gathered| >= capacity {
      FinishInEffect(s, r, STATUS_OK);
      reply := RetSubmit(r, STATUS_OK, |s.link.gathered|, s.link.gathered);
    } else {
      GatherTurnBounded(s, r, capacity, started);
      GatherTurnKeeps(s, r, capacity, started);
      var turn := GatherTurn(s, r, capacity, started);
      var m := turn.run.state;
      TurnKeepsReplies(s, r, capacity, started);
      if turn.status.Some? {
        TurnVerdict(s, r, capacity, k0);
        FinishInEffect(m, r, turn.status.value);
        reply := RetSubmit(r, turn.status.value, |m.link.gathered|, m.link.gathered);
      } else {
        TurnTicks(s, r, capacity, started);
        reply := StatusIsJustified(m, r, capacity, k0);
      }
    }
  }

  /** The same for the request as rust_submit serves it: the wait starts with the reading made when the data
      stage starts, and success without a last look at the endpoint means that the payload is all the host
      asked for, or 4096 bytes. */
  lemma {:induction false} RequestStatusIsJustified(s: State, r: Submit) returns (reply: Reply, last: State)
    requires Serving(s, r) && Acceptable(s, r) && s.link.gathered == []
    requires Gathers(s, r) && Transfer(s, r).flow.Continue?
    ensures
      && reply.RetSubmit? && reply.req == r
      && Transfer(s, r).state.link.replies == s.link.replies + [reply] && last.clock == s.clock
      && (Justified(reply.status, last, r.ep, DataStart(s, r).ticks)
          || (reply.status == 0 && |reply.payload| == if r.length <= 4096 then r.length else 4096))
  {
    hide Inv, Flushed, Call, Gather, Justified, LastState, DeviceLoop, Makes, Acceptable;
    AcceptableMeans(s, r);
    DataStartKeeps(s, r);
    var s1 := DataStart(s, r);
    var s2 := Ticked(s1);
    ReadingKeeps(s1);
    StillServing(s1, s2, r);
    DataStartClock(s, r);
    reply := StatusIsJustified(s2, r, Capacity(r), s1.ticks);
    var z := LastState(s2, r, Capacity(r), Now(s1));
    LastClock(s2, r, Capacity(r), Now(s1));
    DeviceLoopTicks(z);
    last := DeviceLoop(z).state;
  }

  lemma {:induction false} DataStartClock(s: State, r: Submit)
    ensures DataStart(s, r).clock == s.clock
  {
    hide Call;
    CallTicks(SetRetired(s, 0, Discarded(NewSetup)), SetupStage(r.setup));
  }

  lemma {:induction false} LastClock(s: State, r: Submit, capacity: nat, started: uint32)
    requires r.ep < 4 && |s.link.gathered| <= capacity <= TX_BUFFER_BYTES
    ensures LastState(s, r, capacity, started).clock == s.clock
    decreases |s.script|
  {
    hide GatherTurn;
    if |s.link.gathered| < capacity {
      var t := GatherTurn(s, r, capacity, started);
      GatherTurnBounded(s, r, capacity, started);
      if t.run.flow.Continue? && t.status.None? {
        TurnTicks(s, r, capacity, started);
        LastClock(t.run.state, r, capacity, started);
      }
    }
  }

  lemma {:induction false} TurnKeepsReplies(s: State, r: Submit, capacity: nat, started: uint32)
    requires Serving(s, r) && |s.link.gathered| <= capacity <= TX_BUFFER_BYTES
    requires GatherTurn(s, r, capacity, started).run.flow.Continue?
    ensures GatherTurn(s, r, capacity, started).run.state.link.replies == s.link.replies
  {
    hide Inv, Flushed, GatherTurn, Moved, OpenUntil, DeviceLoop;
    var took := TurnEffect(s, GatherTurn(s, r, capacity, started).run.state, r, capacity, started);
  }
}
