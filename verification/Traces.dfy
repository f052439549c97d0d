/** The history of a run against the device: which upcalls were made, which callbacks were used, what both
    together did to the endpoints and the timer, and why the run ended. */
module Traces {
  import opened Bytes
  import opened Wire
  import opened Model
  import opened Adapter

  // ------------------------------------------------------ callbacks of a step

  /** A step uses up the script and the polls from the front; the rest of the environment stays. */
  ghost predicate Consumes(s: State, t: State) {
    && t.tables == s.tables && t.clock == s.clock
    && |t.script| <= |s.script| && t.script == s.script[|s.script| - |t.script|..]
    && |t.link.polls| <= |s.link.polls| && t.link.polls == s.link.polls[|s.link.polls| - |t.link.polls|..]
  }

  /** The callbacks of the upcalls made between two states of a run. */
  function Used(s: State, t: State): seq<seq<Callback>> {
    if |t.script| <= |s.script| then s.script[..|s.script| - |t.script|] else []
  }

  /** The device neither closes the IN side of the endpoint nor stops. */
  predicate NoDrop(cs: seq<Callback>, ep: Ep) {
    forall j :: 0 <= j < |cs| ==> cs[j] != Close(ep, true) && !cs[j].Stop?
  }

  predicate NoDrops(used: seq<seq<Callback>>, ep: Ep) {
    forall i :: 0 <= i < |used| ==> NoDrop(used[i], ep)
  }

  /** A halt flag after a callback: stalling sets or clears it, opening clears it. */
  function HaltStep(h: bool, c: Callback, ep: Ep, dirIn: bool): bool {
    match c
    case Stall(e, d, halt) => if e == ep && d == dirIn then halt else h
    case Open(e, d) => if e == ep && d == dirIn then false else h
    case _ => h
  }

  function HaltAfter(h: bool, cs: seq<Callback>, ep: Ep, dirIn: bool): bool
    decreases |cs|
  {
    if cs == [] then h else HaltAfter(HaltStep(h, cs[0], ep, dirIn), cs[1..], ep, dirIn)
  }

  /** A halt flag after the callbacks of several upcalls. */
  function Halt(h: bool, used: seq<seq<Callback>>, ep: Ep, dirIn: bool): bool
    decreases |used|
  {
    if used == [] then h else Halt(HaltAfter(h, used[0], ep, dirIn), used[1..], ep, dirIn)
  }

  lemma {:induction false} HaltAppend(h: bool, a: seq<seq<Callback>>, b: seq<seq<Callback>>, ep: Ep, dirIn: bool)
    ensures Halt(h, a + b, ep, dirIn) == Halt(Halt(h, a, ep, dirIn), b, ep, dirIn)
    decreases |a|
  {
    hide HaltAfter;
    if a == [] {
      assert a + b == b;
    } else {
      assert (a + b)[0] == a[0] && (a + b)[1..] == a[1..] + b;
      HaltAppend(HaltAfter(h, a[0], ep, dirIn), a[1..], b, ep, dirIn);
    }
  }

  /** The packets the callbacks stage on an endpoint. */
  function WritesIn(cs: seq<Callback>, ep: Ep): seq<seq<byte>> {
    if cs == [] then []
    else (if cs[0].Write? && cs[0].ep == ep then [cs[0].bytes] else []) + WritesIn(cs[1..], ep)
  }

  function Writes(used: seq<seq<Callback>>, ep: Ep): seq<seq<byte>> {
    if used == [] then [] else WritesIn(used[0], ep) + Writes(used[1..], ep)
  }

  lemma {:induction false} WritesAppend(a: seq<seq<Callback>>, b: seq<seq<Callback>>, ep: Ep)
    ensures Writes(a + b, ep) == Writes(a, ep) + Writes(b, ep)
    decreases |a|
  {
    hide WritesIn;
    if a == [] {
      assert a + b == b;
    } else {
      assert (a + b)[0] == a[0] && (a + b)[1..] == a[1..] + b;
      WritesAppend(a[1..], b, ep);
    }
  }

  // ------------------------------------------------------------- one endpoint

  /** Packets that left were shipped, but for those that were dropped or acknowledged with leave. */
  predicate Kept(f: seq<Fate>, g: seq<Fate>, drops: bool, acks: bool) {
    && f <= g
    && (!drops ==> forall i :: |f| <= i < |g| ==> !g[i].Discarded?)
    && (!acks ==> forall i :: |f| <= i < |g| ==> !g[i].Acknowledged?)
  }

  /** What became of one endpoint while these callbacks were used. Unless an assertion stopped the process
      halfway, the packets staged are those the callbacks wrote, and the halt flags are what the callbacks
      made of them. Packets are dropped only by callbacks or, with `control`, by a SETUP on endpoint 0,
      whose status stage is acknowledged too. */
  predicate PortFollows(p: Port, q: Port, used: seq<seq<Callback>>, ep: Ep, whole: bool, control: bool) {
    && (whole ==>
          && q.haltedIn == Halt(p.haltedIn, used, ep, true) && q.haltedOut == Halt(p.haltedOut, used, ep, false)
          && q.ledger.wrote == p.ledger.wrote + Writes(used, ep))
    && Kept(p.ledger.fates, q.ledger.fates, !NoDrops(used, ep) || (control && ep == 0), control && ep == 0)
  }

  lemma {:induction false} PortFollowsTrans(p: Port, q: Port, w: Port, a: seq<seq<Callback>>, b: seq<seq<Callback>>, ep: Ep, whole: bool, control: bool)
    requires PortFollows(p, q, a, ep, true, control) && PortFollows(q, w, b, ep, whole, control)
    ensures PortFollows(p, w, a + b, ep, whole, control)
  {
    hide NoDrop, Halt, Writes;
    HaltAppend(p.haltedIn, a, b, ep, true);
    HaltAppend(p.haltedOut, a, b, ep, false);
    WritesAppend(a, b, ep);
    if NoDrops(a + b, ep) {
      forall i | 0 <= i < |a| ensures NoDrop(a[i], ep) {
        assert a[i] == (a + b)[i];
      }
      forall i | 0 <= i < |b| ensures NoDrop(b[i], ep) {
        assert b[i] == (a + b)[|a| + i];
      }
    }
  }

  // ------------------------------------------------------------ calls and timer

  /** The calls of device_set_timeout among the callbacks. */
  function TimeoutsIn(cs: seq<Callback>): seq<Callback> {
    if cs == [] then [] else (if cs[0].SetTimeout? then [cs[0]] else []) + TimeoutsIn(cs[1..])
  }

  function Timeouts(used: seq<seq<Callback>>): seq<Callback> {
    if used == [] then [] else TimeoutsIn(used[0]) + Timeouts(used[1..])
  }

  lemma {:induction false} TimeoutsAppend(a: seq<seq<Callback>>, b: seq<seq<Callback>>)
    ensures Timeouts(a + b) == Timeouts(a) + Timeouts(b)
    decreases |a|
  {
    hide TimeoutsIn;
    if a == [] {
      assert a + b == b;
    } else {
      assert (a + b)[0] == a[0] && (a + b)[1..] == a[1..] + b;
      TimeoutsAppend(a[1..], b);
    }
  }

  /** What the device asked for with each arming. */
  function Requests(armings: seq<Arming>): (cs: seq<Callback>)
    ensures |cs| == |armings|
  {
    seq(|armings|, i requires 0 <= i < |armings| => SetTimeout(armings[i].callback, armings[i].milliseconds))
  }

  /** The timer callbacks among the upcalls. */
  function TimerCalls(calls: seq<Made>): seq<nat> {
    if calls == [] then [] else TimerCall(calls[0]) + TimerCalls(calls[1..])
  }

  function TimerCall(c: Made): seq<nat> {
    if c.upcall.TimerFired? then [c.upcall.callback] else []
  }

  lemma {:induction false} TimerCallsAppend(a: seq<Made>, b: seq<Made>)
    ensures TimerCalls(a + b) == TimerCalls(a) + TimerCalls(b)
    decreases |a|
  {
    hide TimerCall;
    if a == [] {
      assert a + b == b;
    } else {
      assert (a + b)[0] == a[0] && (a + b)[1..] == a[1..] + b;
      TimerCallsAppend(a[1..], b);
    }
  }

  function FiredCallbacks(fired: seq<Firing>): (cs: seq<nat>)
    ensures |cs| == |fired|
  {
    seq(|fired|, i requires 0 <= i < |fired| => fired[i].callback)
  }

  /** The upcalls made between two states of a run. */
  function Since(s: State, t: State): seq<Made> {
    if |s.calls| <= |t.calls| then t.calls[|s.calls|..] else []
  }

  function NewArmings(s: State, t: State): seq<Arming> {
    if |s.armings| <= |t.armings| then t.armings[|s.armings|..] else []
  }

  function NewFirings(s: State, t: State): seq<Firing> {
    if |s.fired| <= |t.fired| then t.fired[|s.fired|..] else []
  }

  /** Every upcall used one entry of the script, but the one that found it empty; the timer was armed as
      the callbacks asked (unless an assertion stopped the process halfway); and the timer callbacks called
      are those of the armings that fired. */
  predicate Logged(s: State, run: Run) {
    var t := run.state;
    && s.calls <= t.calls && s.armings <= t.armings && s.fired <= t.fired
    && (|Since(s, t)| == |Used(s, t)|
        || (run.flow.Exhausted? && t.script == [] && |Since(s, t)| == |Used(s, t)| + 1))
    && (!run.flow.Aborted? ==> Requests(NewArmings(s, t)) == Timeouts(Used(s, t)))
    && TimerCalls(Since(s, t)) == FiredCallbacks(NewFirings(s, t))
  }

  lemma {:induction false} LoggedTrans(s: State, t: State, run: Run)
    requires Consumes(s, t) && Consumes(t, run.state) && Logged(s, Run(t, Continue)) && Logged(t, run)
    ensures Logged(s, run)
  {
    hide Timeouts, TimerCalls;
    var u := run.state;
    UsedTrans(s, t, u);
    TimeoutsAppend(Used(s, t), Used(t, u));
    TimerCallsAppend(Since(s, t), Since(t, u));
    assert Since(s, u) == Since(s, t) + Since(t, u);
    assert NewArmings(s, u) == NewArmings(s, t) + NewArmings(t, u);
    assert NewFirings(s, u) == NewFirings(s, t) + NewFirings(t, u);
    assert Requests(NewArmings(s, u)) == Requests(NewArmings(s, t)) + Requests(NewArmings(t, u));
    assert FiredCallbacks(NewFirings(s, u)) == FiredCallbacks(NewFirings(s, t)) + FiredCallbacks(NewFirings(t, u));
  }

  // -------------------------------------------------------- why a run ended

  /** The largest IN payload the server stages for a request. */
  function StagingLimit(r: Submit): nat {
    if r.length <= 4096 then r.length else 4096
  }

  /** A packet does not fit the request it would answer. */
  predicate Overrun(z: State) {
    || (exists ep: Ep ::
          z.ports[ep].pending && z.ports[ep].endpoint.hostReady && |z.ports[ep].packet| > z.ports[ep].endpoint.intrIn.length)
    || (z.link.current.Some? && z.link.current.value.ep < 4 && z.ports[z.link.current.value.ep].pending
        && |z.link.gathered| + |z.ports[z.link.current.value.ep].packet| > StagingLimit(z.link.current.value))
  }

  /** The requests the server does not serve: no such endpoint, no such direction, more OUT data than it
      stages, or an endpoint that the device has not opened. */
  predicate Refuses(z: State, r: Submit) {
    r.ep >= 4 || r.direction > 1 || (r.direction == 0 && r.length > 4096) || (r.ep != 0 && z.ports[r.ep].endpoint.mps == 0)
  }

  /** The last command word read. */
  predicate LastWord(z: State, w: seq<byte>) {
    var n := |z.link.received|;
    n >= 4 && z.link.received[n - 4..] == w
  }

  predicate LastWordUnknown(z: State) {
    var n := |z.link.received|;
    n >= 4 && UnknownWord(z.link.received[n - 4..])
  }

  predicate UnknownWord(w: seq<byte>)
    requires |w| == 4
  {
    && !(w[2] == 0x80 && w[3] == 0x05) && !(w[2] == 0x80 && w[3] == 0x03)
    && w != [0, 0, 0, 1] && w != [0, 0, 0, 2]
  }

  /** What closes a connection: the input ends, the peer accepts no more, a packet does not fit, a request
      is refused or comes before the device is attached, or the poll fails. */
  predicate ClosedFor(s: State, z: State) {
    || z.link.input == []
    || z.link.budget == 0
    || Overrun(z)
    || (z.link.current.Some? && Refuses(z, z.link.current.value))
    || (!z.attached && LastWord(z, [0, 0, 0, 1]))
    || (|z.link.polls| < |s.link.polls| && s.link.polls[|s.link.polls| - |z.link.polls| - 1].Failed?)
  }

  /** The device stages a packet that is too long, or on a busy endpoint. */
  predicate BreaksContract(z: State, used: seq<seq<Callback>>) {
    used != [] && exists c :: c in used[|used| - 1] && Offends(z, c)
  }

  predicate Offends(z: State, c: Callback) {
    c.Write? && (|c.bytes| > z.ports[c.ep].endpoint.mps || z.ports[c.ep].pending)
  }

  /** What stops the process: a packet against the contract, an unknown command, or a device that does
      not answer SET_ADDRESS with an empty status packet. */
  predicate StoppedFor(s: State, z: State) {
    || BreaksContract(z, Used(s, z))
    || LastWordUnknown(z)
    || (z.calls != [] && z.calls[|z.calls| - 1].upcall == SetupStage([0, 5, 1, 0, 0, 0, 0, 0])
        && !(z.ports[0].pending && z.ports[0].packet == []))
  }

  predicate Explained(s: State, run: Run) {
    match run.flow
    case Continue => true
    case Fatal => ClosedFor(s, run.state)
    case Exhausted => run.state.script == []
    case Aborted => StoppedFor(s, run.state)
  }

  lemma {:induction false} ExplainedTrans(s: State, t: State, run: Run)
    requires Consumes(s, t) && Consumes(t, run.state) && Explained(t, run)
    ensures Explained(s, run)
  {
    hide Overrun, Refuses, LastWord, LastWordUnknown, BreaksContract, Used;
    UsedTrans(s, t, run.state);
    BreaksLater(run.state, Used(s, t), Used(t, run.state));
  }

  lemma {:induction false} BreaksLater(z: State, a: seq<seq<Callback>>, b: seq<seq<Callback>>)
    ensures BreaksContract(z, b) ==> BreaksContract(z, a + b)
  {
    hide Offends;
    assert b != [] ==> (a + b)[|a + b| - 1] == b[|b| - 1];
  }

  // ----------------------------------------------------------- the whole story

  ghost predicate Follows(s: State, run: Run, control: bool) {
    && Consumes(s, run.state) && Logged(s, run) && Explained(s, run)
    && forall ep: Ep :: PortFollows(s.ports[ep], run.state.ports[ep], Used(s, run.state), ep, !run.flow.Aborted?, control)
  }

  lemma {:induction false} UsedTrans(s: State, t: State, u: State)
    requires Consumes(s, t) && Consumes(t, u)
    ensures Consumes(s, u) && Used(s, u) == Used(s, t) + Used(t, u)
  {}

  lemma {:induction false} FollowsTrans(s: State, t: State, run: Run, control: bool)
    requires Follows(s, Run(t, Continue), control) && Follows(t, run, control)
    ensures Follows(s, run, control)
  {
    hide PortFollows, Consumes, Used, Logged, Explained;
    UsedTrans(s, t, run.state);
    LoggedTrans(s, t, run);
    ExplainedTrans(s, t, run);
    forall ep: Ep
      ensures PortFollows(s.ports[ep], run.state.ports[ep], Used(s, run.state), ep, !run.flow.Aborted?, control)
    {
      PortFollowsTrans(s.ports[ep], t.ports[ep], run.state.ports[ep], Used(s, t), Used(t, run.state), ep, !run.flow.Aborted?, control);
    }
  }

  lemma {:induction false} FollowsWeaken(s: State, run: Run)
    requires Follows(s, run, false)
    ensures Follows(s, run, true)
  {
    hide NoDrops, Halt, Writes, Consumes, Used, Logged, Explained;
    forall ep: Ep
      ensures PortFollows(s.ports[ep], run.state.ports[ep], Used(s, run.state), ep, !run.flow.Aborted?, true)
    {
      assert PortFollows(s.ports[ep], run.state.ports[ep], Used(s, run.state), ep, !run.flow.Aborted?, false);
    }
  }

  /** An endpoint the adapter changed by itself: no halt flag changed, nothing was staged or dropped. */
  predicate PortStays(p: Port, q: Port) {
    && q.haltedIn == p.haltedIn && q.haltedOut == p.haltedOut && q.ledger.wrote == p.ledger.wrote
    && Kept(p.ledger.fates, q.ledger.fates, false, false)
  }

  ghost predicate Untouched(s: State, t: State) {
    && t.script == s.script && t.link.polls == s.link.polls && t.tables == s.tables && t.clock == s.clock
    && t.calls == s.calls && t.armings == s.armings && t.fired == s.fired
  }

  lemma {:induction false} UntouchedLogged(s: State, run: Run)
    requires Untouched(s, run.state)
    ensures Consumes(s, run.state) && Logged(s, run) && Used(s, run.state) == []
  {}

  /** A step without an upcall. */
  lemma {:induction false} FollowsHere(s: State, run: Run)
    requires Untouched(s, run.state) && Explained(s, run)
    requires forall ep: Ep :: PortStays(s.ports[ep], run.state.ports[ep])
    ensures Follows(s, run, false) && Follows(s, run, true)
  {
    hide Consumes, Logged, Explained, Used;
    UntouchedLogged(s, run);
    forall ep: Ep ensures PortFollows(s.ports[ep], run.state.ports[ep], [], ep, !run.flow.Aborted?, false) {
      assert PortStays(s.ports[ep], run.state.ports[ep]);
      assert s.ports[ep].ledger.wrote + [] == s.ports[ep].ledger.wrote;
    }
    FollowsWeaken(s, run);
  }

  lemma {:induction false} SamePorts(s: State, run: Run)
    requires Untouched(s, run.state) && run.state.ports == s.ports && Explained(s, run)
    ensures Follows(s, run, false) && Follows(s, run, true)
  {
    hide Follows, Explained;
    FollowsHere(s, run);
  }

  /** A packet leaves a slot for a reply. */
  lemma {:induction false} SetFollows(s: State, ep: Ep, q: Port, t: State)
    requires Untouched(s, t) && t.ports == s.ports[ep := q]
    requires PortStays(s.ports[ep], q)
    ensures Follows(s, Run(t, Continue), false) && Follows(s, Run(t, Continue), true)
  {
    hide Follows;
    forall e: Ep ensures PortStays(s.ports[e], t.ports[e]) {}
    FollowsHere(s, Run(t, Continue));
  }

  // ------------------------------------------------------------------ upcalls

  lemma {:induction false} ApplyPort(s: State, c: Callback, ep: Ep)
    ensures
      var p, q := s.ports[ep], Apply(s, c).state.ports[ep];
      && (Apply(s, c).flow.Continue? ==>
            && q.haltedIn == HaltStep(p.haltedIn, c, ep, true) && q.haltedOut == HaltStep(p.haltedOut, c, ep, false)
            && q.ledger.wrote == p.ledger.wrote + (if c.Write? && c.ep == ep then [c.bytes] else []))
      && Kept(p.ledger.fates, q.ledger.fates, c == Close(ep, true) || c.Stop?, false)
  {
    hide KindOf, PacketBytes, CancelParked;
    match c
    case Close(e, dirIn) => assert c == Close(ep, true) <==> e == ep && dirIn;
    case _ =>
  }

  lemma {:induction false} KeptTrans(f: seq<Fate>, g: seq<Fate>, h: seq<Fate>, a: bool, b: bool)
    requires Kept(f, g, a, false) && Kept(g, h, b, false)
    ensures Kept(f, h, a || b, false)
  {}

  lemma {:induction false} ApplyAllPort(s: State, cs: seq<Callback>, ep: Ep)
    ensures
      var p, q := s.ports[ep], ApplyAll(s, cs).state.ports[ep];
      && (ApplyAll(s, cs).flow.Continue? ==>
            && q.haltedIn == HaltAfter(p.haltedIn, cs, ep, true) && q.haltedOut == HaltAfter(p.haltedOut, cs, ep, false)
            && q.ledger.wrote == p.ledger.wrote + WritesIn(cs, ep))
      && Kept(p.ledger.fates, q.ledger.fates, !NoDrop(cs, ep), false)
    decreases |cs|
  {
    hide Apply, HaltStep, Kept;
    if cs == [] {
      NothingKept(s.ports[ep].ledger.fates);
      assert s.ports[ep].ledger.wrote + [] == s.ports[ep].ledger.wrote;
    } else {
      ApplyPort(s, cs[0], ep);
      var r := Apply(s, cs[0]);
      var drops := cs[0] == Close(ep, true) || cs[0].Stop?;
      if r.flow.Continue? {
        ApplyAllPort(r.state, cs[1..], ep);
        KeptTrans(s.ports[ep].ledger.fates, r.state.ports[ep].ledger.fates, ApplyAll(s, cs).state.ports[ep].ledger.fates,
                  drops, !NoDrop(cs[1..], ep));
      }
      NoDropStep(cs, ep);
      KeptMore(s.ports[ep].ledger.fates, ApplyAll(s, cs).state.ports[ep].ledger.fates);
    }
  }

  lemma {:induction false} NothingKept(f: seq<Fate>)
    ensures Kept(f, f, false, false)
  {}

  lemma {:induction false} KeptMore(f: seq<Fate>, g: seq<Fate>)
    ensures Kept(f, g, false, false) ==> Kept(f, g, true, false)
  {}

  lemma {:induction false} NoDropStep(cs: seq<Callback>, ep: Ep)
    requires cs != []
    ensures NoDrop(cs, ep) ==> cs[0] != Close(ep, true) && !cs[0].Stop? && NoDrop(cs[1..], ep)
  {}

  lemma {:induction false} OneEntry(h: bool, cs: seq<Callback>, ep: Ep, dirIn: bool)
    ensures Halt(h, [cs], ep, dirIn) == HaltAfter(h, cs, ep, dirIn)
    ensures Writes([cs], ep) == WritesIn(cs, ep) && Timeouts([cs]) == TimeoutsIn(cs)
  {
    hide HaltAfter, WritesIn, TimeoutsIn;
    assert [cs][1..] == [];
    assert WritesIn(cs, ep) + [] == WritesIn(cs, ep) && TimeoutsIn(cs) + [] == TimeoutsIn(cs);
  }

  /** A callback either succeeds or stops the process, by a packet against the contract. */
  lemma {:induction false} ApplyAllFlow(s: State, cs: seq<Callback>)
    ensures
      var r := ApplyAll(s, cs);
      || r.flow.Continue?
      || (r.flow.Aborted? && exists c :: c in cs && Offends(r.state, c))
    decreases |cs|
  {
    if cs != [] {
      var r := Apply(s, cs[0]);
      if r.flow.Continue? {
        ApplyAllFlow(r.state, cs[1..]);
      } else {
        assert cs[0] in cs && Offends(r.state, cs[0]);
      }
    }
  }

  /** The callbacks of one upcall arm the timer as they say, and make no upcall themselves. */
  lemma {:induction false} ApplyAllLogged(s: State, cs: seq<Callback>)
    ensures
      var t := ApplyAll(s, cs).state;
      && t.calls == s.calls && t.fired == s.fired && s.armings <= t.armings
      && t.link.polls == s.link.polls && t.tables == s.tables && t.clock == s.clock
      && (ApplyAll(s, cs).flow.Continue? ==> Requests(t.armings) == Requests(s.armings) + TimeoutsIn(cs))
    decreases |cs|
  {
    hide Apply, Requests;
    if cs == [] {
      assert Requests(s.armings) + [] == Requests(s.armings);
    } else {
      var r := Apply(s, cs[0]);
      ApplyLogged(s, cs[0]);
      if r.flow.Continue? {
        ApplyAllLogged(r.state, cs[1..]);
        var first := if cs[0].SetTimeout? then [cs[0]] else [];
        assert Requests(s.armings) + first + TimeoutsIn(cs[1..]) == Requests(s.armings) + (first + TimeoutsIn(cs[1..]));
      }
    }
  }

  lemma {:induction false} ApplyLogged(s: State, c: Callback)
    ensures
      var t := Apply(s, c).state;
      && t.calls == s.calls && t.fired == s.fired && s.armings <= t.armings
      && t.link.polls == s.link.polls && t.tables == s.tables && t.clock == s.clock
      && (Apply(s, c).flow.Continue? ==> Requests(t.armings) == Requests(s.armings) + if c.SetTimeout? then [c] else [])
  {
    assert Requests(s.armings) + [] == Requests(s.armings);
  }

  lemma {:induction false} NotedHistory(s: State, u: Upcall)
    ensures
      var t := Noted(s, u);
      t == s.(ports := t.ports, calls := s.calls + [Made(u, |s.link.replies|)])
  {}

  /** One upcall, whichever: its entry of the script, and what the entry did. */
  lemma {:induction false} CallStep(s: State, u: Upcall)
    requires u.InDone? ==> !s.ports[u.ep].pending
    ensures
      var run := Call(s, u);
      var t := run.state;
      && Consumes(s, t) && Explained(s, run) && Used(s, t) == (if s.script == [] then [] else [s.script[0]])
      && (s.script == [] ==> run.flow.Exhausted?)
      && t.calls == s.calls + [Made(u, |s.link.replies|)] && t.fired == s.fired && s.armings <= t.armings
      && (!run.flow.Aborted? ==> Requests(NewArmings(s, t)) == Timeouts(Used(s, t)))
  {
    hide ApplyAll, Overrun, Refuses, LastWord, LastWordUnknown, ClosedFor, Offends, Timeouts, TimeoutsIn, Requests, Noted;
    NotedHistory(s, u);
    if s.script == [] {
      assert NewArmings(s, Call(s, u).state) == [];
      NoTimeouts();
    } else {
      var cs := s.script[0];
      var t := Noted(s, u).(script := s.script[1..]);
      ApplyAllScript(t, cs);
      ApplyAllFlow(t, cs);
      ApplyAllLogged(t, cs);
      OneEntry(false, cs, 0, false);
      RequestsSplit(s.armings, Call(s, u).state.armings);
      assert [cs][|[cs]| - 1] == cs;
    }
  }

  lemma {:induction false} NoTimeouts()
    ensures Timeouts([]) == [] && Requests([]) == []
  {}

  lemma {:induction false} RequestsSplit(a: seq<Arming>, b: seq<Arming>)
    requires a <= b
    ensures Requests(b) == Requests(a) + Requests(b[|a|..])
    ensures forall x :: Requests(b) == Requests(a) + x ==> Requests(b[|a|..]) == x
  {
    assert Requests(b) == Requests(a) + Requests(b[|a|..]);
    forall x | Requests(b) == Requests(a) + x ensures Requests(b[|a|..]) == x {
      assert x == Requests(b)[|a|..];
    }
  }

  lemma {:induction false} CallPort(s: State, u: Upcall, ep: Ep)
    requires u.InDone? ==> !s.ports[u.ep].pending
    ensures PortFollows(s.ports[ep], Call(s, u).state.ports[ep], if s.script == [] then [] else [s.script[0]], ep, !Call(s, u).flow.Aborted?, false)
  {
    hide ApplyAll, HaltAfter, WritesIn, NoDrop;
    if s.script == [] {
      assert s.ports[ep].ledger.wrote + [] == s.ports[ep].ledger.wrote;
    } else {
      var t := Noted(s, u).(script := s.script[1..]);
      ApplyAllPort(t, s.script[0], ep);
      OneEntry(s.ports[ep].haltedIn, s.script[0], ep, true);
      OneEntry(s.ports[ep].haltedOut, s.script[0], ep, false);
      assert NoDrops([s.script[0]], ep) ==> NoDrop([s.script[0]][0], ep);
      ApplyAllFlow(t, s.script[0]);
    }
  }

  lemma {:induction false} CallFollows(s: State, u: Upcall)
    requires u.InDone? ==> !s.ports[u.ep].pending
    requires !u.TimerFired?
    ensures Follows(s, Call(s, u), false) && Follows(s, Call(s, u), true)
  {
    hide Call, Timeouts, Requests, PortFollows, Explained;
    CallStep(s, u);
    var t := Call(s, u).state;
    assert Since(s, t) == [Made(u, |s.link.replies|)] && NewFirings(s, t) == [];
    assert [Made(u, |s.link.replies|)][1..] == [];
    assert Consumes(s, t) && Explained(s, Call(s, u));
    assert TimerCalls(Since(s, t)) == FiredCallbacks([]);
    assert Logged(s, Call(s, u));
    forall ep: Ep
      ensures PortFollows(s.ports[ep], t.ports[ep], Used(s, t), ep, !Call(s, u).flow.Aborted?, false)
    {
      CallPort(s, u, ep);
    }
    FollowsWeaken(s, Call(s, u));
  }

  /** The timer fires: its callback is the upcall. */
  lemma {:induction false} TimerFollows(s: State)
    requires s.timer.Some?
    ensures Follows(s, Call(Disarmed(s), TimerFired(s.timer.value.callback)), false)
  {
    hide Call, Timeouts, Requests, PortFollows, Explained;
    var d := Disarmed(s);
    var u := TimerFired(s.timer.value.callback);
    CallStep(d, u);
    var run := Call(d, u);
    var t := run.state;
    assert Since(s, t) == [Made(u, |s.link.replies|)];
    assert [Made(u, |s.link.replies|)][1..] == [];
    assert NewFirings(s, t) == [Firing(s.timer.value.id, s.timer.value.callback, s.clock(s.ticks))];
    assert NewArmings(s, t) == NewArmings(d, t) && Used(s, t) == Used(d, t);
    UntouchedPolls(s, d, run);
    OneFiring(NewFirings(s, t), Since(s, t));
    assert Consumes(s, t);
    assert Logged(s, run);
    forall ep: Ep
      ensures PortFollows(s.ports[ep], t.ports[ep], Used(s, t), ep, !run.flow.Aborted?, false)
    {
      CallPort(d, u, ep);
    }
  }

  lemma {:induction false} OneFiring(fs: seq<Firing>, calls: seq<Made>)
    requires |fs| == |calls| == 1 && calls[0].upcall == TimerFired(fs[0].callback)
    ensures TimerCalls(calls) == FiredCallbacks(fs)
  {
    assert calls[1..] == [] && TimerCalls(calls) == [fs[0].callback] + [];
  }

  lemma {:induction false} UntouchedPolls(s: State, d: State, run: Run)
    requires d.script == s.script && d.link.polls == s.link.polls && Explained(d, run) && Used(s, run.state) == Used(d, run.state)
    ensures Explained(s, run)
  {
    hide Overrun, Refuses, LastWord, LastWordUnknown, BreaksContract, Used;
  }

  lemma {:induction false} DeviceLoopFollows(s: State)
    ensures Follows(s, DeviceLoop(s), false) && Follows(s, DeviceLoop(s), true)
  {
    hide Follows, Call;
    SamePorts(s, Run(s, Continue));
    SamePorts(s, Run(Ticked(s), Continue));
    if s.timer.Some? {
      TimerFollows(s);
    }
    var s1 := TimerStep(s);
    if s1.flow.Continue? {
      CallFollows(s1.state, Loop);
      FollowsTrans(s, s1.state, DeviceLoop(s), false);
    }
    FollowsWeaken(s, DeviceLoop(s));
  }

  lemma {:induction false} SendFollows(s: State, r: Reply)
    ensures Follows(s, Send(s, r), false) && Follows(s, Send(s, r), true)
  {
    hide Follows, EncodeReply;
    SamePorts(s, Send(s, r));
  }

  lemma {:induction false} AnswerFollows(s: State, r: Submit, status: uint32, actual: uint32, payload: seq<byte>)
    ensures Follows(s, Answer(s, r, status, actual, payload), false)
    ensures Follows(s, Answer(s, r, status, actual, payload), true)
  {
    hide Follows, EncodeReply;
    SamePorts(s, Answer(s, r, status, actual, payload));
  }

  lemma {:induction false} ReadFollows(s: State, n: nat)
    ensures Follows(s, Read(s, n), false) && Follows(s, Read(s, n), true)
  {
    hide Follows;
    SamePorts(s, Read(s, n));
  }

  /** A packet leaves its slot, and the device is told. */
  lemma {:induction false} CompletionFollows(s: State, t: State, ep: Ep, control: bool)
    requires Untouched(s, t) && !t.ports[ep].pending
    requires t.ports == s.ports[ep := t.ports[ep]] && PortStays(s.ports[ep], t.ports[ep])
    ensures Follows(s, Call(t, InDone(ep)), control)
  {
    hide Follows, Call, PortStays;
    SetFollows(s, ep, t.ports[ep], t);
    CallFollows(t, InDone(ep));
    FollowsTrans(s, t, Call(t, InDone(ep)), control);
  }

  /** Control transfers may throw away or acknowledge what is staged on endpoint 0. */
  lemma {:induction false} ControlFollows(s: State, fate: Fate)
    requires fate.Discarded? || fate.Acknowledged?
    ensures Follows(s, Run(SetRetired(s, 0, fate), Continue), true)
  {
    hide HaltAfter, WritesIn, Logged, Consumes, Explained, Used;
    var t := SetRetired(s, 0, fate);
    UntouchedLogged(s, Run(t, Continue));
    assert Explained(s, Run(t, Continue)) by { NothingToExplain(s, t); }
    forall ep: Ep ensures PortFollows(s.ports[ep], t.ports[ep], [], ep, true, true) {
      assert s.ports[ep].ledger.wrote + [] == s.ports[ep].ledger.wrote;
    }
  }

  lemma {:induction false} NothingToExplain(s: State, t: State)
    ensures Explained(s, Run(t, Continue))
  {}

  lemma {:induction false} AcknowledgeFollows(s: State)
    ensures Follows(s, Call(SetRetired(s, 0, Acknowledged), InDone(0)), true)
  {
    hide Call, Follows;
    var t := SetRetired(s, 0, Acknowledged);
    ControlFollows(s, Acknowledged);
    CallFollows(t, InDone(0));
    FollowsTrans(s, t, Call(t, InDone(0)), true);
  }

  lemma {:induction false} CompleteOneFollows(s: State, ep: Ep)
    ensures Follows(s, CompleteOne(s, ep), true)
  {
    hide Follows, Call, Send;
    var p := s.ports[ep];
    SamePorts(s, CompleteOneIdle(s, ep));
    if p.endpoint.hostReady && p.pending && |p.packet| <= p.endpoint.intrIn.length {
      var reply := RetSubmit(p.endpoint.intrIn, STATUS_OK, |p.packet|, p.packet);
      SendFollows(s, reply);
      var s1 := Send(s, reply);
      if s1.flow.Continue? {
        SendFrame(s, reply);
        CompletionFollows(s1.state, SetPort(s1.state, ep, Retired(Unparked(p), Shipped)), ep, true);
        FollowsTrans(s, s1.state, CompleteOne(s, ep), true);
      }
    }
  }

  /** The pass over an endpoint that has nothing to answer, or too much. */
  function CompleteOneIdle(s: State, ep: Ep): Run {
    var p := s.ports[ep];
    if p.endpoint.hostReady && p.pending && |p.packet| > p.endpoint.intrIn.length then Run(s, Fatal) else Run(s, Continue)
  }

  lemma {:induction false} CompleteFromFollows(s: State, ep: nat)
    requires ep <= 4
    ensures Follows(s, CompleteFrom(s, ep), true)
    decreases 4 - ep
  {
    hide Follows, CompleteOne;
    if ep == 4 {
      SamePorts(s, Run(s, Continue));
    } else {
      CompleteOneFollows(s, ep);
      var r := CompleteOne(s, ep);
      if r.flow.Continue? {
        CompleteFromFollows(r.state, ep + 1);
        FollowsTrans(s, r.state, CompleteFrom(s, ep), true);
      }
    }
  }

  lemma {:induction false} CompleteFollows(s: State)
    ensures Follows(s, CompleteInterrupts(s), true)
  {
    hide Follows, CompleteFrom;
    SamePorts(s, Run(s, Continue));
    CompleteFromFollows(s, 1);
  }

  // ------------------------------------------------------------------- submit

  lemma {:induction false} FinishOutFollows(s: State, r: Submit, halted: bool)
    requires r.ep < 4
    ensures Follows(s, FinishOut(s, r, halted), true)
  {
    hide Follows, Call, Answer;
    SamePorts(s, Run(s, Continue));
    AcknowledgeFollows(s);
    var s1 := if r.ep == 0 && s.ports[0].pending
              then Call(SetRetired(s, 0, Acknowledged), InDone(0)) else Run(s, Continue);
    if s1.flow.Continue? {
      AnswerFollows(s1.state, r, NEG_EPIPE, 0, []);
      AnswerFollows(s1.state, r, STATUS_OK, r.length, []);
      FollowsTrans(s, s1.state, FinishOut(s, r, halted), true);
    }
  }

  lemma {:induction false} OutTurnFollows(s: State, r: Submit, halted: bool, count: nat)
    requires r.ep < 4
    ensures Follows(s, OutTurn(s, r, halted, count), true)
  {
    hide Follows, Call, DeviceLoop;
    ReadFollows(s, count);
    var s1 := Read(s, count);
    if s1.flow.Continue? {
      SamePorts(s1.state, s1);
      var u := OutData(r.ep, s.link.input[..count]);
      CallFollows(s1.state, u);
      var s2 := if halted then s1 else Call(s1.state, u);
      FollowsTrans(s, s1.state, s2, true);
      if s2.flow.Continue? {
        DeviceLoopFollows(s2.state);
        FollowsTrans(s, s2.state, OutTurn(s, r, halted, count), true);
      }
    }
  }

  lemma {:induction false} OutLoopFollows(s: State, r: Submit, halted: bool, data: seq<byte>)
    requires r.ep < 4
    ensures Follows(s, OutLoop(s, r, halted, data), true)
    decreases |s.script|
  {
    hide Follows, OutTurn, FinishOut;
    if |data| >= r.length {
      FinishOutFollows(s, r, halted);
    } else {
      var count := OutCount(s, r, |data|);
      OutTurnFollows(s, r, halted, count);
      var s1 := OutTurn(s, r, halted, count);
      if s1.flow.Continue? {
        OutLoopFollows(s1.state, r, halted, data + s.link.input[..count]);
        FollowsTrans(s, s1.state, OutLoop(s, r, halted, data), true);
      }
    }
  }

  lemma {:induction false} FinishInFollows(s: State, r: Submit, status: uint32)
    requires |s.link.gathered| <= TX_BUFFER_BYTES
    ensures Follows(s, FinishIn(s, r, status), false)
  {
    hide Follows, Call, Answer;
    SamePorts(s, Run(s, Continue));
    CallFollows(s, OutData(0, []));
    var s1 := if r.ep == 0 then Call(s, OutData(0, [])) else Run(s, Continue);
    if s1.flow.Continue? {
      AnswerFollows(s1.state, r, status, |s.link.gathered|, s.link.gathered);
      FollowsTrans(s, s1.state, FinishIn(s, r, status), false);
    }
  }

  lemma {:induction false} GatherTurnFollows(s: State, r: Submit, capacity: nat, started: uint32)
    requires r.ep < 4 && |s.link.gathered| <= capacity == Capacity(r) && s.link.current == Some(r)
    ensures Follows(s, GatherTurn(s, r, capacity, started).run, false)
    ensures GatherTurn(s, r, capacity, started).run.state.link.current == Some(r)
  {
    hide Follows, Call, DeviceLoop;
    DeviceLoopFollows(s);
    DeviceLoopLink(s);
    var d := DeviceLoop(s);
    if d.flow.Continue? {
      SamePorts(d.state, d);
      CallLink(Taken(d.state, r.ep), InDone(r.ep));
      if d.state.ports[r.ep].pending && |d.state.ports[r.ep].packet| > capacity - |s.link.gathered| {
        SamePorts(d.state, Run(d.state, Fatal));
      }
      SamePorts(d.state, Run(Ticked(d.state), Continue));
      CompletionFollows(d.state, Taken(d.state, r.ep), r.ep, false);
      FollowsTrans(s, d.state, GatherTurn(s, r, capacity, started).run, false);
    }
  }

  lemma {:induction false} GatherFollows(s: State, r: Submit, capacity: nat, started: uint32)
    requires r.ep < 4 && |s.link.gathered| <= capacity == Capacity(r) && s.link.current == Some(r)
    ensures Follows(s, Gather(s, r, capacity, started), false)
    decreases |s.script|
  {
    hide Follows, FinishIn, GatherTurn;
    if |s.link.gathered| >= capacity {
      FinishInFollows(s, r, STATUS_OK);
    } else {
      GatherTurnBounded(s, r, capacity, started);
      GatherTurnFollows(s, r, capacity, started);
      var t := GatherTurn(s, r, capacity, started);
      if t.run.flow.Continue? {
        if t.status.Some? {
          FinishInFollows(t.run.state, r, t.status.value);
        } else {
          GatherFollows(t.run.state, r, capacity, started);
        }
        FollowsTrans(s, t.run.state, Gather(s, r, capacity, started), false);
      }
    }
  }

  lemma {:induction false} SetupFollows(s: State, setup: seq<byte>)
    ensures Follows(s, Call(SetRetired(s, 0, Discarded(NewSetup)), SetupStage(setup)), true)
  {
    hide Call, Follows;
    var t := SetRetired(s, 0, Discarded(NewSetup));
    ControlFollows(s, Discarded(NewSetup));
    CallFollows(t, SetupStage(setup));
    FollowsTrans(s, t, Call(t, SetupStage(setup)), true);
  }

  lemma {:induction false} TransferFollows(s: State, r: Submit)
    requires Acceptable(s, r) && s.link.gathered == [] && s.link.current == Some(r)
    ensures Follows(s, Transfer(s, r), true)
  {
    hide Follows, Call, Answer, OutLoop, Gather, PortStays;
    AnswerFollows(s, r, NEG_EBUSY, 0, []);
    ParkFollows(s, r);
    SamePorts(s, Run(s, Continue));
    SetupFollows(s, r.setup);
    CallLink(SetRetired(s, 0, Discarded(NewSetup)), SetupStage(r.setup));
    var s1 := if r.ep == 0 then Call(SetRetired(s, 0, Discarded(NewSetup)), SetupStage(r.setup)) else Run(s, Continue);
    if s1.flow.Continue? {
      var t := Ticked(s1.state);
      SamePorts(s1.state, Run(t, Continue));
      OutLoopFollows(s1.state, r, r.ep != 0 && s1.state.ports[r.ep].haltedOut, []);
      GatherFollows(t, r, Capacity(r), Now(s1.state));
      FollowsWeaken(t, Gather(t, r, Capacity(r), Now(s1.state)));
      FollowsTrans(s1.state, t, Gather(t, r, Capacity(r), Now(s1.state)), true);
      FollowsTrans(s, s1.state, OutLoop(s1.state, r, r.ep != 0 && s1.state.ports[r.ep].haltedOut, []), true);
      FollowsTrans(s, s1.state, Gather(t, r, Capacity(r), Now(s1.state)), true);
    }
  }

  lemma {:induction false} ParkFollows(s: State, r: Submit)
    requires r.ep < 4
    ensures Follows(s, Run(ParkedState(s, r), Continue), true)
  {
    hide Follows;
    SetFollows(s, r.ep, Parked(s.ports[r.ep], r), ParkedState(s, r));
  }

  // ---------------------------------------------------------- connection loop

  lemma {:induction false} SubmitFollows(s: State)
    requires LastWord(s, [0, 0, 0, 1])
    ensures Follows(s, ServeSubmit(s), true)
  {
    hide Follows, Transfer, DecodeSubmit, Read;
    if !s.attached {
      SamePorts(s, Run(s, Fatal));
    }
    ReadFollows(s, BODY_BYTES);
    var s1 := Read(s, BODY_BYTES);
    if s.attached && s1.flow.Continue? {
      ReadEnough(s, BODY_BYTES);
      var r := DecodeSubmit(s.link.input[..BODY_BYTES]);
      var s2 := Begun(s1.state, r);
      SamePorts(s1.state, Run(s2, Continue));
      FollowsTrans(s, s1.state, Run(s2, Continue), true);
      if !Acceptable(s2, r) {
        SamePorts(s1.state, Run(s2, Fatal));
        FollowsTrans(s, s1.state, Run(s2, Fatal), true);
      } else {
        TransferFollows(s2, r);
        FollowsTrans(s, s2, Transfer(s2, r), true);
      }
    }
  }

  lemma {:induction false} ReadEnough(s: State, n: nat)
    requires Read(s, n).flow.Continue?
    ensures n <= |s.link.input|
  {}

  lemma {:induction false} UnlinkFollows(s: State)
    ensures Follows(s, ServeUnlink(s), true)
  {
    hide Follows, Read, Send, DecodeUnlink, UnlinkStatus, UnlinkCancels;
    ReadFollows(s, BODY_BYTES);
    var s1 := Read(s, BODY_BYTES);
    if s1.flow.Continue? {
      ReadEnough(s, BODY_BYTES);
      var u := DecodeUnlink(s.link.input[..BODY_BYTES]);
      var reply := RetUnlink(u.seqNum, UnlinkStatus(s1.state.ports, u.target));
      SendFollows(s1.state, reply);
      var s2 := Send(s1.state, reply);
      FollowsTrans(s, s1.state, s2, true);
      var t := UnlinkedState(s2.state, u.target);
      forall ep: Ep ensures PortStays(s2.state.ports[ep], t.ports[ep]) {
        assert t.ports[ep] == UnlinkPort(s2.state.ports[ep], u.target);
      }
      FollowsHere(s2.state, Run(t, Continue));
      if s2.flow.Continue? {
        FollowsTrans(s, s2.state, Run(t, Continue), true);
      }
    }
  }

  lemma {:induction false} DevListFollows(s: State)
    ensures Follows(s, ServeDevList(s), true)
  {
    hide Follows, Read, Send;
    ReadFollows(s, 4);
    var s1 := Read(s, 4);
    if s1.flow.Continue? {
      SendFollows(s1.state, RetDevList(s1.state.tables.devlist));
      FollowsTrans(s, s1.state, ServeDevList(s), true);
    }
  }

  lemma {:induction false} AttachFollows(s: State)
    ensures Follows(s, Attach(s), true)
  {
    hide Follows, Call;
    CallFollows(s, BootReset);
    var s1 := Call(s, BootReset);
    if s1.flow.Continue? {
      var s2 := Call(s1.state, SetupStage(ADDRESS_SETUP));
      CallFollows(s1.state, SetupStage(ADDRESS_SETUP));
      FollowsTrans(s, s1.state, s2, true);
      if s2.flow.Continue? {
        var t := SetRetired(s2.state, 0, Acknowledged);
        if !s2.state.ports[0].pending || s2.state.ports[0].packet != [] {
          CallStep(s1.state, SetupStage(ADDRESS_SETUP));
          SamePorts(s2.state, Run(s2.state, Aborted));
          FollowsTrans(s, s2.state, Run(s2.state, Aborted), true);
        }
        AcknowledgeFollows(s2.state);
        var s3 := Call(t, InDone(0));
        FollowsTrans(s, s2.state, s3, true);
        SamePorts(s3.state, Run(s3.state.(attached := true), Continue));
        if s3.flow.Continue? {
          FollowsTrans(s, s3.state, Run(s3.state.(attached := true), Continue), true);
        }
      }
    }
  }

  lemma {:induction false} ImportFollows(s: State)
    ensures Follows(s, ServeImport(s), true)
  {
    hide Follows, Read, Send, Attach;
    ReadFollows(s, 4);
    var s1 := Read(s, 4);
    if s1.flow.Continue? {
      ReadFollows(s1.state, 32);
      var s2 := Read(s1.state, 32);
      FollowsTrans(s, s1.state, s2, true);
      if s2.flow.Continue? {
        ReadEnough(s1.state, 32);
        var reply := RetImport(Zeros(4) + s2.state.tables.path + s1.state.link.input[..32] + s2.state.tables.device);
        SendFollows(s2.state, reply);
        var s3 := Send(s2.state, reply);
        FollowsTrans(s, s2.state, s3, true);
        if s3.flow.Continue? {
          AttachFollows(s3.state);
          FollowsTrans(s, s3.state, Attach(s3.state), true);
        }
      }
    }
  }

  lemma {:induction false} DispatchFollows(s: State)
    ensures Follows(s, Dispatch(s), true)
  {
    hide Follows, Read, ServeDevList, ServeImport, ServeSubmit, ServeUnlink;
    var s0 := s.(link := s.link.(heads := s.link.heads + [|s.link.received|]));
    SamePorts(s, Run(s0, Continue));
    ReadFollows(s0, 4);
    var s1 := Read(s0, 4);
    FollowsTrans(s, s0, s1, true);
    if s1.flow.Continue? {
      ReadEnough(s0, 4);
      WordRead(s0);
      DevListFollows(s1.state);
      ImportFollows(s1.state);
      if s0.link.input[..4] == [0, 0, 0, 1] {
        SubmitFollows(s1.state);
      }
      UnlinkFollows(s1.state);
      if UnknownWord(s0.link.input[..4]) {
        SamePorts(s1.state, Run(s1.state, Aborted));
      }
      FollowsTrans(s, s1.state, Dispatch(s), true);
    }
  }

  lemma {:induction false} WordRead(s: State)
    requires 4 <= |s.link.input|
    ensures LastWord(Read(s, 4).state, s.link.input[..4])
  {}

  /** A connection may also be observed until it has no poll left to report. */
  ghost predicate FollowsServe(s: State, run: Run) {
    || Follows(s, run, true)
    || (run.flow.Exhausted? && run.state.link.polls == [] && Follows(s, Run(run.state, Continue), true))
  }

  lemma {:induction false} ServeTrans(s: State, t: State, run: Run)
    requires Follows(s, Run(t, Continue), true) && FollowsServe(t, run)
    ensures FollowsServe(s, run)
  {
    hide Follows;
    if Follows(t, run, true) {
      FollowsTrans(s, t, run, true);
    } else {
      FollowsTrans(s, t, Run(run.state, Continue), true);
    }
  }

  /** A connection: its callbacks alone set halt flags and drop packets, but for what a SETUP finds
      staged on endpoint 0. */
  lemma {:induction false} ServeFollows(s: State)
    ensures FollowsServe(s, Serve(s))
    decreases |s.script|
  {
    hide Follows, DeviceLoop, CompleteInterrupts, Dispatch;
    DeviceLoopFollows(s);
    var s1 := DeviceLoop(s);
    if s1.flow.Continue? {
      CompleteFollows(s1.state);
      var s2 := CompleteInterrupts(s1.state);
      FollowsTrans(s, s1.state, s2, true);
      if s2.flow.Continue? {
        PolledFollows(s, s2.state);
        if s2.state.link.polls != [] {
          var s3 := Polled(s2.state);
          if s2.state.link.polls[0].Nothing? {
            ServeFollows(s3);
            ServeTrans(s, s3, Serve(s3));
          } else if s2.state.link.polls[0].Ready? {
            DispatchFollows(s3);
            var s4 := Dispatch(s3);
            FollowsTrans(s, s3, s4, true);
            if s4.flow.Continue? {
              ServeFollows(s4.state);
              ServeTrans(s, s4.state, Serve(s4.state));
            }
          }
        }
      }
    }
  }

  /** The poll at the head of the loop. */
  lemma {:induction false} PolledFollows(s: State, t: State)
    requires Follows(s, Run(t, Continue), true)
    ensures t.link.polls != [] ==> Follows(s, Run(Polled(t), Continue), true)
    ensures t.link.polls != [] && t.link.polls[0].Failed? ==> Follows(s, Run(Polled(t), Fatal), true)
  {
    hide Follows;
    if t.link.polls != [] {
      PollFollows(t, Continue);
      FollowsTrans(s, t, Run(Polled(t), Continue), true);
      if t.link.polls[0].Failed? {
        PollFollows(t, Fatal);
        FollowsTrans(s, t, Run(Polled(t), Fatal), true);
      }
    }
  }

  lemma {:induction false} PollFollows(t: State, flow: Flow)
    requires t.link.polls != [] && (flow.Continue? || (flow.Fatal? && t.link.polls[0].Failed?))
    ensures Follows(t, Run(Polled(t), flow), true)
  {
    hide NoDrops, Halt, Writes, Overrun, Refuses, LastWord;
    var z := Polled(t);
    assert Used(t, z) == [];
    forall ep: Ep ensures PortFollows(t.ports[ep], z.ports[ep], [], ep, true, true) {
      NoUse(t.ports[ep], ep);
    }
  }

  lemma {:induction false} NoUse(p: Port, ep: Ep)
    ensures PortFollows(p, p, [], ep, true, true)
  {
    assert p.ledger.wrote + [] == p.ledger.wrote;
  }
}
