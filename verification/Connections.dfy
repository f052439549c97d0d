/** Connections, one after the other: main() accepts, serves and disconnects. */
module Connections {
  import opened Bytes
  import opened Model
  import opened Adapter

  /** What one peer will do on its connection. */
  datatype Peer = Peer(input: seq<byte>, budget: nat, polls: seq<Poll>)

  function NewLink(c: Peer): Link {
    Link(c.input, c.budget, c.polls, [], [], [], [], [], [], None, [])
  }

  /** The history of an endpoint starts with the packet staged in it, if there is one. */
  function FreshLedger(p: Port): Ledger {
    if p.pending then NEW_LEDGER.(wrote := [p.packet]) else NEW_LEDGER
  }

  function FreshPort(p: Port): Port {
    p.(ledger := FreshLedger(p))
  }

  function Accepted(s: State, c: Peer): State {
    var ps := s.ports;
    s.(ports := [FreshPort(ps[0]), FreshPort(ps[1]), FreshPort(ps[2]), FreshPort(ps[3])], link := NewLink(c))
  }

  /** One connection: the state when it was accepted, and when its loop returned (or the observation
      of the run ended). */
  datatype Session = Session(start: State, end: State)

  /** The connections the server gets to serve. */
  function Sessions(s: State, peers: seq<Peer>): (zs: seq<Session>)
    ensures |zs| <= |peers|
    decreases |peers|, 0
  {
    if peers == [] then []
    else
      var a := Accepted(s, peers[0]);
      var r := Serve(a);
      [Session(a, r.state)] + if r.flow.Fatal? then SessionsAfter(r.state, peers[1..]) else []
  }

  function SessionsAfter(s: State, peers: seq<Peer>): (zs: seq<Session>)
    ensures |zs| <= |peers|
    decreases |peers|, 1
  {
    var d := Disconnect(s);
    if d.flow.Continue? then Sessions(d.state, peers) else []
  }

  /** One connection of the accept loop, by how it ended. */
  lemma {:induction false} SessionsStep(s: State, peers: seq<Peer>)
    requires peers != []
    ensures
      var a := Accepted(s, peers[0]);
      var r := Serve(a);
      var d := Disconnect(r.state);
      Sessions(s, peers) == [Session(a, r.state)] +
                            if r.flow.Fatal? && d.flow.Continue? then Sessions(d.state, peers[1..]) else []
  {
    hide Serve, Disconnect, Accepted;
  }

  /** All global variables are zero before main() runs. */
  function PowerOn(clock: nat -> nat, script: seq<seq<Callback>>, tables: Tables): State {
    State([IDLE_PORT, IDLE_PORT, IDLE_PORT, IDLE_PORT], false, None, [], [], [], clock, 0, script, tables,
          NewLink(Peer([], 0, [])))
  }

  /** main(): the device is opened once, then connections are served in turn. */
  function ServerRun(clock: nat -> nat, script: seq<seq<Callback>>, tables: Tables, peers: seq<Peer>): seq<Session> {
    var b := Call(PowerOn(clock, script, tables), HostOpen);
    if b.flow.Continue? then Sessions(b.state, peers) else []
  }
}
