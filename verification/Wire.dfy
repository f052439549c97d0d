/** The USB/IP messages this server reads and writes, and a host-side parser for its output.
    Every message is a four-byte command word followed by a 44-byte body; a SUBMIT to the device
    (OUT) is followed by its payload, and so is the reply to a SUBMIT from the device (IN). */
module Wire {
  import opened Bytes

  const BODY_BYTES := 44
  const MESSAGE_BYTES := 48

  type Setup = b: seq<byte> | |b| == 8 witness [0, 0, 0, 0, 0, 0, 0, 0]
  type Padding = b: seq<byte> | |b| == 24
    witness [0, 0, 0, 0, 0, 0, 0, 0, 0, 0, 0, 0, 0, 0, 0, 0, 0, 0, 0, 0, 0, 0, 0, 0]

  /** struct CmdSubmitBody, fields in host order. */
  datatype Submit = Submit(
    seqNum: uint32, devId: uint32, direction: uint32, ep: uint32, flags: uint32,
    length: uint32, startFrame: uint32, packets: uint32, interval: uint32, setup: Setup)

  /** struct CmdUnlinkBody. */
  datatype Unlink = Unlink(
    seqNum: uint32, devId: uint32, direction: uint32, ep: uint32, target: uint32, padding: Padding)

  const ZERO_SUBMIT := Submit(0, 0, 0, 0, 0, 0, 0, 0, 0, [0, 0, 0, 0, 0, 0, 0, 0])

  /** Linux error numbers, as the 32-bit two's complement the status field carries. */
  const STATUS_OK: uint32 := 0
  const NEG_EBUSY: uint32 := 0x1_0000_0000 - 16
  const NEG_EPIPE: uint32 := 0x1_0000_0000 - 32
  const NEG_ECONNRESET: uint32 := 0x1_0000_0000 - 104
  const NEG_ETIMEDOUT: uint32 := 0x1_0000_0000 - 110

  const CMD_SUBMIT: seq<byte> := [0, 0, 0, 1]
  const CMD_UNLINK: seq<byte> := [0, 0, 0, 2]
  const RET_SUBMIT: seq<byte> := [0, 0, 0, 3]
  const RET_UNLINK: seq<byte> := [0, 0, 0, 4]
  const RET_IMPORT: seq<byte> := [1, 0x11, 0, 3]
  const RET_DEVLIST: seq<byte> := [1, 0x11, 0, 5]

  // Bytes that follow the first word of the two operation replies.
  const IMPORT_BYTES := 316
  const DEVLIST_BYTES := 332

  function SubmitWords(r: Submit): seq<uint32> {
    [r.seqNum, r.devId, r.direction, r.ep, r.flags, r.length, r.startFrame, r.packets, r.interval]
  }

  function EncodeSubmit(r: Submit): (b: seq<byte>)
    ensures |b| == BODY_BYTES
  {
    Words(SubmitWords(r)) + r.setup
  }

  function DecodeSubmit(b: seq<byte>): Submit
    requires |b| == BODY_BYTES
  {
    Submit(Word(b, 0), Word(b, 1), Word(b, 2), Word(b, 3), Word(b, 4),
           Word(b, 5), Word(b, 6), Word(b, 7), Word(b, 8), b[36..])
  }

  lemma SubmitRoundTrip(r: Submit)
    ensures DecodeSubmit(EncodeSubmit(r)) == r
  {
    var ws := SubmitWords(r);
    forall i | 0 <= i < 9 ensures Word(EncodeSubmit(r), i) == ws[i] {
      WordsRoundTrip(ws, r.setup, i);
    }
    assert EncodeSubmit(r)[36..] == r.setup;
  }

  function UnlinkWords(u: Unlink): seq<uint32> {
    [u.seqNum, u.devId, u.direction, u.ep, u.target]
  }

  function EncodeUnlink(u: Unlink): (b: seq<byte>)
    ensures |b| == BODY_BYTES
  {
    Words(UnlinkWords(u)) + u.padding
  }

  function DecodeUnlink(b: seq<byte>): Unlink
    requires |b| == BODY_BYTES
  {
    Unlink(Word(b, 0), Word(b, 1), Word(b, 2), Word(b, 3), Word(b, 4), b[20..])
  }

  /** Where the host puts each field of USBIP_CMD_SUBMIT, in network order. */
  lemma {:induction false} SubmitLayout(b: seq<byte>)
    requires |b| == 44
    ensures
      var r := DecodeSubmit(b);
      && r.seqNum == FromBe32(b[0..4]) && r.devId == FromBe32(b[4..8]) && r.direction == FromBe32(b[8..12])
      && r.ep == FromBe32(b[12..16]) && r.flags == FromBe32(b[16..20]) && r.length == FromBe32(b[20..24])
      && r.startFrame == FromBe32(b[24..28]) && r.packets == FromBe32(b[28..32]) && r.interval == FromBe32(b[32..36])
      && r.setup == b[36..44]
    ensures DecodeUnlink(b).seqNum == FromBe32(b[0..4]) && DecodeUnlink(b).target == FromBe32(b[16..20])
  {}

  lemma UnlinkRoundTrip(u: Unlink)
    ensures DecodeUnlink(EncodeUnlink(u)) == u
  {
    var ws := UnlinkWords(u);
    forall i | 0 <= i < 5 ensures Word(EncodeUnlink(u), i) == ws[i] {
      WordsRoundTrip(ws, u.padding, i);
    }
    assert EncodeUnlink(u)[20..] == u.padding;
  }

  // ---------------------------------------------------------------- commands

  datatype Command =
    | OpDevList(version: seq<byte>, status: seq<byte>)
    | OpImport(version: seq<byte>, status: seq<byte>, busId: seq<byte>)
    | CmdSubmit(body: Submit, payload: seq<byte>)
    | CmdUnlink(unlink: Unlink)

  /** What a conforming host sends: an OUT submit carries exactly the payload it announces. */
  predicate WellFormed(c: Command) {
    match c
    case OpDevList(v, st) => |v| == 2 && |st| == 4
    case OpImport(v, st, bus) => |v| == 2 && |st| == 4 && |bus| == 32
    case CmdSubmit(r, data) => r.direction <= 1 && |data| == if r.direction == 0 then r.length else 0
    case CmdUnlink(_) => true
  }

  /** The four-byte word the dispatcher switches on. */
  function CommandWord(c: Command): (w: seq<byte>)
    requires WellFormed(c)
    ensures |w| == 4
  {
    match c
    case OpDevList(v, _) => v + [0x80, 0x05]
    case OpImport(v, _, _) => v + [0x80, 0x03]
    case CmdSubmit(_, _) => [0, 0, 0, 1]
    case CmdUnlink(_) => [0, 0, 0, 2]
  }

  function CommandBody(c: Command): seq<byte> {
    match c
    case OpDevList(_, st) => st
    case OpImport(_, st, bus) => st + bus
    case CmdSubmit(r, data) => EncodeSubmit(r) + data
    case CmdUnlink(u) => EncodeUnlink(u)
  }

  function EncodeCommand(c: Command): seq<byte>
    requires WellFormed(c)
  {
    CommandWord(c) + CommandBody(c)
  }

  // ----------------------------------------------------------------- replies

  /** Everything the server writes. A RetSubmit remembers the request it answers; of the request,
      only the sequence number reaches the wire. */
  datatype Reply =
    | RetSubmit(req: Submit, status: uint32, actual: uint32, payload: seq<byte>)
    | RetUnlink(seqNum: uint32, status: uint32)
    | RetImport(body: seq<byte>)
    | RetDevList(body: seq<byte>)

  function RetWords(seqNum: uint32, status: uint32, actual: uint32): seq<uint32> {
    [seqNum, 0, 0, 0, status, actual, 0xFFFF_FFFF, 0, 0]
  }

  function RetSubmitBody(seqNum: uint32, status: uint32, actual: uint32): (b: seq<byte>)
    ensures |b| == BODY_BYTES
  {
    Words(RetWords(seqNum, status, actual)) + Zeros(8)
  }

  function RetUnlinkBody(seqNum: uint32, status: uint32): (b: seq<byte>)
    ensures |b| == BODY_BYTES
  {
    Words([seqNum, 0, 0, 0, status]) + Zeros(24)
  }

  function EncodeReply(r: Reply): (b: seq<byte>) {
    match r
    case RetSubmit(q, status, actual, data) => RET_SUBMIT + RetSubmitBody(q.seqNum, status, actual) + data
    case RetUnlink(n, status) => RET_UNLINK + RetUnlinkBody(n, status)
    case RetImport(body) => RET_IMPORT + body
    case RetDevList(body) => RET_DEVLIST + body
  }

  function Frames(rs: seq<Reply>): (fs: seq<seq<byte>>)
    ensures |fs| == |rs|
    ensures forall i :: 0 <= i < |rs| ==> fs[i] == EncodeReply(rs[i])
  {
    seq(|rs|, i requires 0 <= i < |rs| => EncodeReply(rs[i]))
  }

  function EncodeReplies(rs: seq<Reply>): seq<byte> {
    Flatten(Frames(rs))
  }

  lemma {:induction false} EncodeRepliesSnoc(rs: seq<Reply>, r: Reply)
    ensures EncodeReplies(rs + [r]) == EncodeReplies(rs) + EncodeReply(r)
  {
    hide EncodeReply;
    assert Frames(rs + [r]) == Frames(rs) + [EncodeReply(r)];
    FlattenSnoc(Frames(rs), EncodeReply(r));
  }

  lemma {:induction false} EncodeRepliesCons(r: Reply, rs: seq<Reply>)
    ensures EncodeReplies([r] + rs) == EncodeReply(r) + EncodeReplies(rs)
  {
    hide EncodeReply;
    assert Frames([r] + rs) == [EncodeReply(r)] + Frames(rs);
    FlattenAppend([EncodeReply(r)], Frames(rs));
    assert [EncodeReply(r)] == [] + [EncodeReply(r)];
    FlattenSnoc([], EncodeReply(r));
  }

  /** The shape every reply of this server has: a payload follows an IN reply only, its size is
      the announced length, and a failed OUT announces zero. */
  predicate ReplyShape(r: Reply) {
    match r
    case RetSubmit(q, status, actual, data) =>
      if q.direction == 1 then actual == |data|
      else data == [] && actual == if status == STATUS_OK then q.length else 0
    case RetUnlink(_, _) => true
    case RetImport(body) => |body| == IMPORT_BYTES
    case RetDevList(body) => |body| == DEVLIST_BYTES
  }

  // ------------------------------------------------------------- host parser

  /** What a host recovers from one frame. */
  datatype HostFrame =
    | HostSubmit(seqNum: uint32, status: uint32, actual: uint32, payload: seq<byte>)
    | HostUnlink(seqNum: uint32, status: uint32)
    | HostImport(body: seq<byte>)
    | HostDevList(body: seq<byte>)

  function View(r: Reply): HostFrame {
    match r
    case RetSubmit(q, status, actual, data) => HostSubmit(q.seqNum, status, actual, data)
    case RetUnlink(n, status) => HostUnlink(n, status)
    case RetImport(body) => HostImport(body)
    case RetDevList(body) => HostDevList(body)
  }

  function Views(rs: seq<Reply>): (vs: seq<HostFrame>)
    ensures |vs| == |rs|
    ensures forall i :: 0 <= i < |rs| ==> vs[i] == View(rs[i])
  {
    if rs == [] then [] else [View(rs[0])] + Views(rs[1..])
  }

  /** One frame and the bytes after it. The host supplies the direction of each request it made:
      the reply's own direction field is always zero. */
  function HostFrameAt(b: seq<byte>, isIn: uint32 -> bool): (r: Option<(HostFrame, seq<byte>)>)
    ensures r.Some? ==> |r.value.1| < |b|
  {
    if |b| < 4 then None
    else if b[..4] == [0, 0, 0, 3] then
      if |b| < MESSAGE_BYTES then None
      else
        var body := b[4..MESSAGE_BYTES];
        var actual := Word(body, 5);
        var extra := if isIn(Word(body, 0)) then actual else 0;
        if |b| < MESSAGE_BYTES + extra then None
        else Some((HostSubmit(Word(body, 0), Word(body, 4), actual, b[MESSAGE_BYTES..MESSAGE_BYTES + extra]),
                   b[MESSAGE_BYTES + extra..]))
    else if b[..4] == [0, 0, 0, 4] then
      if |b| < MESSAGE_BYTES then None
      else
        var body := b[4..MESSAGE_BYTES];
        Some((HostUnlink(Word(body, 0), Word(body, 4)), b[MESSAGE_BYTES..]))
    else if b[..4] == [1, 0x11, 0, 3] then
      if |b| < 320 then None else Some((HostImport(b[4..320]), b[320..]))
    else if b[..4] == [1, 0x11, 0, 5] then
      if |b| < 336 then None else Some((HostDevList(b[4..336]), b[336..]))
    else None
  }

  function HostParse(b: seq<byte>, isIn: uint32 -> bool): Option<seq<HostFrame>>
    decreases |b|
  {
    if b == [] then Some([])
    else
      match HostFrameAt(b, isIn)
      case None => None
      case Some((f, rest)) =>
        match HostParse(rest, isIn)
        case None => None
        case Some(fs) => Some([f] + fs)
  }

  lemma RetSubmitFields(seqNum: uint32, status: uint32, actual: uint32)
    ensures Word(RetSubmitBody(seqNum, status, actual), 0) == seqNum
    ensures Word(RetSubmitBody(seqNum, status, actual), 4) == status
    ensures Word(RetSubmitBody(seqNum, status, actual), 5) == actual
  {
    var ws := RetWords(seqNum, status, actual);
    WordsRoundTrip(ws, Zeros(8), 0);
    WordsRoundTrip(ws, Zeros(8), 4);
    WordsRoundTrip(ws, Zeros(8), 5);
  }

  lemma RetUnlinkFields(seqNum: uint32, status: uint32)
    ensures Word(RetUnlinkBody(seqNum, status), 0) == seqNum
    ensures Word(RetUnlinkBody(seqNum, status), 4) == status
  {
    var ws := [seqNum, 0, 0, 0, status];
    WordsRoundTrip(ws, Zeros(24), 0);
    WordsRoundTrip(ws, Zeros(24), 4);
  }

  /** The replies, byte for byte: the fields that carry nothing are zero, and the start frame is -1. */
  lemma {:induction false} ReplyLayout(q: Submit, n: uint32, status: uint32, actual: uint32, data: seq<byte>)
    ensures EncodeReply(RetSubmit(q, status, actual, data)) ==
            [0, 0, 0, 3] + Be32(q.seqNum) + Zeros(12) + Be32(status) + Be32(actual) + [0xFF, 0xFF, 0xFF, 0xFF] + Zeros(16) + data
    ensures EncodeReply(RetUnlink(n, status)) == [0, 0, 0, 4] + Be32(n) + Zeros(12) + Be32(status) + Zeros(24)
  {
    hide Be32, Words, Zeros;
    FixedWords();
    NineWords(RetWords(q.seqNum, status, actual));
    FiveWords([n, 0, 0, 0, status]);
    var z, m, e := Zeros(4), Be32(0xFFFF_FFFF), Zeros(8);
    var a, b, c := Be32(q.seqNum), Be32(status), Be32(actual);
    assert RET_SUBMIT + (a + z + z + z + (b + c + m + z + z) + e) + data
        == [0, 0, 0, 3] + a + (z + z + z) + b + c + m + (z + z + e) + data;
    assert RET_UNLINK + (Be32(n) + z + z + z + b + Zeros(24)) == [0, 0, 0, 4] + Be32(n) + (z + z + z) + b + Zeros(24);
  }

  lemma {:induction false} FixedWords()
    ensures Be32(0) == Zeros(4) && Be32(0xFFFF_FFFF) == [0xFF, 0xFF, 0xFF, 0xFF]
    ensures Zeros(12) == Zeros(4) + Zeros(4) + Zeros(4) && Zeros(16) == Zeros(4) + Zeros(4) + Zeros(8)
  {}

  lemma {:induction false} FiveWords(ws: seq<uint32>)
    requires |ws| == 5
    ensures Words(ws) == Be32(ws[0]) + Be32(ws[1]) + Be32(ws[2]) + Be32(ws[3]) + Be32(ws[4])
  {
    hide Be32;
    assert Words(ws) == Be32(ws[0]) + Words(ws[1..]);
    assert Words(ws[1..]) == Be32(ws[1]) + Words(ws[2..]) by { assert ws[1..][1..] == ws[2..]; }
    assert Words(ws[2..]) == Be32(ws[2]) + Words(ws[3..]) by { assert ws[2..][1..] == ws[3..]; }
    assert Words(ws[3..]) == Be32(ws[3]) + Words(ws[4..]) by { assert ws[3..][1..] == ws[4..]; }
    assert Words(ws[4..]) == Be32(ws[4]) by { assert ws[4..][1..] == []; }
  }

  lemma {:induction false} NineWords(ws: seq<uint32>)
    requires |ws| == 9
    ensures Words(ws) == Be32(ws[0]) + Be32(ws[1]) + Be32(ws[2]) + Be32(ws[3])
                         + (Be32(ws[4]) + Be32(ws[5]) + Be32(ws[6]) + Be32(ws[7]) + Be32(ws[8]))
  {
    hide Be32;
    assert Words(ws) == Be32(ws[0]) + Words(ws[1..]);
    assert Words(ws[1..]) == Be32(ws[1]) + Words(ws[2..]) by { assert ws[1..][1..] == ws[2..]; }
    assert Words(ws[2..]) == Be32(ws[2]) + Words(ws[3..]) by { assert ws[2..][1..] == ws[3..]; }
    assert Words(ws[3..]) == Be32(ws[3]) + Words(ws[4..]) by { assert ws[3..][1..] == ws[4..]; }
    FiveWords(ws[4..]);
  }

  /** A 32-bit status as the host reads it: in two's complement. */
  function Signed(n: uint32): int {
    if n >= 0x8000_0000 then n - 0x1_0000_0000 else n
  }

  /** The error numbers are those of Linux, negated. */
  lemma {:induction false} StatusCodes()
    ensures Signed(STATUS_OK) == 0 && Signed(NEG_EBUSY) == -16 && Signed(NEG_EPIPE) == -32
    ensures Signed(NEG_ECONNRESET) == -104 && Signed(NEG_ETIMEDOUT) == -110
  {}

  /** One encoded reply in front of anything parses back to its view, leaving the rest. */
  lemma {:induction false} FrameRoundTrip(r: Reply, rest: seq<byte>, isIn: uint32 -> bool)
    requires ReplyShape(r)
    requires r.RetSubmit? ==> isIn(r.req.seqNum) == (r.req.direction == 1)
    ensures HostFrameAt(EncodeReply(r) + rest, isIn) == Some((View(r), rest))
  {
    var b := EncodeReply(r) + rest;
    match r
    case RetSubmit(q, status, actual, data) =>
      var body := RetSubmitBody(q.seqNum, status, actual);
      assert b[..4] == RET_SUBMIT;
      assert b[4..MESSAGE_BYTES] == body;
      RetSubmitFields(q.seqNum, status, actual);
      assert b[MESSAGE_BYTES..MESSAGE_BYTES + |data|] == data;
      assert b[MESSAGE_BYTES + |data|..] == rest;
    case RetUnlink(n, status) =>
      assert b[..4] == RET_UNLINK;
      assert b[4..MESSAGE_BYTES] == RetUnlinkBody(n, status);
      RetUnlinkFields(n, status);
      assert b[MESSAGE_BYTES..] == rest;
    case RetImport(body) =>
      assert b[..4] == RET_IMPORT;
      assert b[4..4 + IMPORT_BYTES] == body;
      assert b[4 + IMPORT_BYTES..] == rest;
    case RetDevList(body) =>
      assert b[..4] == RET_DEVLIST;
      assert b[4..4 + DEVLIST_BYTES] == body;
      assert b[4 + DEVLIST_BYTES..] == rest;
  }

  /** A host that knows the direction of each request it made recovers the exact reply list. */
  lemma {:induction false} OutputRoundTrip(rs: seq<Reply>, isIn: uint32 -> bool)
    requires forall i :: 0 <= i < |rs| ==> ReplyShape(rs[i])
    requires forall i :: 0 <= i < |rs| && rs[i].RetSubmit? ==>
               isIn(rs[i].req.seqNum) == (rs[i].req.direction == 1)
    ensures HostParse(EncodeReplies(rs), isIn) == Some(Views(rs))
  {
    hide EncodeReply, HostFrameAt, ReplyShape;
    if rs != [] {
      assert rs == [rs[0]] + rs[1..];
      EncodeRepliesCons(rs[0], rs[1..]);
      FrameRoundTrip(rs[0], EncodeReplies(rs[1..]), isIn);
      OutputRoundTrip(rs[1..], isIn);
      assert Views(rs) == [View(rs[0])] + Views(rs[1..]);
    }
  }

  /** Without the directions the byte stream is ambiguous: a successful 48-byte OUT reply followed
      by another frame and a 48-byte IN reply can be the same bytes. */
  lemma DirectionIsNeeded() returns (a: seq<Reply>, b: seq<Reply>)
    ensures forall r :: r in a || r in b ==> ReplyShape(r)
    ensures EncodeReplies(a) == EncodeReplies(b) && Views(a) != Views(b)
  {
    var out := ZERO_SUBMIT.(length := 48);
    var tail := RetUnlink(7, STATUS_OK);
    a := [RetSubmit(out, STATUS_OK, 48, []), tail];
    b := [RetSubmit(out.(direction := 1), STATUS_OK, 48, EncodeReply(tail))];
    EncodeRepliesSnoc([a[0]], tail);
    EncodeRepliesSnoc([], a[0]);
    EncodeRepliesSnoc([], b[0]);
    hide EncodeReplies, RetSubmitBody, RetUnlinkBody;
    NoReplies();
    assert a == [a[0]] + [tail] && [a[0]] == [] + [a[0]] && b == [] + [b[0]];
    var head := RET_SUBMIT + RetSubmitBody(0, STATUS_OK, 48);
    assert EncodeReply(a[0]) == head + [] == head && EncodeReply(b[0]) == head + EncodeReply(tail);
    ghost var none: seq<byte> := [];
    assert none + head + EncodeReply(tail) == none + (head + EncodeReply(tail));
    assert |Views(a)| != |Views(b)|;
  }

  lemma {:induction false} NoReplies()
    ensures EncodeReplies([]) == []
  {}
}
