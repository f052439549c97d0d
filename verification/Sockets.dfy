/** The socket of one connection: read(2) and write(2) move some of the bytes, however few, and
    read_exact and write_exact loop over them. */
module Sockets {
  import opened Bytes
  import opened Model

  class Connection {
    var input: seq<byte>            // everything the peer will still send before it closes
    var budget: nat                 // how many more bytes the peer will accept
    var polls: seq<Poll>            // what the next polls will report
    var sent: seq<byte>             // what has been written
    ghost var received: seq<byte>   // what has been read

    constructor ()
      ensures input == [] && budget == 0 && polls == [] && sent == [] && received == []
    {
      input, budget, polls, sent, received := [], 0, [], [], [];
    }

    /** accept(2) hands out a new stream. */
    method Reopen(input: seq<byte>, budget: nat, polls: seq<Poll>)
      modifies this
      ensures this.input == input && this.budget == budget && this.polls == polls
      ensures sent == [] && received == []
    {
      this.input, this.budget, this.polls, sent, received := input, budget, polls, [], [];
    }

    /** read(2): at least one byte and at most `count`, or 0 at the end of the stream. How many is
        the network's choice. */
    method Receive(buffer: array<byte>, offset: nat, count: nat) returns (n: nat)
      requires 0 < count && offset + count <= buffer.Length
      modifies this`input, this`received, buffer
      ensures n == 0 <==> old(input) == []
      ensures n <= count && n <= |old(input)|
      ensures input == old(input)[n..] && received == old(received) + old(input)[..n]
      ensures buffer[..offset] == old(buffer[..offset])
      ensures buffer[offset..offset + n] == old(input)[..n]
    {
      if input == [] {
        n := 0;
        return;
      }
      assert 1 <= |input| && 1 <= count;
      n :| 1 <= n && n <= count && n <= |input|;
      forall i | 0 <= i < n {
        buffer[offset + i] := input[i];
      }
      input, received := input[n..], received + input[..n];
    }

    /** write(2): at least one byte of what is left, or 0 when the peer accepts no more. */
    method Transmit(data: seq<byte>, offset: nat) returns (n: nat)
      requires offset < |data|
      modifies this`budget, this`sent
      ensures n == 0 <==> old(budget) == 0
      ensures n <= old(budget) && offset + n <= |data|
      ensures budget == old(budget) - n && sent == old(sent) + data[offset..offset + n]
    {
      if budget == 0 {
        n := 0;
        return;
      }
      assert 1 <= budget && 1 <= |data| - offset;
      n :| 1 <= n && n <= budget && offset + n <= |data|;
      budget, sent := budget - n, sent + data[offset..offset + n];
    }

    /** read_exact: whatever the segmentation, exactly the next `count` bytes, or failure when the
        stream ends before. */
    method ReadExact(buffer: array<byte>, count: nat) returns (ok: bool)
      requires count <= buffer.Length
      modifies this`input, this`received, buffer
      ensures ok <==> count <= |old(input)|
      ensures ok ==> buffer[..count] == old(input)[..count] && input == old(input)[count..]
                     && received == old(received) + old(input)[..count]
      ensures !ok ==> input == [] && received == old(received) + old(input)
    {
      var offset := 0;
      while offset < count
        invariant offset <= count && offset <= |old(input)|
        invariant input == old(input)[offset..] && received == old(received) + old(input)[..offset]
        invariant buffer[..offset] == old(input)[..offset]
      {
        label turn:
        var n := Receive(buffer, offset, count - offset);
        if n == 0 {
          return false;
        }
        assert old(input)[..offset] + old@turn(input)[..n] == old(input)[..offset + n];
        assert buffer[..offset + n] == buffer[..offset] + buffer[offset..offset + n];
        offset := offset + n;
      }
      return true;
    }

    /** write_exact: all of `data` in order, or as much as the peer accepts and failure. */
    method WriteExact(data: seq<byte>) returns (ok: bool)
      modifies this`budget, this`sent
      ensures ok <==> |data| <= old(budget)
      ensures ok ==> sent == old(sent) + data && budget == old(budget) - |data|
      ensures !ok ==> sent == old(sent) + data[..old(budget)] && budget == 0
    {
      var offset := 0;
      while offset < |data|
        invariant offset <= |data| && offset <= old(budget)
        invariant budget == old(budget) - offset && sent == old(sent) + data[..offset]
      {
        var n := Transmit(data, offset);
        if n == 0 {
          return false;
        }
        assert data[..offset] + data[offset..offset + n] == data[..offset + n];
        offset := offset + n;
      }
      return true;
    }
  }
}
