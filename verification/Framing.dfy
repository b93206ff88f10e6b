/** Messages on a connection: an 8-byte little-endian length, the marshalled message, and for chunk messages the raw
    bytes of the chunk on the same connection. What one read returns is up to the network. */
module Framing {
  import opened Types
  import opened Chunking

  // ----- little-endian lengths -----

  /** The k lowest bytes of n, lowest first. */
  function Little(n: nat, k: nat): (b: Bytes)
    ensures |b| == k
  {
    if k == 0 then [] else [(n % 256) as byte] + Little(n / 256, k - 1)
  }

  function Amount(b: Bytes): nat {
    if b == [] then 0 else b[0] as nat + 256 * Amount(b[1..])
  }

  function Pow256(k: nat): nat { if k == 0 then 1 else 256 * Pow256(k - 1) }

  lemma {:induction false} LittleRoundTrip(n: nat, k: nat)
    requires n < Pow256(k)
    ensures Amount(Little(n, k)) == n
  {
    if k > 0 {
      LittleRoundTrip(n / 256, k - 1);
      assert Little(n, k)[1..] == Little(n / 256, k - 1);
    }
  }

  lemma EightBytes()
    ensures Pow256(8) == UINT64
  {
    assert Pow256(4) == 0x1_0000_0000;
    assert Pow256(8) == 0x1_0000_0000 * Pow256(4);
  }

  /** n without its i lowest bytes. */
  function Shifted(n: nat, i: nat): nat { if i == 0 then n else Shifted(n, i - 1) / 256 }

  lemma {:induction false} ShiftedOnce(n: nat, i: nat)
    ensures Shifted(n / 256, i) == Shifted(n, i + 1)
  {
    if i > 0 { ShiftedOnce(n, i - 1); }
  }

  /** The byte that counts least comes first. */
  lemma {:induction false} LittleAt(n: nat, k: nat, i: nat)
    requires i < k
    ensures Little(n, k)[i] as nat == Shifted(n, i) % 256
  {
    if i > 0 {
      LittleAt(n / 256, k - 1, i - 1);
      ShiftedOnce(n, i - 1);
    }
  }

  function Zeros(k: nat): (b: Bytes)
    ensures |b| == k
  { seq(k, _ => 0) }

  lemma {:induction false} AmountOfZeros(k: nat)
    ensures Amount(Zeros(k)) == 0
  {
    if k > 0 {
      AmountOfZeros(k - 1);
      assert Zeros(k)[1..] == Zeros(k - 1);
    }
  }

  /** Missing high bytes read as zeros and can only make the length smaller. */
  lemma {:induction false} CutAmount(b: Bytes, n: nat)
    requires n <= |b|
    ensures Amount(b[..n] + Zeros(|b| - n)) <= Amount(b)
  {
    if n == 0 {
      AmountOfZeros(|b|);
      assert b[..0] + Zeros(|b|) == Zeros(|b|);
    } else {
      CutAmount(b[1..], n - 1);
      assert (b[..n] + Zeros(|b| - n))[1..] == b[1..][..n - 1] + Zeros(|b[1..]| - (n - 1));
    }
  }

  // ----- one message -----

  function Frame(payload: Bytes): Bytes { Little(|payload|, 8) + payload }

  /** How a call of Receive ends: with the bytes of a message, or never, reading an ended connection over and over. */
  datatype Reception = Received(payload: Bytes) | Spins

  /** How many of the 8 bytes a read of the prefix returns. */
  function FirstRead(fragments: seq<Bytes>): (n: nat)
    ensures n <= 8
  {
    if fragments == [] then 0 else if |fragments[0]| < 8 then |fragments[0]| else 8
  }

  /** The length Receive believes in after a first read of n bytes. */
  function Announced(stream: Bytes, n: nat): nat
    requires n <= 8 && n <= |stream|
  {
    Amount(stream[..n] + Zeros(8 - n))
  }

  function ReceiveFrom(stream: Bytes, n: nat): (Reception, Bytes)
    requires n <= 8 && n <= |stream|
  {
    var size := Announced(stream, n);
    if n + size <= |stream| then (Received(stream[n..n + size]), stream[n + size..]) else (Spins, [])
  }

  lemma FullPrefix(payload: Bytes, tail: Bytes)
    requires |payload| < UINT64
    ensures Announced(Frame(payload) + tail, 8) == |payload|
    ensures ReceiveFrom(Frame(payload) + tail, 8) == (Received(payload), tail)
  {
    var stream := Frame(payload) + tail;
    EightBytes();
    LittleRoundTrip(|payload|, 8);
    assert stream[..8] + Zeros(0) == Little(|payload|, 8);
    assert stream[8..8 + |payload|] == payload && stream[8 + |payload|..] == tail;
  }

  /** When a whole message and any tail are on the connection, Receive consumes exactly the message precisely when its
      first read returned all 8 bytes of the length; then it gives back the message and leaves the tail. */
  lemma ReceivesExactly(payload: Bytes, tail: Bytes, n: nat)
    requires |payload| < UINT64 && n <= 8
    ensures var (r, rest) := ReceiveFrom(Frame(payload) + tail, n);
            && r.Received?
            && (|rest| == |tail| <==> n == 8)
            && (n == 8 ==> r.payload == payload && rest == tail)
  {
    var stream := Frame(payload) + tail;
    FullPrefix(payload, tail);
    if n < 8 {
      CutAmount(stream[..8], n);
      assert stream[..8][..n] == stream[..n];
      assert stream[..8] + Zeros(0) == stream[..8];
    }
  }

  // ----- a chunk message and its bytes -----

  /** The message library: an encoder and a decoder of everything in a chunk message but the raw bytes behind it. */
  datatype Codec = Codec(marshal: ChunkMsg -> Bytes, unmarshal: Bytes -> Option<ChunkMsg>)

  function Header(m: ChunkMsg): ChunkMsg { m.(data := []) }

  ghost predicate Inverse(c: Codec) {
    forall m :: c.unmarshal(c.marshal(m)) == Some(Header(m))
  }

  /** What copying at most `size` bytes takes from a connection. */
  function Copied(stream: Bytes, size: nat): Bytes { if size <= |stream| then stream[..size] else stream }

  /** However the connection is cut into reads, as long as the first one has the whole length, the receiver decodes the
      message and the copy that follows takes exactly the chunk's bytes. */
  lemma ChunkArrivesWhole(c: Codec, m: ChunkMsg, fragments: seq<Bytes>)
    requires Inverse(c) && |c.marshal(m)| < UINT64 && m.size == |m.data| && fragments != [] && |fragments[0]| >= 8
    requires Concat(fragments) == Frame(c.marshal(m)) + m.data
    ensures var (r, rest) := ReceiveFrom(Concat(fragments), FirstRead(fragments));
            && r.Received? && c.unmarshal(r.payload) == Some(Header(m))
            && Header(m).(data := Copied(rest, Header(m).size)) == m
  {
    ReceivesExactly(c.marshal(m), m.data, 8);
  }

  // ----- connections -----

  /** One end of a connection: the fragments still to be read, oldest first, and what has been written to it. */
  class Conn {
    var fragments: seq<Bytes>
    var written: Bytes

    ghost predicate Valid()
      reads this
    {
      forall i :: 0 <= i < |fragments| ==> fragments[i] != []
    }

    ghost function Stream(): Bytes
      reads this
    { Concat(fragments) }

    constructor (fragments: seq<Bytes>)
      requires forall i :: 0 <= i < |fragments| ==> fragments[i] != []
      ensures Valid() && this.fragments == fragments && written == []
    {
      this.fragments := fragments;
      this.written := [];
    }

    method Write(data: Bytes)
      modifies this`written
      ensures written == old(written) + data
    {
      written := written + data;
    }

    /** Fill what fits of the oldest fragment into the buffer from position `from` on; nothing when the connection has
        ended. */
    method Read(buffer: array<byte>, from: nat) returns (n: nat)
      requires Valid() && from <= buffer.Length
      modifies this`fragments, buffer
      ensures Valid() && n <= buffer.Length - from
      ensures n == if old(fragments) == [] then 0 else if |old(fragments)[0]| < buffer.Length - from
              then |old(fragments)[0]|
                   else buffer.Length - from
      ensures n <= |old(Stream())| && Stream() == old(Stream())[n..]
      ensures buffer[..] == old(buffer[..from]) + old(Stream())[..n] + old(buffer[..])[from + n..]
    {
      if fragments == [] {
        return 0;
      }
      var first := fragments[0];
      n := if |first| < buffer.Length - from then |first| else buffer.Length - from;
      ghost var stream, was := Stream(), buffer[..];
      forall i | 0 <= i < n { buffer[from + i] := first[i]; }
      assert stream == first + Concat(fragments[1..]);
      if n == |first| {
        fragments := fragments[1..];
        assert stream[n..] == Stream();
      } else {
        fragments := [first[n..]] + fragments[1..];
        assert fragments[1..] == old(fragments)[1..];
        assert stream[n..] == first[n..] + Concat(fragments[1..]);
      }
      assert buffer[..from] == was[..from] && buffer[from..from + n] == first[..n] == stream[..n];
    }
  }

  class MessageHandler {
    const conn: Conn

    constructor (conn: Conn)
      ensures this.conn == conn
    {
      this.conn := conn;
    }

    method Send(serialized: Bytes)
      modifies conn`written
      ensures conn.written == old(conn.written) + Frame(serialized)
    {
      var prefix := Little(|serialized|, 8);
      conn.Write(prefix);
      conn.Write(serialized);
      assert old(conn.written) + prefix + serialized == old(conn.written) + (prefix + serialized);
    }

    /** Read until the payload is full; false for a connection that ends before, which the loop never notices. */
    method FillPayload(payload: array<byte>) returns (full: bool)
      requires conn.Valid()
      modifies conn`fragments, payload
      ensures conn.Valid() && full == (payload.Length <= |old(conn.Stream())|)
      ensures full ==>
                payload[..] == old(conn.Stream())[..payload.Length]
                && conn.Stream() == old(conn.Stream())[payload.Length..]
      ensures !full ==> conn.Stream() == []
    {
      ghost var stream := conn.Stream();
      var total := 0;
      while total < payload.Length
        invariant 0 <= total <= payload.Length && conn.Valid() && total <= |stream|
        invariant conn.Stream() == stream[total..]
        invariant payload[..total] == stream[..total]
        decreases payload.Length - total
      {
        var got := conn.Read(payload, total);
        if got == 0 {
          return false;
        }
        assert payload[..total + got] == stream[..total] + stream[total..][..got];
        total := total + got;
      }
      assert payload[..] == payload[..total];
      full := true;
    }

    /** One read for the length; the bytes it does not bring count as zeros. */
    method ReadLength() returns (ghost n: nat, size: nat)
      requires conn.Valid()
      modifies conn`fragments
      ensures conn.Valid() && n == FirstRead(old(conn.fragments)) <= |old(conn.Stream())|
      ensures size == Announced(old(conn.Stream()), n) && conn.Stream() == old(conn.Stream())[n..]
    {
      var prefix := new byte[8](_ => 0);
      var got := conn.Read(prefix, 0);
      n := got;
      assert prefix[..] == old(conn.Stream())[..n] + Zeros(8 - n);
      size := Amount(prefix[..]);
    }

    /** Read the length, then read until the payload is full. */
    method Receive() returns (r: Reception)
      requires conn.Valid()
      modifies conn`fragments
      ensures conn.Valid()
      ensures FirstRead(old(conn.fragments)) <= |old(conn.Stream())|
      ensures (r, conn.Stream()) == ReceiveFrom(old(conn.Stream()), FirstRead(old(conn.fragments)))
    {
      ghost var stream := conn.Stream();
      var n, payloadSize := ReadLength();
      var payload := new byte[payloadSize];
      var full := FillPayload(payload);
      if full {
        assert stream[n..][..payloadSize] == stream[n..n + payloadSize];
        assert stream[n..][payloadSize..] == stream[n + payloadSize..];
        r := Received(payload[..]);
      } else {
        r := Spins;
      }
    }

    /** io.CopyN: up to `size` raw bytes from the connection. */
    method CopyN(size: nat) returns (copied: Bytes)
      requires conn.Valid()
      modifies conn`fragments
      ensures conn.Valid() && copied == Copied(old(conn.Stream()), size)
      ensures conn.Stream() == old(conn.Stream())[|copied|..]
    {
      ghost var stream := conn.Stream();
      var buffer := new byte[size];
      var total := 0;
      while total < size
        invariant 0 <= total <= size && buffer.Length == size && conn.Valid() && total <= |stream|
        invariant conn.Stream() == stream[total..]
        invariant buffer[..total] == stream[..total]
        decreases size - total
      {
        var got := conn.Read(buffer, total);
        if got == 0 { break; }
        assert buffer[..total + got] == stream[..total] + stream[total..][..got];
        total := total + got;
      }
      copied := buffer[..total];
    }
  }
}
