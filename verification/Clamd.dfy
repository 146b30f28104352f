/** clamd INSTREAM framing: a command, then [uint32 big-endian length][bytes] frames, then
    a zero-length frame. */
module Clamd {
  import opened Common

  const COMMAND: Bytes := [122, 73, 78, 83, 84, 82, 69, 65, 77, 0]   // "zINSTREAM\0"
  const TERMINATOR: Bytes := [0, 0, 0, 0]
  const LIMIT: nat := 0x1_0000_0000

  /** `writeUInt32BE`, which accepts lengths below 2^32. */
  function UInt32BE(n: nat): (size: Bytes)
    requires n < LIMIT
    ensures |size| == 4
  {
    var hi: int, lo: int := n / 0x1_0000, n % 0x1_0000;
    var a: int, b: int, c: int, d: int := hi / 0x100, hi % 0x100, lo / 0x100, lo % 0x100;
    [a, b, c, d]
  }

  function ReadUInt32BE(b: Bytes): nat
    requires |b| == 4
  {
    var b0: int, b1: int, b2: int, b3: int := b[0], b[1], b[2], b[3];
    (b0 * 0x100 + b1) * 0x1_0000 + (b2 * 0x100 + b3)
  }

  lemma LengthRoundTrip(n: nat)
    requires n < LIMIT
    ensures ReadUInt32BE(UInt32BE(n)) == n
    ensures var b := UInt32BE(n);
            var b0: int, b1: int, b2: int, b3: int := b[0], b[1], b[2], b[3];
            n == b0 * 0x100_0000 + b1 * 0x1_0000 + b2 * 0x100 + b3
    ensures UInt32BE(n) == TERMINATOR <==> n == 0
  {
  }

  /** The file's chunks are what a Node read stream can deliver: below 2^32 bytes. */
  predicate Framable(chunks: seq<Bytes>)
  {
    forall i :: 0 <= i < |chunks| ==> |chunks[i]| < LIMIT
  }

  function Frame(chunk: Bytes): Bytes
    requires |chunk| < LIMIT
  {
    UInt32BE(|chunk|) + chunk
  }

  function Frames(chunks: seq<Bytes>): Bytes
    requires Framable(chunks)
  {
    if chunks == [] then [] else Frame(chunks[0]) + Frames(chunks[1..])
  }

  /** Everything the client writes to the socket. */
  function Wire(chunks: seq<Bytes>): Bytes
    requires Framable(chunks)
  {
    COMMAND + Frames(chunks) + TERMINATOR
  }

  /** The reader's side: the payload up to the terminator and what follows it. */
  function ReadFrames(b: Bytes): Option<(Bytes, Bytes)>
    decreases |b|
  {
    if |b| < 4 then None
    else
      var n := ReadUInt32BE(b[..4]);
      if n == 0 then Some(([], b[4..]))
      else if |b| < 4 + n then None
      else match ReadFrames(b[4 + n..])
        case None => None
        case Some((payload, rest)) => Some((b[4..4 + n] + payload, rest))
  }

  function ReadCommand(b: Bytes): Option<(Bytes, Bytes)>
  {
    if COMMAND <= b then ReadFrames(b[|COMMAND|..]) else None
  }

  /** The chunks before the first empty one, and the frames after it. */
  function BeforeEmpty(chunks: seq<Bytes>): seq<Bytes>
  {
    if chunks == [] || chunks[0] == [] then [] else [chunks[0]] + BeforeEmpty(chunks[1..])
  }

  function FramesAfter(chunks: seq<Bytes>): Bytes
    requires Framable(chunks)
  {
    if chunks == [] then [] else if chunks[0] == [] then Frames(chunks[1..]) else FramesAfter(chunks[1..])
  }

  lemma OneFrame(chunk: Bytes, tail: Bytes)
    requires 0 < |chunk| < LIMIT
    ensures ReadFrames(Frame(chunk) + tail) ==
            match ReadFrames(tail)
            case None => None
            case Some((payload, rest)) => Some((chunk + payload, rest))
  {
    var b := Frame(chunk) + tail;
    LengthRoundTrip(|chunk|);
    assert b[..4] == UInt32BE(|chunk|);
    assert b[4..4 + |chunk|] == chunk;
    assert b[4 + |chunk|..] == tail;
  }

  /** For any chunks the reader recovers exactly those before the first empty chunk, because
      an empty chunk is the terminator. */
  lemma {:induction false} ReaderStopsAtEmptyChunk(chunks: seq<Bytes>, rest: Bytes)
    requires Framable(chunks)
    ensures ReadFrames(Frames(chunks) + TERMINATOR + rest) ==
            Some((Concat(BeforeEmpty(chunks)),
                  if [] in chunks then FramesAfter(chunks) + TERMINATOR + rest else rest))
  {
    if chunks == [] {
      var b := TERMINATOR + rest;
      assert [] + TERMINATOR + rest == b;
      assert b[..4] == TERMINATOR && b[4..] == rest;
    } else if chunks[0] == [] {
      LengthRoundTrip(0);
      var tail := Frames(chunks[1..]) + TERMINATOR + rest;
      var b := TERMINATOR + tail;
      assert Frame([]) == TERMINATOR;
      assert Frames(chunks) + TERMINATOR + rest == b;
      assert b[..4] == TERMINATOR && b[4..] == tail;
    } else {
      var tail := Frames(chunks[1..]) + TERMINATOR + rest;
      assert Frames(chunks) + TERMINATOR + rest == Frame(chunks[0]) + tail;
      OneFrame(chunks[0], tail);
      ReaderStopsAtEmptyChunk(chunks[1..], rest);
      ConcatCons(chunks[0], BeforeEmpty(chunks[1..]));
      assert [] in chunks <==> [] in chunks[1..];
    }
  }

  lemma {:induction false} AllBeforeEmpty(chunks: seq<Bytes>)
    requires [] !in chunks
    ensures BeforeEmpty(chunks) == chunks
  {
    if chunks != [] { AllBeforeEmpty(chunks[1..]); }
  }

  /** Round trip: for non-empty chunks the reader stops exactly at the terminator, whatever
      follows on the connection, and has recovered exactly the file's bytes. */
  lemma FramingRoundTrip(chunks: seq<Bytes>, rest: Bytes)
    requires Framable(chunks) && [] !in chunks
    ensures ReadCommand(Wire(chunks) + rest) == Some((Concat(chunks), rest))
  {
    var b := Wire(chunks) + rest;
    assert b[|COMMAND|..] == Frames(chunks) + TERMINATOR + rest;
    AllBeforeEmpty(chunks);
    ReaderStopsAtEmptyChunk(chunks, rest);
  }

  lemma {:induction false} FramesSnoc(chunks: seq<Bytes>, chunk: Bytes)
    requires Framable(chunks) && |chunk| < LIMIT
    ensures Framable(chunks + [chunk]) && Frames(chunks + [chunk]) == Frames(chunks) + Frame(chunk)
  {
    if chunks == [] {
      assert chunks + [chunk] == [chunk] && [chunk][1..] == [];
    } else {
      var longer := chunks + [chunk];
      assert longer[0] == chunks[0] && longer[1..] == chunks[1..] + [chunk];
      FramesSnoc(chunks[1..], chunk);
      assert Frames(longer) == Frame(chunks[0]) + Frames(longer[1..]);
      assert Frame(chunks[0]) + (Frames(chunks[1..]) + Frame(chunk)) == Frames(chunks) + Frame(chunk);
    }
  }

  /** The socket handlers of the client. */
  class ScanClient {
    var socket: Bytes
    ghost var sent: seq<Bytes>

    ghost predicate Valid()
      reads this
    {
      Framable(sent) && socket == COMMAND + Frames(sent)
    }

    /** on('connect') */
    constructor ()
      ensures Valid() && sent == []
    {
      socket, sent := COMMAND, [];
    }

    /** file.on('data') */
    method OnData(chunk: Bytes)
      requires Valid() && |chunk| < LIMIT
      modifies this
      ensures Valid() && sent == old(sent) + [chunk]
    {
      FramesSnoc(sent, chunk);
      var size := UInt32BE(|chunk|);
      socket := socket + size;
      socket := socket + chunk;
      sent := sent + [chunk];
    }

    /** file.on('end') */
    method OnEnd()
      requires Valid()
      modifies this
      ensures sent == old(sent) && Framable(sent) && socket == Wire(sent)
    {
      socket := socket + TERMINATOR;
    }
  }

  method SendFile(chunks: seq<Bytes>) returns (wire: Bytes)
    requires Framable(chunks)
    ensures wire == Wire(chunks)
    ensures |wire| >= 14 && wire[..10] == [122, 73, 78, 83, 84, 82, 69, 65, 77, 0] && wire[|wire| - 4..] == [0, 0, 0, 0]
    ensures [] !in chunks ==> ReadCommand(wire) == Some((Concat(chunks), []))
  {
    var client := new ScanClient();
    for i := 0 to |chunks|
      invariant client.Valid() && client.sent == chunks[..i]
    {
      assert chunks[..i + 1] == chunks[..i] + [chunks[i]];
      client.OnData(chunks[i]);
    }
    assert chunks[..|chunks|] == chunks;
    client.OnEnd();
    wire := client.socket;
    if [] !in chunks {
      FramingRoundTrip(chunks, []);
      assert wire + [] == wire;
    }
  }
}
