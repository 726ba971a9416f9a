/** The frames both devices exchange: an eight-byte size, then that many bytes of payload. */
module Framing {
  import opened QtTypes
  import opened DataStream

  const HEADER := 8

  /** A payload a qint64 can count. */
  ghost predicate FitsFrame(payload: seq<Byte>) {
    |payload| < 0x8000_0000_0000_0000
  }

  function Frame(payload: seq<Byte>): seq<Byte>
    requires FitsFrame(payload)
  {
    PutI64(|payload|) + payload
  }

  /** The payload size a header announces; the readers take a negative one as empty. */
  function Announced(s: seq<Byte>): nat
    requires |s| >= HEADER
  {
    var size := GetI64(s[..HEADER]);
    if size < 0 then 0 else size
  }

  predicate HasFrame(s: seq<Byte>) {
    |s| >= HEADER && HEADER + Announced(s) <= |s|
  }

  function FirstFrame(s: seq<Byte>): seq<Byte>
    requires HasFrame(s)
  {
    s[HEADER..HEADER + Announced(s)]
  }

  function AfterFrame(s: seq<Byte>): (rest: seq<Byte>)
    requires HasFrame(s)
    ensures |rest| < |s|
  {
    s[HEADER + Announced(s)..]
  }

  /** The plain parser of a byte stream: the payloads of its complete frames ... */
  function Frames(s: seq<Byte>): seq<seq<Byte>>
    decreases |s|
  {
    if HasFrame(s) then [FirstFrame(s)] + Frames(AfterFrame(s)) else []
  }

  /** ... and the bytes after the last of them. */
  function Residue(s: seq<Byte>): (r: seq<Byte>)
    ensures |r| <= |s| && !HasFrame(r)
    decreases |s|
  {
    if HasFrame(s) then Residue(AfterFrame(s)) else s
  }

  lemma FrameFirst(payload: seq<Byte>, rest: seq<Byte>)
    requires FitsFrame(payload)
    ensures var s := Frame(payload) + rest;
      HasFrame(s) && FirstFrame(s) == payload && AfterFrame(s) == rest
  {
    hide PutI64, GetI64;
    var s := Frame(payload) + rest;
    assert s[..HEADER] == PutI64(|payload|);
    I64RoundTrip(|payload|);
  }

  lemma FrameExtends(s: seq<Byte>, more: seq<Byte>)
    requires HasFrame(s)
    ensures HasFrame(s + more)
    ensures FirstFrame(s + more) == FirstFrame(s) && AfterFrame(s + more) == AfterFrame(s) + more
  {
    hide GetI64;
    assert (s + more)[..HEADER] == s[..HEADER];
  }

  /** The parser is incremental: bytes may be parsed as they come. */
  lemma {:induction false} Incremental(s: seq<Byte>, more: seq<Byte>)
    ensures Frames(s + more) == Frames(s) + Frames(Residue(s) + more)
    ensures Residue(s + more) == Residue(Residue(s) + more)
    decreases |s|
  {
    hide HasFrame, FirstFrame, AfterFrame;
    if HasFrame(s) {
      FrameExtends(s, more);
      Incremental(AfterFrame(s), more);
      var tail := Frames(Residue(s) + more);
      assert [FirstFrame(s)] + (Frames(AfterFrame(s)) + tail) == [FirstFrame(s)] + Frames(AfterFrame(s)) + tail;
    } else {
      assert [] + Frames(s + more) == Frames(s + more);
    }
  }

  function Flatten(chunks: seq<seq<Byte>>): seq<Byte> {
    if chunks == [] then [] else chunks[0] + Flatten(chunks[1..])
  }

  /** The frames a reader dispatches when the chunks arrive one by one. */
  function FramesByChunk(residue: seq<Byte>, chunks: seq<seq<Byte>>): seq<seq<Byte>>
    decreases |chunks|
  {
    if chunks == [] then []
    else
      Frames(residue + chunks[0]) + FramesByChunk(Residue(residue + chunks[0]), chunks[1..])
  }

  function ResidueByChunk(residue: seq<Byte>, chunks: seq<seq<Byte>>): seq<Byte>
    decreases |chunks|
  {
    if chunks == [] then residue
    else ResidueByChunk(Residue(residue + chunks[0]), chunks[1..])
  }

  /** However the bytes are cut, the frames dispatched and the bytes left over are the same. */
  lemma {:induction false} ChunksDoNotMatter(residue: seq<Byte>, chunks: seq<seq<Byte>>)
    requires !HasFrame(residue)
    ensures FramesByChunk(residue, chunks) == Frames(residue + Flatten(chunks))
    ensures ResidueByChunk(residue, chunks) == Residue(residue + Flatten(chunks))
    decreases |chunks|
  {
    hide HasFrame, FirstFrame, AfterFrame;
    if chunks == [] {
      assert residue + [] == residue;
    } else {
      var s, tail := residue + chunks[0], Flatten(chunks[1..]);
      assert residue + (chunks[0] + tail) == s + tail;
      Incremental(s, tail);
      ChunksDoNotMatter(Residue(s), chunks[1..]);
    }
  }

  function Wire(payloads: seq<seq<Byte>>): seq<Byte>
    requires forall p <- payloads :: FitsFrame(p)
  {
    if payloads == [] then [] else Frame(payloads[0]) + Wire(payloads[1..])
  }

  /** Frames are dispatched as written, in order, nothing missing and nothing left over. */
  lemma {:induction false} WireRoundTrip(payloads: seq<seq<Byte>>)
    requires forall p <- payloads :: FitsFrame(p)
    ensures Frames(Wire(payloads)) == payloads && Residue(Wire(payloads)) == []
  {
    hide Frame, FirstFrame, AfterFrame;
    if payloads != [] {
      FrameFirst(payloads[0], Wire(payloads[1..]));
      WireRoundTrip(payloads[1..]);
      assert payloads == [payloads[0]] + payloads[1..];
    }
  }

  /** The same for a stream that arrives in any chunks, to a reader in its initial state. */
  lemma AnyChunkingRoundTrip(payloads: seq<seq<Byte>>, chunks: seq<seq<Byte>>)
    requires forall p <- payloads :: FitsFrame(p)
    requires Flatten(chunks) == Wire(payloads)
    ensures FramesByChunk([], chunks) == payloads && ResidueByChunk([], chunks) == []
  {
    ChunksDoNotMatter([], chunks);
    assert [] + Flatten(chunks) == Wire(payloads);
    WireRoundTrip(payloads);
  }

  // ------------------------------------------------- the state of a reader

  /** The bytes a reader has been given and not yet dispatched, header included. */
  function Pending(totalSize: Int64, buffer: seq<Byte>, available: seq<Byte>): seq<Byte> {
    if totalSize == 0 then available else PutI64(totalSize) + buffer + available
  }

  /** Between frames, or part of the way into one. */
  ghost predicate Waiting(totalSize: Int64, read: int, buffer: seq<Byte>) {
    totalSize == 0 || 0 <= read == |buffer| < totalSize
  }

  /** A header just read, and nothing of its frame yet. */
  lemma HeaderRead(available: seq<Byte>)
    requires |available| >= HEADER
    ensures PutI64(GetI64(available[..HEADER])) + available[HEADER..] == available
  {
    I64Onto(available[..HEADER]);
    assert available == available[..HEADER] + available[HEADER..];
  }

  /** Enough bytes: the frame in hand is the first frame of the pending bytes. */
  lemma FrameInHand(totalSize: Int64, buffer: seq<Byte>, available: seq<Byte>)
    requires |buffer| == if totalSize < 0 then 0 else totalSize
    ensures var s := PutI64(totalSize) + buffer + available;
      HasFrame(s) && FirstFrame(s) == buffer && AfterFrame(s) == available
  {
    hide PutI64, GetI64;
    var s := PutI64(totalSize) + buffer + available;
    assert s[..HEADER] == PutI64(totalSize);
    I64RoundTrip(totalSize);
  }

  /** Not enough: the pending bytes hold no complete frame. */
  lemma FrameShort(totalSize: Int64, buffer: seq<Byte>)
    requires |buffer| < totalSize
    ensures !HasFrame(PutI64(totalSize) + buffer + [])
  {
    hide PutI64, GetI64;
    var s := PutI64(totalSize) + buffer + [];
    assert s[..HEADER] == PutI64(totalSize);
    I64RoundTrip(totalSize);
  }

  /** Where the reading loop stops, no complete frame is pending. */
  lemma NothingPending(totalSize: Int64, read: int, buffer: seq<Byte>, available: seq<Byte>)
    requires Waiting(totalSize, read, buffer)
    requires available == [] || (totalSize == 0 && |available| < HEADER)
    ensures !HasFrame(Pending(totalSize, buffer, available))
  {
    hide PutI64, GetI64;
    if totalSize != 0 {
      FrameShort(totalSize, buffer);
    }
  }

  // ------------------------------------------------------------ devices

  /** QIODevice::read: up to `max` bytes, none for a negative `max`. */
  function Take(available: seq<Byte>, max: int): nat {
    if max < 0 then 0 else if max < |available| then max else |available|
  }
}
