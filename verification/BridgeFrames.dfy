/** The bridge's own reader of frame batches (splitFrames), compared with the relay's. */
module BridgeFrames {
  import opened Octets
  import opened Outcomes
  import opened Frames

  /** One element of splitFrames' result: the header fields it reads and the frame's bytes. */
  datatype Piece = Piece(kind: Byte, id: nat, data: Bytes)

  predicate NoEmptyData(fs: seq<Frame>) {
    forall i | 0 <= i < |fs| :: fs[i].kind == DATA ==> fs[i].payload != []
  }

  function Pieces(fs: seq<Frame>): (ps: seq<Piece>)
    requires AllFit(fs, MAX_PAYLOAD)
    ensures |ps| == |fs|
  {
    seq(|fs|, i requires 0 <= i < |fs| => Piece(fs[i].kind, fs[i].id, Encoded(fs[i])))
  }

  /** Accepted by the relay's parser at the protocol's payload limit, with no empty DATA frame. */
  predicate RelayAccepts(value: Bytes) {
    var r := Parsed(value, MAX_PAYLOAD);
    r.Ok? && NoEmptyData(r.value)
  }

  /** The loop has read the frames `read` from the first `offset` bytes. */
  ghost predicate ReadSoFar(value: Bytes, offset: nat, read: seq<Frame>, pieces: seq<Piece>) {
    && offset <= |value| && |read| <= MAX_BATCH_FRAMES
    && (read == [] <==> offset == 0)
    && AllFit(read, MAX_PAYLOAD) && NoEmptyData(read) && pieces == Pieces(read)
    && ParseRest(value, MAX_PAYLOAD, 0) == Prepend(read, ParseRest(value[offset..], MAX_PAYLOAD, |read|))
  }

  lemma StartReading(value: Bytes)
    ensures ReadSoFar(value, 0, [], [])
  {
    PrependNothing(ParseRest(value, MAX_PAYLOAD, 0));
    assert value[0..] == value;
  }

  lemma ReadOneMore(value: Bytes, offset: nat, read: seq<Frame>, pieces: seq<Piece>)
    requires ReadSoFar(value, offset, read, pieces) && |read| < MAX_BATCH_FRAMES
    requires |value| - offset >= HEADER_SIZE
    requires var rest := value[offset..];
      HeaderLength(rest) <= MAX_PAYLOAD && HEADER_SIZE + HeaderLength(rest) <= |rest|
    requires value[offset] == DATA ==> HeaderLength(value[offset..]) > 0
    ensures var rest := value[offset..];
      var end := offset + HEADER_SIZE + HeaderLength(rest);
      ReadSoFar(value, end, read + [FirstFrame(rest)],
                pieces + [Piece(rest[0], HeaderId(rest), value[offset..end])])
  {
    hide Encoded, HeaderId, HeaderLength;
    var rest := value[offset..];
    var f, end := FirstFrame(rest), offset + HEADER_SIZE + HeaderLength(rest);
    var tail := ParseRest(value[end..], MAX_PAYLOAD, |read| + 1);
    assert rest[HEADER_SIZE + HeaderLength(rest)..] == value[end..];
    if tail.Ok? {
      assert read + ([f] + tail.value) == (read + [f]) + tail.value;
    }
    FirstFrameReencodes(rest);
    assert value[offset..end] == rest[..HEADER_SIZE + HeaderLength(rest)];
    assert Pieces(read + [f]) == Pieces(read) + [Piece(f.kind, f.id, Encoded(f))];
  }

  lemma EmptyDataRefused(value: Bytes, offset: nat, read: seq<Frame>, pieces: seq<Piece>)
    requires ReadSoFar(value, offset, read, pieces) && |read| < MAX_BATCH_FRAMES
    requires |value| - offset >= HEADER_SIZE && value[offset] == DATA && HeaderLength(value[offset..]) == 0
    ensures !RelayAccepts(value)
  {
    hide Encoded, HeaderId, HeaderLength;
    var whole := Parsed(value, MAX_PAYLOAD);
    if whole.Ok? {
      assert whole.value[|read|] == FirstFrame(value[offset..]);
    }
  }

  /**
   * The bridge accepts exactly what the relay's parser accepts minus empty DATA, and cuts it into
   * the same frames. None is the thrown error.
   */
  method SplitFrames(value: Bytes) returns (result: Option<seq<Piece>>)
    ensures result.Some? <==> RelayAccepts(value)
    ensures result.Some? ==>
      && AllFit(Parsed(value, MAX_PAYLOAD).value, MAX_PAYLOAD)
      && result.value == Pieces(Parsed(value, MAX_PAYLOAD).value)
  {
    hide Encoded, HeaderId, HeaderLength;
    var pieces: seq<Piece> := [];
    var offset := 0;
    ghost var read: seq<Frame> := [];
    StartReading(value);
    while offset < |value|
      invariant 0 <= offset
      invariant ReadSoFar(value, offset, read, pieces)
    {
      if |value| - offset < HEADER_SIZE || |pieces| >= MAX_BATCH_FRAMES {
        return None;
      }
      var rest := value[offset..];
      var size := HeaderLength(rest);
      var end := offset + HEADER_SIZE + size;
      if rest[0] == DATA && size == 0 {
        EmptyDataRefused(value, offset, read, pieces);
        return None;
      }
      if size > MAX_PAYLOAD || end > |value| {
        return None;
      }
      ReadOneMore(value, offset, read, pieces);
      pieces := pieces + [Piece(rest[0], HeaderId(rest), value[offset..end])];
      read := read + [FirstFrame(rest)];
      offset := end;
    }
    if pieces == [] {
      return None;
    }
    assert read + [] == read;
    return Some(pieces);
  }

  /** Cutting loses nothing: the pieces' bytes put end to end are the bridge message again. */
  lemma {:induction false} PiecesRejoin(fs: seq<Frame>)
    requires AllFit(fs, MAX_PAYLOAD)
    ensures Flatten(seq(|fs|, i requires 0 <= i < |fs| => Pieces(fs)[i].data)) == EncodeAll(fs)
  {
    var parts := seq(|fs|, i requires 0 <= i < |fs| => Pieces(fs)[i].data);
    if fs != [] {
      PiecesRejoin(fs[1..]);
      assert parts[1..] == seq(|fs| - 1, i requires 0 <= i < |fs| - 1 => Pieces(fs[1..])[i].data);
    }
  }
}
