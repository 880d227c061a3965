/** The relay's frame codec: type:u8 | stream_id:u24 | payload_length:u32 | payload. */
module Frames {
  import opened Octets
  import opened Outcomes

  const HEADER_SIZE := 8
  const MAX_PAYLOAD := 1024 * 1024
  const INITIAL_STREAM_WINDOW := 4 * 1024 * 1024
  const DATA_CHUNK := 64 * 1024
  const MAX_STREAM_ID := 0xFFFFFF
  const MAX_BATCH_FRAMES := 4096

  const OPEN: Byte := 0x01
  const DATA: Byte := 0x02
  const CLOSE: Byte := 0x03
  const WINDOW: Byte := 0x04
  const PONG: Byte := 0x06
  const HELLO: Byte := 0x10

  datatype Frame = Frame(kind: Byte, id: nat, payload: Bytes)

  datatype ParseError = TooManyFrames | Incomplete | Oversized | EmptyBatch

  /** A frame the 24-bit id and 32-bit length fields can carry, within a payload limit. */
  predicate Fits(f: Frame, maxPayload: nat) {
    f.id <= MAX_STREAM_ID && |f.payload| <= maxPayload
  }

  predicate AllFit(fs: seq<Frame>, maxPayload: nat) {
    forall i | 0 <= i < |fs| :: Fits(fs[i], maxPayload)
  }

  predicate IsBatch(fs: seq<Frame>, maxPayload: nat) {
    1 <= |fs| <= MAX_BATCH_FRAMES && AllFit(fs, maxPayload)
  }

  function PutId(id: nat): (b: Bytes)
    requires id <= MAX_STREAM_ID
    ensures |b| == 3
  {
    [id / 0x10000, id / 0x100 % 0x100, id % 0x100]
  }

  function Encoded(f: Frame): (b: Bytes)
    requires f.id <= MAX_STREAM_ID && |f.payload| < TWO_32
    ensures |b| == HEADER_SIZE + |f.payload|
  {
    [f.kind] + PutId(f.id) + PutUint32(|f.payload|) + f.payload
  }

  function EncodeAll(fs: seq<Frame>): Bytes
    requires AllFit(fs, MAX_PAYLOAD)
  {
    if fs == [] then [] else Encoded(fs[0]) + EncodeAll(fs[1..])
  }

  function HeaderId(b: Bytes): (id: nat)
    requires |b| >= HEADER_SIZE
    ensures id <= MAX_STREAM_ID
  {
    var b1: int, b2: int, b3: int := b[1], b[2], b[3];
    (b1 * 0x100 + b2) * 0x100 + b3
  }

  function HeaderLength(b: Bytes): (n: nat)
    requires |b| >= HEADER_SIZE
    ensures n < TWO_32
  {
    Uint32(b[4..8])
  }

  function FirstFrame(b: Bytes): (f: Frame)
    requires |b| >= HEADER_SIZE && HEADER_SIZE + HeaderLength(b) <= |b|
    ensures f.id <= MAX_STREAM_ID && |f.payload| == HeaderLength(b)
  {
    Frame(b[0], HeaderId(b), b[HEADER_SIZE..HEADER_SIZE + HeaderLength(b)])
  }

  function PayloadLimit(maxPayload: int): (limit: nat)
    ensures 0 < limit <= MAX_PAYLOAD
  {
    if maxPayload <= 0 || maxPayload > MAX_PAYLOAD then MAX_PAYLOAD else maxPayload
  }

  function Prepend(fs: seq<Frame>, r: Result<seq<Frame>, ParseError>): Result<seq<Frame>, ParseError> {
    match r
    case Ok(rest) => Ok(fs + rest)
    case Err(e) => Err(e)
  }

  lemma PrependOne(fs: seq<Frame>, f: Frame, r: Result<seq<Frame>, ParseError>)
    ensures Prepend(fs, Prepend([f], r)) == Prepend(fs + [f], r)
  {
    if r.Ok? {
      assert fs + ([f] + r.value) == (fs + [f]) + r.value;
    }
  }

  lemma PrependToNone(fs: seq<Frame>)
    ensures Prepend(fs, Ok([])) == Ok(fs)
    ensures forall e :: Prepend(fs, Err(e)) == Err(e)
  {
    assert fs + [] == fs;
  }

  lemma PrependNothing(r: Result<seq<Frame>, ParseError>)
    ensures Prepend([], r) == r
  {
    if r.Ok? {
      assert [] + r.value == r.value;
    }
  }

  /** What ParseAll makes of the remaining input once `count` frames have been read. */
  function ParseRest(input: Bytes, limit: nat, count: nat): (r: Result<seq<Frame>, ParseError>)
    requires count <= MAX_BATCH_FRAMES && limit <= MAX_PAYLOAD
    decreases |input|
  {
    if input == [] then Ok([])
    else if count == MAX_BATCH_FRAMES then Err(TooManyFrames)
    else if |input| < HEADER_SIZE then Err(Incomplete)
    else if HeaderLength(input) > limit then Err(Oversized)
    else if HEADER_SIZE + HeaderLength(input) > |input| then Err(Incomplete)
    else Prepend([FirstFrame(input)], ParseRest(input[HEADER_SIZE + HeaderLength(input)..], limit, count + 1))
  }

  function Parsed(input: Bytes, maxPayload: int): Result<seq<Frame>, ParseError> {
    if input == [] then Err(EmptyBatch) else ParseRest(input, PayloadLimit(maxPayload), 0)
  }

  /** frame.ParseAll: a loop that appends one frame and reslices the input. */
  method ParseAll(input: Bytes, maxPayload: int) returns (r: Result<seq<Frame>, ParseError>)
    ensures r == Parsed(input, maxPayload)
    ensures r.Ok? ==> IsBatch(r.value, PayloadLimit(maxPayload)) && EncodeAll(r.value) == input
  {
    hide FirstFrame, HeaderLength, EncodeAll, IsBatch, Prepend;
    var limit := PayloadLimit(maxPayload);
    var frames: seq<Frame> := [];
    var rest := input;
    PrependNothing(ParseRest(input, limit, 0));
    while rest != []
      invariant |frames| <= MAX_BATCH_FRAMES
      invariant frames == [] ==> rest == input
      invariant ParseRest(input, limit, 0) == Prepend(frames, ParseRest(rest, limit, |frames|))
      decreases |rest|
    {
      PrependToNone(frames);
      if |frames| == MAX_BATCH_FRAMES {
        return Err(TooManyFrames);
      }
      if |rest| < HEADER_SIZE {
        return Err(Incomplete);
      }
      var length := HeaderLength(rest);
      if length > limit {
        return Err(Oversized);
      }
      var full := HEADER_SIZE + length;
      if full > |rest| {
        return Err(Incomplete);
      }
      PrependOne(frames, FirstFrame(rest), ParseRest(rest[full..], limit, |frames| + 1));
      frames := frames + [FirstFrame(rest)];
      rest := rest[full..];
    }
    if frames == [] {
      return Err(EmptyBatch);
    }
    PrependToNone(frames);
    ParseIsCanonical(input, maxPayload);
    return Ok(frames);
  }

  /** frame.Encode fills a freshly allocated buffer. */
  method Encode(f: Frame) returns (buffer: array<Byte>)
    requires f.id <= MAX_STREAM_ID && |f.payload| < TWO_32
    ensures fresh(buffer) && buffer[..] == Encoded(f)
  {
    buffer := new Byte[HEADER_SIZE + |f.payload|](_ => 0);
    buffer[0] := f.kind;
    buffer[1], buffer[2], buffer[3] := f.id / 0x10000, f.id / 0x100 % 0x100, f.id % 0x100;
    var length := PutUint32(|f.payload|);
    buffer[4], buffer[5], buffer[6], buffer[7] := length[0], length[1], length[2], length[3];
    forall i | 0 <= i < |f.payload| {
      buffer[HEADER_SIZE + i] := f.payload[i];
    }
  }

  lemma HeaderOfEncoded(f: Frame, rest: Bytes)
    requires Fits(f, MAX_PAYLOAD)
    ensures HeaderLength(Encoded(f) + rest) == |f.payload|
    ensures FirstFrame(Encoded(f) + rest) == f
    ensures (Encoded(f) + rest)[HEADER_SIZE + |f.payload|..] == rest
  {
    var b := Encoded(f) + rest;
    assert b[4..8] == PutUint32(|f.payload|);
    Uint32InvertsPut(|f.payload|);
    var high := f.id / 0x100;
    assert high / 0x100 == f.id / 0x10000;
    assert b[1] == high / 0x100 && b[2] == high % 0x100 && b[3] == f.id % 0x100;
    assert b[HEADER_SIZE..HEADER_SIZE + |f.payload|] == f.payload;
  }

  lemma FirstFrameReencodes(b: Bytes)
    requires |b| >= HEADER_SIZE && HEADER_SIZE + HeaderLength(b) <= |b|
    ensures Encoded(FirstFrame(b)) == b[..HEADER_SIZE + HeaderLength(b)]
  {
    var f := FirstFrame(b);
    PutInvertsUint32(b[4..8]);
    var b1: int, b2: int, b3: int := b[1], b[2], b[3];
    assert f.id / 0x100 == b1 * 0x100 + b2 && f.id % 0x100 == b3;
    assert f.id / 0x10000 == b1;
    assert PutId(f.id) == b[1..4];
    assert b[..HEADER_SIZE + HeaderLength(b)] == [b[0]] + b[1..4] + b[4..8] + f.payload;
  }

  lemma {:induction false} EncodeAllAppend(a: seq<Frame>, b: seq<Frame>)
    requires AllFit(a, MAX_PAYLOAD) && AllFit(b, MAX_PAYLOAD)
    ensures AllFit(a + b, MAX_PAYLOAD)
    ensures EncodeAll(a + b) == EncodeAll(a) + EncodeAll(b)
  {
    hide Encoded;
    if a == [] {
      assert a + b == b;
    } else {
      assert (a + b)[1..] == a[1..] + b;
      EncodeAllAppend(a[1..], b);
    }
  }

  lemma EncodeAllCons(f: Frame, rest: seq<Frame>)
    requires Fits(f, MAX_PAYLOAD) && AllFit(rest, MAX_PAYLOAD)
    ensures EncodeAll([f] + rest) == Encoded(f) + EncodeAll(rest)
  {
    assert ([f] + rest)[1..] == rest;
  }

  lemma EncodeAllOne(f: Frame)
    requires Fits(f, MAX_PAYLOAD)
    ensures EncodeAll([f]) == Encoded(f)
  {
    assert [f][1..] == [];
  }

  lemma {:induction false} ParseRestOfEncoding(fs: seq<Frame>, limit: nat, count: nat)
    requires limit <= MAX_PAYLOAD && count + |fs| <= MAX_BATCH_FRAMES && AllFit(fs, limit)
    ensures ParseRest(EncodeAll(fs), limit, count) == Ok(fs)
  {
    if fs != [] {
      HeaderOfEncoded(fs[0], EncodeAll(fs[1..]));
      ParseRestOfEncoding(fs[1..], limit, count + 1);
      assert [fs[0]] + fs[1..] == fs;
    }
  }

  lemma ParseRestSplits(input: Bytes, limit: nat, count: nat) returns (f: Frame, rest: Bytes, tail: seq<Frame>)
    requires limit <= MAX_PAYLOAD && count <= MAX_BATCH_FRAMES && input != []
    requires ParseRest(input, limit, count).Ok?
    ensures Fits(f, limit) && |rest| < |input| && count < MAX_BATCH_FRAMES
    ensures ParseRest(rest, limit, count + 1) == Ok(tail)
    ensures ParseRest(input, limit, count).value == [f] + tail
    ensures input == Encoded(f) + rest
  {
    f, rest := FirstFrame(input), input[HEADER_SIZE + HeaderLength(input)..];
    tail := ParseRest(rest, limit, count + 1).value;
    FirstFrameReencodes(input);
  }

  lemma AllFitCons(f: Frame, tail: seq<Frame>, limit: nat)
    requires Fits(f, limit) && AllFit(tail, limit)
    ensures AllFit([f] + tail, limit)
  {
  }

  lemma {:induction false} ParseRestReencodes(input: Bytes, limit: nat, count: nat)
    requires limit <= MAX_PAYLOAD && count <= MAX_BATCH_FRAMES
    ensures var r := ParseRest(input, limit, count);
      r.Ok? ==> AllFit(r.value, limit) && count + |r.value| <= MAX_BATCH_FRAMES && EncodeAll(r.value) == input
    decreases |input|
  {
    hide Encoded, FirstFrame, HeaderLength;
    if input != [] && ParseRest(input, limit, count).Ok? {
      var f, rest, tail := ParseRestSplits(input, limit, count);
      ParseRestReencodes(rest, limit, count + 1);
      AllFitCons(f, tail, limit);
      EncodeAllCons(f, tail);
    }
  }

  /** Parsing inverts encoding on every batch of 1 to 4096 frames within the limit. */
  lemma ParseInvertsEncode(fs: seq<Frame>, maxPayload: int)
    requires IsBatch(fs, PayloadLimit(maxPayload))
    ensures Parsed(EncodeAll(fs), maxPayload) == Ok(fs)
  {
    ParseRestOfEncoding(fs, PayloadLimit(maxPayload), 0);
    assert |EncodeAll(fs)| >= |Encoded(fs[0])| >= HEADER_SIZE;
  }

  /** An accepted body is exactly the encoding of the frames returned. */
  lemma ParseIsCanonical(input: Bytes, maxPayload: int)
    ensures var r := Parsed(input, maxPayload);
      r.Ok? ==> IsBatch(r.value, PayloadLimit(maxPayload)) && EncodeAll(r.value) == input
  {
    ParseRestReencodes(input, PayloadLimit(maxPayload), 0);
  }

  /** What is wrong with `rest`, the bytes left after the longest readable run `done` of frames. */
  predicate FaultAt(done: seq<Frame>, rest: Bytes, limit: nat, e: ParseError) {
    match e
    case EmptyBatch => done == [] && rest == []
    case TooManyFrames => |done| == MAX_BATCH_FRAMES && rest != []
    case Oversized => |done| < MAX_BATCH_FRAMES && |rest| >= HEADER_SIZE && HeaderLength(rest) > limit
    case Incomplete =>
      && |done| < MAX_BATCH_FRAMES && rest != []
      && (|rest| < HEADER_SIZE || (HeaderLength(rest) <= limit && HEADER_SIZE + HeaderLength(rest) > |rest|))
  }

  lemma {:induction false} RestFault(input: Bytes, limit: nat, count: nat) returns (done: seq<Frame>, rest: Bytes)
    requires limit <= MAX_PAYLOAD && count <= MAX_BATCH_FRAMES
    requires ParseRest(input, limit, count).Err?
    ensures AllFit(done, limit) && EncodeAll(done) + rest == input
    ensures |done| + count <= MAX_BATCH_FRAMES && rest != []
    ensures var e := ParseRest(input, limit, count).error;
      match e
      case TooManyFrames => |done| + count == MAX_BATCH_FRAMES
      case _ => |done| + count < MAX_BATCH_FRAMES && FaultAt([], rest, limit, e)
    decreases |input|
  {
    if count == MAX_BATCH_FRAMES || |input| < HEADER_SIZE || HeaderLength(input) > limit
       || HEADER_SIZE + HeaderLength(input) > |input| {
      done, rest := [], input;
    } else {
      hide Encoded, EncodeAll, FirstFrame, HeaderLength;
      var full := HEADER_SIZE + HeaderLength(input);
      var d;
      d, rest := RestFault(input[full..], limit, count + 1);
      done := [FirstFrame(input)] + d;
      FirstFrameReencodes(input);
      EncodeAllCons(FirstFrame(input), d);
      assert input == input[..full] + input[full..];
    }
  }

  /** Every rejection names the first fault: a run of whole frames, then bytes with that fault. */
  lemma RejectionNamesFirstFault(input: Bytes, maxPayload: int) returns (done: seq<Frame>, rest: Bytes)
    requires Parsed(input, maxPayload).Err?
    ensures AllFit(done, PayloadLimit(maxPayload)) && EncodeAll(done) + rest == input
    ensures FaultAt(done, rest, PayloadLimit(maxPayload), Parsed(input, maxPayload).error)
  {
    if input == [] {
      done, rest := [], [];
    } else {
      done, rest := RestFault(input, PayloadLimit(maxPayload), 0);
    }
  }

  /** Frame boundaries are unambiguous: a byte prefix made of whole frames is a prefix of the frames. */
  lemma {:induction false} EncodedPrefixIsFramePrefix(a: seq<Frame>, b: seq<Frame>)
    requires AllFit(a, MAX_PAYLOAD) && AllFit(b, MAX_PAYLOAD)
    requires EncodeAll(a) <= EncodeAll(b)
    ensures a <= b
  {
    hide Encoded, FirstFrame, HeaderLength;
    if a != [] {
      assert |EncodeAll(b)| >= |EncodeAll(a)| >= HEADER_SIZE;
      var tail := EncodeAll(b)[|EncodeAll(a)|..];
      assert EncodeAll(b) == Encoded(a[0]) + (EncodeAll(a[1..]) + tail);
      HeaderOfEncoded(a[0], EncodeAll(a[1..]) + tail);
      HeaderOfEncoded(b[0], EncodeAll(b[1..]));
      EncodedPrefixIsFramePrefix(a[1..], b[1..]);
      assert a == [a[0]] + a[1..] && b == [b[0]] + b[1..];
    }
  }

  // WINDOW payloads and per-frame shape.

  function WindowPayload(amount: nat): Bytes
    requires amount < TWO_32
  {
    PutUint32(amount)
  }

  /** The delta a WINDOW payload carries; None is the source's error (and a zero amount). */
  function WindowAmount(payload: Bytes): Option<nat> {
    if |payload| != 4 || Uint32(payload) == 0 then None else Some(Uint32(payload))
  }

  function Amount(payload: Bytes): (n: nat)
    ensures n < TWO_32
  {
    match WindowAmount(payload)
    case Some(n) => n
    case None => 0
  }

  lemma WindowRoundTrip(amount: nat, payload: Bytes)
    requires amount < TWO_32
    ensures Amount(WindowPayload(amount)) == amount
    ensures WindowAmount(WindowPayload(amount)).None? <==> amount == 0
    ensures WindowAmount(payload).Some? ==> WindowPayload(Amount(payload)) == payload
  {
    Uint32InvertsPut(amount);
    if |payload| == 4 {
      PutInvertsUint32(payload);
    }
  }

  predicate ValidClientShape(f: Frame) {
    if f.id == 0 then f.kind == PONG && |f.payload| <= 64
    else if f.kind == OPEN || f.kind == CLOSE then f.payload == []
    else if f.kind == DATA then f.payload != []
    else f.kind == WINDOW && WindowAmount(f.payload).Some?
  }

  /** What a client can say, and nothing else: the echo is the answer to a ping. */
  datatype ClientMessage =
    | SayOpen(id: nat)
    | SayData(id: nat, bytes: Bytes)
    | SayCredit(id: nat, amount: nat)
    | SayClose(id: nat)
    | SayPong(echo: Bytes)

  /** Streams are numbered from one, DATA says something, credit is positive, and an echo is short. */
  predicate Sayable(m: ClientMessage) {
    match m
    case SayOpen(id) => id > 0
    case SayData(id, bytes) => id > 0 && |bytes| > 0
    case SayCredit(id, amount) => id > 0 && 0 < amount <= MAX_UINT32
    case SayClose(id) => id > 0
    case SayPong(echo) => |echo| <= 64
  }

  function FrameOf(m: ClientMessage): Frame
    requires Sayable(m)
  {
    match m
    case SayOpen(id) => Frame(OPEN, id, [])
    case SayData(id, bytes) => Frame(DATA, id, bytes)
    case SayCredit(id, amount) => Frame(WINDOW, id, PutUint32(amount))
    case SayClose(id) => Frame(CLOSE, id, [])
    case SayPong(echo) => Frame(PONG, 0, echo)
  }

  /** The shape check lets through exactly the frames that say one of these, and each says only one. */
  lemma ShapedIffSayable(f: Frame)
    ensures ValidClientShape(f) <==> exists m :: Sayable(m) && FrameOf(m) == f
    ensures forall m, n | Sayable(m) && Sayable(n) && FrameOf(m) == f && FrameOf(n) == f :: m == n
  {
    hide PutUint32, Uint32;
    if ValidClientShape(f) {
      var m :=
        if f.id == 0 then SayPong(f.payload)
        else if f.kind == OPEN then SayOpen(f.id)
        else if f.kind == CLOSE then SayClose(f.id)
        else if f.kind == DATA then SayData(f.id, f.payload)
        else SayCredit(f.id, Uint32(f.payload));
      if m.SayCredit? {
        PutInvertsUint32(f.payload);
      }
      assert Sayable(m) && FrameOf(m) == f;
    }
    forall m | Sayable(m) && FrameOf(m) == f
      ensures ValidClientShape(f)
      ensures m.SayCredit? ==> m.amount == Uint32(f.payload)
    {
      if m.SayCredit? {
        Uint32InvertsPut(m.amount);
      }
    }
  }

  predicate AllClientShaped(fs: seq<Frame>) {
    forall i | 0 <= i < |fs| :: ValidClientShape(fs[i])
  }

  predicate IsHello(input: Bytes) {
    var r := Parsed(input, MAX_PAYLOAD);
    && r.Ok? && |r.value| == 1
    && r.value[0] == Frame(HELLO, 0, [1])
  }

  /** HELLO has a single spelling on the wire. */
  lemma HelloIsOneBytestring(input: Bytes)
    ensures IsHello(input) <==> input == [0x10, 0, 0, 0, 0, 0, 0, 1, 1]
  {
    var hello := Frame(HELLO, 0, [1]);
    assert Encoded(hello) == [0x10, 0, 0, 0, 0, 0, 0, 1, 1];
    EncodeAllOne(hello);
    if IsHello(input) {
      ParseIsCanonical(input, MAX_PAYLOAD);
    }
    ParseInvertsEncode([hello], MAX_PAYLOAD);
  }
}
