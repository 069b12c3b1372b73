/** The Host IPC frame codec (internal/hostipc/frame.go): length-prefixed JSON and
    attachment frames over a byte stream. */
module Frames {
  import opened Wire

  const MAX_JSON_FRAME := 1024 * 1024
  const MAX_ATTACHMENT_FRAME := 16 * 1024 * 1024

  /** Bit 31 of the header marks an attachment. */
  const FLAG := 0x8000_0000
  const WORD := 0x1_0000_0000

  datatype Kind = JSON | Attachment

  /** Inbound bounds; a bound of zero or less selects the default. */
  datatype Limits = Limits(maxJSON: int, maxAttachment: int)

  function Bound(lim: Limits, kind: Kind): (max: int)
    ensures max > 0
    ensures kind == JSON ==> if lim.maxJSON > 0 then max == lim.maxJSON else max == 1_048_576
    ensures kind == Attachment ==> if lim.maxAttachment > 0 then max == lim.maxAttachment else max == 16_777_216
  {
    match kind
    case JSON => if lim.maxJSON <= 0 then MAX_JSON_FRAME else lim.maxJSON
    case Attachment => if lim.maxAttachment <= 0 then MAX_ATTACHMENT_FRAME else lim.maxAttachment
  }

  /** Limits whose frames all have a length that fits beside the flag. */
  predicate Sane(lim: Limits) {
    Bound(lim, JSON) < FLAG && Bound(lim, Attachment) < FLAG
  }

  // ------------------------------------------------------------------------- headers

  /** Four bytes, most significant first. */
  function PutWord(v: nat): (b: Bytes)
    requires v < WORD
    ensures |b| == 4
  {
    [(v / 0x100_0000) as Byte, (v / 0x1_0000 % 0x100) as Byte, (v / 0x100 % 0x100) as Byte, (v % 0x100) as Byte]
  }

  function GetWord(b: Bytes): (v: nat)
    requires |b| == 4
    ensures v < WORD
  {
    b[0] as int * 0x100_0000 + b[1] as int * 0x1_0000 + b[2] as int * 0x100 + b[3] as int
  }

  lemma WordRoundTrip(v: nat)
    requires v < WORD
    ensures GetWord(PutWord(v)) == v
  {
    var a := v / 0x100;
    var b := a / 0x100;
    var c := b / 0x100;
    assert v / 0x1_0000 == b && v / 0x100_0000 == c && c < 0x100;
    assert v == a * 0x100 + v % 0x100;
    assert a == b * 0x100 + a % 0x100;
    assert b == c * 0x100 + b % 0x100;
  }

  lemma WordReencode(b: Bytes)
    requires |b| == 4
    ensures PutWord(GetWord(b)) == b
  {
    var v := GetWord(b);
    var low := b[1] as int * 0x1_0000 + b[2] as int * 0x100 + b[3] as int;
    assert v / 0x100_0000 == b[0] as int;
    assert v / 0x1_0000 == b[0] as int * 0x100 + b[1] as int;
    assert v / 0x100 == b[0] as int * 0x1_0000 + b[1] as int * 0x100 + b[2] as int;
  }

  /** The header written for a payload of `n` bytes: the length in 32 bits, with the
      flag set for an attachment. */
  function Header(kind: Kind, n: nat): (h: nat)
    ensures h < WORD
  {
    match kind
    case JSON => n % WORD
    case Attachment => n % FLAG + FLAG
  }

  function HeaderKind(h: nat): Kind {
    if h >= FLAG then Attachment else JSON
  }

  function HeaderLength(h: nat): nat {
    h % FLAG
  }

  /** A header gives back what was written if and only if the length needs 31 bits. */
  lemma HeaderRoundTripIff(kind: Kind, n: nat)
    ensures HeaderKind(Header(kind, n)) == kind && HeaderLength(Header(kind, n)) == n <==> n < FLAG
  {
    if n < FLAG {
      assert n % WORD == n && n % FLAG == n;
      assert (n + FLAG) % FLAG == n;
    } else {
      assert HeaderLength(Header(kind, n)) < FLAG;
    }
  }

  lemma HeaderReencode(h: nat)
    requires h < WORD
    ensures Header(HeaderKind(h), HeaderLength(h)) == h && HeaderLength(h) < FLAG
  {
    if h >= FLAG {
      assert h % FLAG == h - FLAG;
    }
  }

  // -------------------------------------------------------------------------- frames

  datatype Frame = JSONFrame(payload: Bytes) | AttachmentFrame(meta: Bytes, data: Bytes)

  function KindOf(f: Frame): Kind {
    if f.JSONFrame? then JSON else Attachment
  }

  /** The bytes after the header. */
  function Payload(f: Frame): Bytes {
    match f
    case JSONFrame(payload) => payload
    case AttachmentFrame(meta, data) => PutWord(|meta| % WORD) + meta + data
  }

  function Encode(f: Frame): Bytes {
    PutWord(Header(KindOf(f), |Payload(f)|)) + Payload(f)
  }

  /** The number four bytes stand for, most significant first. */
  ghost predicate Spells(b: Bytes, v: nat) {
    |b| == 4 && b[0] as int * 16_777_216 + b[1] as int * 65_536 + b[2] as int * 256 + b[3] as int == v
  }

  /** The layout on the wire: the length of what follows, plus 2^31 for an attachment; then
      a JSON payload, or the length of the meta block, the block and the data. */
  lemma FrameLayout(f: Frame)
    requires |Payload(f)| < 0x8000_0000
    ensures 4 <= |Encode(f)|
    ensures Spells(Encode(f)[..4], |Encode(f)| - 4 + if f.AttachmentFrame? then 0x8000_0000 else 0)
    ensures f.JSONFrame? ==> Encode(f)[4..] == f.payload
    ensures f.AttachmentFrame? ==>
      8 <= |Encode(f)| && Spells(Encode(f)[4..8], |f.meta|) && Encode(f)[8..] == f.meta + f.data
  {
    var p := Payload(f);
    var h := PutWord(Header(KindOf(f), |p|));
    assert |p| % WORD == |p| && |p| % FLAG == |p|;
    WordRoundTrip(Header(KindOf(f), |p|));
    assert Encode(f)[..4] == h && Encode(f)[4..] == p;
    if f.AttachmentFrame? {
      assert |f.meta| % WORD == |f.meta|;
      WordRoundTrip(|f.meta|);
      assert Encode(f)[4..8] == PutWord(|f.meta|);
      assert p[4..] == f.meta + f.data && Encode(f)[8..] == p[4..];
    }
  }

  /** The frames a writer accepts under `lim`. */
  predicate Sendable(f: Frame, lim: Limits) {
    && 1 <= |Payload(f)| <= Bound(lim, KindOf(f))
    && (f.AttachmentFrame? ==> f.meta != [])
  }

  datatype ReadError = EOF | UnexpectedEOF | FrameLimit | InvalidRequest

  datatype Decoded = Decoded(result: Result<Frame, ReadError>, rest: Bytes)

  /** One frame off the front of `x`. */
  function Decode(x: Bytes, lim: Limits): Decoded {
    if x == [] then Decoded(Err(EOF), [])
    else if |x| < 4 then Decoded(Err(UnexpectedEOF), [])
    else
      var h := GetWord(x[..4]);
      DecodeBody(HeaderKind(h), HeaderLength(h), x[4..], lim)
  }

  function DecodeBody(kind: Kind, n: nat, y: Bytes, lim: Limits): Decoded {
    if n == 0 || n > Bound(lim, kind) then Decoded(Err(FrameLimit), y)
    else if |y| < n then Decoded(Err(UnexpectedEOF), [])
    else Decoded(Parse(kind, y[..n]), y[n..])
  }

  function Parse(kind: Kind, buf: Bytes): Result<Frame, ReadError> {
    if kind == JSON then Ok(JSONFrame(buf))
    else if |buf| < 4 then Err(InvalidRequest)
    else
      var m := GetWord(buf[..4]);
      if m == 0 || m > |buf| - 4 then Err(InvalidRequest)
      else Ok(AttachmentFrame(buf[4..4 + m], buf[4 + m..]))
  }

  lemma ParsePayload(f: Frame)
    requires |Payload(f)| < FLAG && (f.AttachmentFrame? ==> f.meta != [])
    ensures Parse(KindOf(f), Payload(f)) == Ok(f)
  {
    match f
    case JSONFrame(_) =>
    case AttachmentFrame(meta, data) =>
      var m := |meta|;
      assert m % WORD == m;
      WordRoundTrip(m);
      var buf := PutWord(m) + meta + data;
      assert buf[..4] == PutWord(m);
      assert buf[4..4 + m] == meta;
      assert buf[4 + m..] == data;
  }

  lemma ParseReencode(kind: Kind, buf: Bytes)
    requires Parse(kind, buf).Ok?
    ensures Payload(Parse(kind, buf).value) == buf && KindOf(Parse(kind, buf).value) == kind
  {
    if kind == Attachment {
      var m := GetWord(buf[..4]);
      WordReencode(buf[..4]);
      assert m % WORD == m;
      assert buf == buf[..4] + buf[4..4 + m] + buf[4 + m..];
    }
  }

  lemma DecodeParts(h: Bytes, y: Bytes, lim: Limits)
    requires |h| == 4
    ensures Decode(h + y, lim) == DecodeBody(HeaderKind(GetWord(h)), HeaderLength(GetWord(h)), y, lim)
  {
    assert (h + y)[..4] == h && (h + y)[4..] == y;
  }

  /** Whatever the limits, an accepted frame reads back as itself, leaving exactly what
      followed it, if and only if its length fits beside the flag. */
  lemma FrameRoundTripIff(f: Frame, lim: Limits, tail: Bytes)
    requires Sendable(f, lim)
    ensures Decode(Encode(f) + tail, lim) == Decoded(Ok(f), tail) <==> |Payload(f)| < FLAG
  {
    var p, kind := Payload(f), KindOf(f);
    var h := Header(kind, |p|);
    assert Encode(f) + tail == PutWord(h) + (p + tail);
    DecodeParts(PutWord(h), p + tail, lim);
    WordRoundTrip(h);
    HeaderRoundTripIff(kind, |p|);
    if |p| < FLAG {
      assert (p + tail)[..|p|] == p && (p + tail)[|p|..] == tail;
      ParsePayload(f);
    } else {
      RestIsLonger(HeaderKind(h), HeaderLength(h), p + tail, lim, |tail|);
    }
  }

  /** Under limits of 2^31 a writer accepts a JSON payload of that length, and it does not
      read back. */
  lemma OversizedFrameMisread(tail: Bytes) returns (f: Frame, lim: Limits)
    ensures f.JSONFrame? && |f.payload| == FLAG && Sendable(f, lim)
    ensures Decode(Encode(f) + tail, lim) != Decoded(Ok(f), tail)
  {
    lim := Limits(FLAG, FLAG);
    f := JSONFrame(seq(FLAG, i => 0));
    FrameRoundTripIff(f, lim, tail);
  }

  lemma RestIsLonger(kind: Kind, n: nat, y: Bytes, lim: Limits, k: nat)
    requires n + k < |y|
    ensures DecodeBody(kind, n, y, lim).result.Ok? ==> |DecodeBody(kind, n, y, lim).rest| > k
  {
  }

  /** Encoding any frame that was read reproduces the bytes it was read from. */
  lemma ReencodeConsumed(x: Bytes, lim: Limits)
    requires Decode(x, lim).result.Ok?
    ensures var d := Decode(x, lim); Encode(d.result.value) + d.rest == x && Sendable(d.result.value, lim)
  {
    var h, y := GetWord(x[..4]), x[4..];
    var kind, n := HeaderKind(h), HeaderLength(h);
    ParseReencode(kind, y[..n]);
    HeaderReencode(h);
    WordReencode(x[..4]);
    assert x == x[..4] + (y[..n] + y[n..]);
    assert x[..4] + y[..n] + y[n..] == x[..4] + (y[..n] + y[n..]);
  }

  // -------------------------------------------------------------------- frame streams

  function EncodeAll(frames: seq<Frame>): Bytes {
    if frames == [] then [] else Encode(frames[0]) + EncodeAll(frames[1..])
  }

  /** Reading until something other than a frame comes. */
  datatype Session = Session(frames: seq<Frame>, end: ReadError)

  function ReadAll(x: Bytes, lim: Limits): Session
    decreases |x|
  {
    var d := Decode(x, lim);
    match d.result
    case Err(e) => Session([], e)
    case Ok(f) =>
      FrameTakesBytes(x, lim);
      var more := ReadAll(d.rest, lim);
      Session([f] + more.frames, more.end)
  }

  /** Every frame takes bytes off the stream. */
  lemma FrameTakesBytes(x: Bytes, lim: Limits)
    ensures Decode(x, lim).result.Ok? ==> |Decode(x, lim).rest| < |x|
  {
  }

  /** Frames written one after another, with anything behind them, read back as exactly
      those frames, and reading goes on with exactly what was behind. */
  lemma {:induction false} StreamRoundTrip(frames: seq<Frame>, lim: Limits, tail: Bytes)
    requires Sane(lim) && forall i :: 0 <= i < |frames| ==> Sendable(frames[i], lim)
    ensures var after := ReadAll(tail, lim);
      ReadAll(EncodeAll(frames) + tail, lim) == Session(frames + after.frames, after.end)
    decreases |frames|
  {
    var after := ReadAll(tail, lim);
    if frames == [] {
      assert EncodeAll(frames) + tail == tail;
      assert frames + after.frames == after.frames;
    } else {
      var f, more := frames[0], frames[1..];
      Assoc(Encode(f), EncodeAll(more), tail);
      StreamRoundTrip(more, lim, tail);
      ReadFirst(f, lim, EncodeAll(more) + tail);
      FirstOf(frames, after.frames);
    }
  }

  lemma ReadFirst(f: Frame, lim: Limits, behind: Bytes)
    requires Sane(lim) && Sendable(f, lim)
    ensures var more := ReadAll(behind, lim);
      ReadAll(Encode(f) + behind, lim) == Session([f] + more.frames, more.end)
  {
    FrameRoundTripIff(f, lim, behind);
  }

  lemma Assoc(a: Bytes, b: Bytes, c: Bytes)
    ensures (a + b) + c == a + (b + c)
  {
  }

  lemma FirstOf(frames: seq<Frame>, more: seq<Frame>)
    requires frames != []
    ensures [frames[0]] + (frames[1..] + more) == frames + more
  {
  }

  /** End of input is reported as a clean EOF if and only if no byte of a further frame
      was there. */
  lemma CleanEOFIff(x: Bytes, lim: Limits)
    ensures Decode(x, lim).result == Err(EOF) <==> x == []
  {
  }

  /** A frame cut short anywhere after its first byte is an unexpected EOF. */
  lemma CutFrame(f: Frame, lim: Limits, cut: Bytes)
    requires Sane(lim) && Sendable(f, lim) && cut < Encode(f) && cut != []
    ensures Decode(cut, lim).result == Err(UnexpectedEOF)
  {
    if |cut| >= 4 {
      var h := Header(KindOf(f), |Payload(f)|);
      assert cut[..4] == PutWord(h);
      assert cut == cut[..4] + cut[4..];
      DecodeParts(cut[..4], cut[4..], lim);
      WordRoundTrip(h);
      HeaderRoundTripIff(KindOf(f), |Payload(f)|);
    }
  }

  /** A stream of frames that breaks off: the whole frames arrive, and the end is clean
      if and only if it fell between two frames. */
  lemma BrokenStream(frames: seq<Frame>, f: Frame, lim: Limits, cut: Bytes)
    requires Sane(lim) && Sendable(f, lim) && cut < Encode(f)
    requires forall i :: 0 <= i < |frames| ==> Sendable(frames[i], lim)
    ensures ReadAll(EncodeAll(frames) + cut, lim) == Session(frames, if cut == [] then EOF else UnexpectedEOF)
  {
    StreamRoundTrip(frames, lim, cut);
    if cut != [] {
      CutFrame(f, lim, cut);
    }
    assert ReadAll(cut, lim).frames == [];
    assert frames + [] == frames;
  }

  // ------------------------------------------------------------------------- streams

  datatype ReadStatus = Full | Short | Nothing

  class Reader {
    var rest: Bytes

    constructor (input: Bytes)
      ensures rest == input
    {
      rest := input;
    }

    /** Fills a buffer of `n` bytes, or takes whatever is left. */
    method ReadFull(n: nat) returns (buf: Bytes, status: ReadStatus)
      requires n > 0
      modifies this
      ensures status == (if |old(rest)| >= n then Full else if old(rest) == [] then Nothing else Short)
      ensures status.Full? ==> |buf| == n
      ensures buf + rest == old(rest) && (!status.Full? ==> rest == [])
    {
      if |rest| >= n {
        buf, status := rest[..n], Full;
        rest := rest[n..];
      } else {
        buf, status := rest, if rest == [] then Nothing else Short;
        rest := [];
      }
    }

    /** Reads exactly one frame. */
    method ReadFrame(lim: Limits) returns (res: Result<Frame, ReadError>)
      modifies this
      ensures Decoded(res, rest) == Decode(old(rest), lim)
    {
      ghost var x := rest;
      var header, status := ReadFull(4);
      if status != Full {
        return Err(if status == Nothing then EOF else UnexpectedEOF);
      }
      ghost var y := rest;
      DecodeParts(header, y, lim);
      var raw := GetWord(header);
      var kind := HeaderKind(raw);
      var n := HeaderLength(raw);
      if n <= 0 {
        return Err(FrameLimit);
      }
      if n > Bound(lim, kind) {
        return Err(FrameLimit);
      }
      var buf, status' := ReadFull(n);
      if status' != Full {
        return Err(UnexpectedEOF);
      }
      assert y[..n] == buf && y[n..] == rest;
      if kind == JSON {
        return Ok(JSONFrame(buf));
      }
      if n < 4 {
        return Err(InvalidRequest);
      }
      var metaLen := GetWord(buf[..4]);
      if metaLen <= 0 || metaLen > n - 4 {
        return Err(InvalidRequest);
      }
      return Ok(AttachmentFrame(buf[4..4 + metaLen], buf[4 + metaLen..]));
    }
  }

  datatype WriteError = TooLarge | BytesMismatch | Broken

  /** A sink that takes `room` more bytes before its writes fail. */
  class Writer {
    var out: Bytes
    var room: nat

    method Write(b: Bytes) returns (ok: bool)
      modifies this
      ensures ok == (|b| <= old(room))
      ensures ok ==> out == old(out) + b && room == old(room) - |b|
      ensures !ok ==> out == old(out) + b[..old(room)] && room == 0
    {
      ok := |b| <= room;
      if ok {
        out := out + b;
        room := room - |b|;
      } else {
        out := out + b[..room];
        room := 0;
      }
    }

    /** Writes one frame. A frame out of bounds writes nothing; a broken sink has taken
        a proper prefix of the frame. */
    method WriteFrame(kind: Kind, payload: Bytes, lim: Limits) returns (err: Option<WriteError>)
      modifies this
      ensures err == Some(TooLarge) <==> payload == [] || |payload| > Bound(lim, kind)
      ensures err == Some(TooLarge) ==> out == old(out) && room == old(room)
      ensures err != Some(BytesMismatch)
      ensures var enc := PutWord(Header(kind, |payload|)) + payload;
        && (err == None ==> out == old(out) + enc && |enc| <= old(room))
        && (err == Some(Broken) ==> old(room) < |enc| && out == old(out) + enc[..old(room)])
    {
      if |payload| == 0 {
        return Some(TooLarge);
      }
      if |payload| > Bound(lim, kind) {
        return Some(TooLarge);
      }
      var hdr := PutWord(Header(kind, |payload|));
      ghost var enc := hdr + payload;
      ghost var start, room0 := out, room;
      var ok := Write(hdr);
      if !ok {
        assert enc[..room0] == hdr[..room0];
        return Some(Broken);
      }
      ok := Write(payload);
      if !ok {
        assert enc[..room0] == hdr + payload[..room0 - 4];
        return Some(Broken);
      }
      assert start + enc == start + hdr + payload;
      return None;
    }

    /** Writes one attachment; its meta block must state the size of the data. */
    method WriteAttachmentFrame(meta: Bytes, metaBytes: int, data: Bytes, lim: Limits) returns (err: Option<WriteError>)
      modifies this
      ensures metaBytes != |data| ==> err == Some(BytesMismatch) && out == old(out)
      ensures err == None ==> metaBytes == |data| && out == old(out) + Encode(AttachmentFrame(meta, data))
      ensures err == None && meta != [] ==> Sendable(AttachmentFrame(meta, data), lim)
      ensures metaBytes == |data| ==>
        (err == Some(TooLarge) <==> |Payload(AttachmentFrame(meta, data))| > Bound(lim, Attachment))
      ensures metaBytes == |data| ==> err != Some(BytesMismatch)
      ensures err == Some(TooLarge) ==> out == old(out)
      ensures err == Some(Broken) ==>
        old(room) < |Encode(AttachmentFrame(meta, data))| && out == old(out) + Encode(AttachmentFrame(meta, data))[..old(room)]
    {
      if metaBytes != |data| {
        return Some(BytesMismatch);
      }
      var payload := PutWord(|meta| % WORD) + meta + data;
      err := WriteFrame(Attachment, payload, lim);
    }
  }
}
