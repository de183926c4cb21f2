/**
  The Content-Length framer of the MCP transport: bytes arrive in arbitrary chunks, complete
  JSON-RPC messages leave.

  The decoding of a body (`JSON.parse` of its UTF-8 text) is a parameter, so what is proved
  about chunks holds for every decoder.
 */
module Framing {
  import opened Basics
  import opened Decimals

  type Byte = b: int | 0 <= b < 256
  type Bytes = seq<Byte>

  const CR: Byte := 13
  const LF: Byte := 10
  const COLON: Byte := 58
  const SEPARATOR: Bytes := [CR, LF, CR, LF]

  /** `content-length`, as the header expression spells it. */
  const FIELD: Bytes := [99, 111, 110, 116, 101, 110, 116, 45, 108, 101, 110, 103, 116, 104]

  /** `Content-Length: `, as the encoder writes it. */
  const PREFIX: Bytes := [67, 111, 110, 116, 101, 110, 116, 45, 76, 101, 110, 103, 116, 104, COLON, 32]

  const MAX_SAFE_INTEGER: nat := 0x1F_FFFF_FFFF_FFFF

  datatype Limits = Limits(maxFrameBytes: nat, maxHeaderBytes: nat)

  datatype Failure = HeaderTooLong | InvalidHeader | FrameTooLong | BodyNotJson

  // ----------------------------------------------------------------- header

  /** `buffer.indexOf('\r\n\r\n')`. */
  function HeaderEnd(s: Bytes): (e: Option<nat>)
    ensures e.Some? ==> e.value + 4 <= |s| && s[e.value..e.value + 4] == SEPARATOR
  {
    if |s| < 4 then None
    else if s[..4] == SEPARATOR then Some(0)
    else
      var e :- HeaderEnd(s[1..]);
      Some(e + 1)
  }

  predicate LineEnd(b: Byte) { b == CR || b == LF }

  predicate Space(b: Byte) { 9 <= b <= 13 || b == 32 }

  predicate IsDigit(b: Byte) { 48 <= b <= 57 }

  function Lower(b: Byte): Byte {
    if 65 <= b <= 90 then b + 32 else b
  }

  /** The text starts with `word`, letter case aside. */
  predicate StartsWithIgnoringCase(s: Bytes, word: Bytes) {
    |word| <= |s| && forall i | 0 <= i < |word| :: Lower(s[i]) == word[i]
  }

  function SkipSpaces(s: Bytes): Bytes {
    if s != [] && Space(s[0]) then SkipSpaces(s[1..]) else s
  }

  function LeadingDigits(s: Bytes): (ds: seq<Digit>)
    ensures |ds| <= |s|
  {
    if s == [] || !IsDigit(s[0]) then [] else [s[0] - 48] + LeadingDigits(s[1..])
  }

  /** `\s*$` matches here: the line ends after white space. */
  predicate EndsLine(s: Bytes) {
    s == [] || LineEnd(s[0]) || (Space(s[0]) && EndsLine(s[1..]))
  }

  /** The digits of a `content-length:\s*(\d+)\s*$` that matches at the start of `s`. */
  function FieldDigits(s: Bytes): Option<seq<Digit>> {
    if !StartsWithIgnoringCase(s, FIELD + [COLON]) then None
    else
      var t := SkipSpaces(s[|FIELD| + 1..]);
      var ds := LeadingDigits(t);
      if ds == [] || !EndsLine(t[|ds|..]) then None else Some(ds)
  }

  /** All matches of the header expression from here on; `lineStart` says whether `^` matches here. */
  function Fields(s: Bytes, lineStart: bool): seq<seq<Digit>> {
    if s == [] then []
    else
      (if lineStart && FieldDigits(s).Some? then [FieldDigits(s).value] else [])
      + Fields(s[1..], LineEnd(s[0]))
  }

  /** The frame length of a header: exactly one field, and a safe integer. */
  function ContentLength(header: Bytes): Option<nat> {
    var fields := Fields(header, true);
    if |fields| != 1 || Value(fields[0]) > MAX_SAFE_INTEGER then None else Some(Value(fields[0]))
  }

  // ----------------------------------------------------------------- framer

  /** What one `push` does to the whole buffer; `Broken` is an exception and the buffer it leaves. */
  datatype Drained<+M> = Ready(messages: seq<M>, rest: Bytes) | Broken(why: Failure, rest: Bytes)

  function Prepend<M>(ms: seq<M>, d: Drained<M>): Drained<M> {
    match d
    case Ready(ns, rest) => Ready(ms + ns, rest)
    case Broken(why, rest) => Broken(why, rest)
  }

  /** The frame at the head of the buffer: not complete yet, refused, or with its body at `start..end`. */
  datatype Frame = Incomplete | Refused(why: Failure) | Complete(start: nat, end: nat)

  function FrameAt(limits: Limits, buffer: Bytes): (f: Frame)
    ensures f.Complete? ==> 0 < f.start <= f.end <= |buffer|
  {
    match HeaderEnd(buffer)
    case None => if |buffer| > limits.maxHeaderBytes then Refused(HeaderTooLong) else Incomplete
    case Some(e) =>
      if e > limits.maxHeaderBytes then Refused(HeaderTooLong)
      else
        match ContentLength(buffer[..e])
        case None => Refused(InvalidHeader)
        case Some(n) =>
          if n > limits.maxFrameBytes then Refused(FrameTooLong)
          else if |buffer| < e + 4 + n then Incomplete
          else Complete(e + 4, e + 4 + n)
  }

  /** What the head of the buffer allows: wait for more bytes, fail, or take the frame that ends at `end`. */
  datatype Head<+M> = Wait | Fail(why: Failure) | Take(message: M, end: nat)

  function HeadOf<M>(limits: Limits, parse: Bytes -> Option<M>, buffer: Bytes): (h: Head<M>)
    ensures h.Take? ==> 0 < h.end <= |buffer|
  {
    match FrameAt(limits, buffer)
    case Incomplete => Wait
    case Refused(why) => Fail(why)
    case Complete(start, end) =>
      match parse(buffer[start..end])
      case None => Fail(BodyNotJson)
      case Some(m) => Take(m, end)
  }

  function Drain<M>(limits: Limits, parse: Bytes -> Option<M>, buffer: Bytes): Drained<M>
    decreases |buffer|
  {
    match HeadOf(limits, parse, buffer)
    case Wait => Ready([], buffer)
    case Fail(why) => Broken(why, buffer)
    case Take(m, end) => Prepend([m], Drain(limits, parse, buffer[end..]))
  }

  datatype Pushed<+M> = Returned(messages: seq<M>) | Threw(why: Failure)

  class JsonRpcFramer<M> {
    const limits: Limits
    const parse: Bytes -> Option<M>
    var buffer: Bytes

    constructor (limits: Limits, parse: Bytes -> Option<M>)
      ensures this.limits == limits && this.parse == parse && buffer == []
    {
      this.limits := limits;
      this.parse := parse;
      buffer := [];
    }

    method Push(chunk: Bytes) returns (r: Pushed<M>)
      modifies this
      ensures Outcome(r, buffer) == Drain(limits, parse, old(buffer) + chunk)
      ensures r.Returned? ==> |buffer| < limits.maxHeaderBytes + 4 + limits.maxFrameBytes
    {
      buffer := buffer + chunk;
      ghost var all := buffer;
      var messages: seq<M> := [];
      RetainedBound(limits, parse, buffer);
      PrependNothing(Drain(limits, parse, buffer));
      while true
        invariant TakenSoFar(limits, parse, all, messages, buffer)
        decreases |buffer|
      {
        Rounds(limits, parse, all, messages, buffer);
        var head := Head();
        match head {
          case Wait => return Returned(messages);
          case Fail(why) => return Threw(why);
          case Take(message, end) =>
            messages := messages + [message];
            buffer := buffer[end..];
        }
      }
    }

    /** The checks of one round of the loop, up to the decoded body. */
    method Head() returns (h: Head<M>)
      ensures h == HeadOf(limits, parse, buffer)
    {
      match HeaderEnd(buffer) {
        case None =>
          if |buffer| > limits.maxHeaderBytes {
            return Fail(HeaderTooLong);
          }
          return Wait;
        case Some(headerEnd) =>
          if headerEnd > limits.maxHeaderBytes {
            return Fail(HeaderTooLong);
          }
          var length := ContentLength(buffer[..headerEnd]);
          if length.None? {
            return Fail(InvalidHeader);
          }
          if length.value > limits.maxFrameBytes {
            return Fail(FrameTooLong);
          }
          var bodyStart := headerEnd + 4;
          var bodyEnd := bodyStart + length.value;
          if |buffer| < bodyEnd {
            return Wait;
          }
          var body := parse(buffer[bodyStart..bodyEnd]);
          if body.None? {
            return Fail(BodyNotJson);
          }
          return Take(body.value, bodyEnd);
      }
    }
  }

  /** The loop of `Push` has taken `messages` off the head of `all` and left `buffer`. */
  ghost predicate TakenSoFar<M>(limits: Limits, parse: Bytes -> Option<M>, all: Bytes, messages: seq<M>, buffer: Bytes) {
    Drain(limits, parse, all) == Prepend(messages, Drain(limits, parse, buffer))
  }

  /** What one round of the loop of `Push` amounts to, in each of its three endings. */
  lemma Rounds<M>(limits: Limits, parse: Bytes -> Option<M>, all: Bytes, messages: seq<M>, buffer: Bytes)
    requires TakenSoFar(limits, parse, all, messages, buffer)
    ensures var h := HeadOf(limits, parse, buffer);
            && (h.Wait? ==> Drain(limits, parse, all) == Ready(messages, buffer))
            && (h.Fail? ==> Drain(limits, parse, all) == Broken(h.why, buffer))
            && (h.Take? ==> TakenSoFar(limits, parse, all, messages + [h.message], buffer[h.end..]))
  {
    var h := HeadOf(limits, parse, buffer);
    if h.Take? {
      PrependTwice(messages, [h.message], Drain(limits, parse, buffer[h.end..]));
    } else {
      assert messages + [] == messages;
    }
  }

  function Outcome<M>(r: Pushed<M>, buffer: Bytes): Drained<M> {
    match r
    case Returned(messages) => Ready(messages, buffer)
    case Threw(why) => Broken(why, buffer)
  }

  lemma PrependTwice<M>(a: seq<M>, b: seq<M>, d: Drained<M>)
    ensures Prepend(a, Prepend(b, d)) == Prepend(a + b, d)
  {
    if d.Ready? {
      assert a + (b + d.messages) == a + b + d.messages;
    }
  }

  // ------------------------------------------------------------ one push

  lemma IncompleteBound(limits: Limits, buffer: Bytes)
    requires FrameAt(limits, buffer).Incomplete?
    ensures |buffer| < limits.maxHeaderBytes + 4 + limits.maxFrameBytes
  {
  }

  /** What is kept between pushes is an unfinished header or an unfinished frame. */
  lemma {:induction false} RetainedBound<M>(limits: Limits, parse: Bytes -> Option<M>, buffer: Bytes)
    ensures var d := Drain(limits, parse, buffer);
            d.Ready? ==> |d.rest| < limits.maxHeaderBytes + 4 + limits.maxFrameBytes
    decreases |buffer|
  {
    var h := HeadOf(limits, parse, buffer);
    if h.Take? {
      RetainedBound(limits, parse, buffer[h.end..]);
    } else if h.Wait? {
      IncompleteBound(limits, buffer);
    }
  }

  lemma {:induction false} HeaderEndExtend(s: Bytes, more: Bytes)
    requires HeaderEnd(s).Some?
    ensures HeaderEnd(s + more) == HeaderEnd(s)
  {
    assert (s + more)[..4] == s[..4];
    if s[..4] != SEPARATOR {
      HeaderEndExtend(s[1..], more);
      assert (s + more)[1..] == s[1..] + more;
    }
  }

  lemma SliceOfPrefix(a: Bytes, b: Bytes, i: nat, j: nat)
    requires i <= j <= |a|
    ensures (a + b)[i..j] == a[i..j]
  {
  }

  lemma FrameExtend(limits: Limits, a: Bytes, b: Bytes)
    requires FrameAt(limits, a).Complete?
    ensures FrameAt(limits, a + b) == FrameAt(limits, a)
  {
    HeaderEndExtend(a, b);
    var e := HeaderEnd(a).value;
    SliceOfPrefix(a, b, 0, e);
    assert (a + b)[..e] == (a + b)[0..e] == a[..e];
  }

  /** A frame that can be taken is taken alike whatever follows it. */
  lemma HeadExtend<M>(limits: Limits, parse: Bytes -> Option<M>, a: Bytes, b: Bytes)
    requires HeadOf(limits, parse, a).Take?
    ensures HeadOf(limits, parse, a + b) == HeadOf(limits, parse, a)
  {
    FrameExtend(limits, a, b);
    var f := FrameAt(limits, a);
    SliceOfPrefix(a, b, f.start, f.end);
  }

  /**
    Once a push returns normally, the next chunk is treated exactly as if both chunks had come
    as one: the same messages in the same order, the same failure, the same buffer.
   */
  lemma {:induction false} PushesCompose<M>(limits: Limits, parse: Bytes -> Option<M>, a: Bytes, b: Bytes)
    requires Drain(limits, parse, a).Ready?
    ensures var d := Drain(limits, parse, a);
            Drain(limits, parse, a + b) == Prepend(d.messages, Drain(limits, parse, d.rest + b))
    decreases |a|
  {
    var h := HeadOf(limits, parse, a);
    if h.Wait? {
      PrependNothing(Drain(limits, parse, a + b));
    } else {
      HeadExtend(limits, parse, a, b);
      assert (a + b)[h.end..] == a[h.end..] + b;
      PushesCompose(limits, parse, a[h.end..], b);
      var d := Drain(limits, parse, a[h.end..]);
      PrependTwice([h.message], d.messages, Drain(limits, parse, d.rest + b));
    }
  }

  lemma PrependNothing<M>(d: Drained<M>)
    ensures Prepend([], d) == d
  {
    if d.Ready? {
      assert [] + d.messages == d.messages;
    }
  }

  // ------------------------------------------------------------ any chunking

  function Concat(chunks: seq<Bytes>): Bytes {
    if chunks == [] then [] else chunks[0] + Concat(chunks[1..])
  }

  /** Pushing the chunks one after another, up to the first exception. */
  function PushAll<M>(limits: Limits, parse: Bytes -> Option<M>, buffer: Bytes, chunks: seq<Bytes>): Drained<M>
    decreases |chunks|
  {
    if chunks == [] then Ready([], buffer)
    else
      match Drain(limits, parse, buffer + chunks[0])
      case Broken(why, rest) => Broken(why, rest)
      case Ready(ms, rest) => Prepend(ms, PushAll(limits, parse, rest, chunks[1..]))
  }

  /** No prefix of the bytes, seen as one push, throws. */
  ghost predicate PrefixesReady<M>(limits: Limits, parse: Bytes -> Option<M>, s: Bytes) {
    forall k | 0 <= k <= |s| :: Drain(limits, parse, s[..k]).Ready?
  }

  lemma {:induction false} PushAllFrom<M>(limits: Limits, parse: Bytes -> Option<M>, x: Bytes, chunks: seq<Bytes>)
    requires PrefixesReady(limits, parse, x + Concat(chunks))
    ensures Drain(limits, parse, x).Ready?
    ensures var d := Drain(limits, parse, x);
            Prepend(d.messages, PushAll(limits, parse, d.rest, chunks)) == Drain(limits, parse, x + Concat(chunks))
    decreases |chunks|
  {
    var all := x + Concat(chunks);
    assert all[..|x|] == x;
    var d := Drain(limits, parse, x);
    if chunks == [] {
      assert all == x;
      assert d.messages + [] == d.messages;
    } else {
      var c := chunks[0];
      assert all == (x + c) + Concat(chunks[1..]);
      PushAllFrom(limits, parse, x + c, chunks[1..]);
      PushesCompose(limits, parse, x, c);
      var next := Drain(limits, parse, d.rest + c);
      PrependTwice(d.messages, next.messages, PushAll(limits, parse, next.rest, chunks[1..]));
    }
  }

  /** Where no prefix throws, the cuts between chunks do not matter. */
  lemma ChunkingIrrelevant<M>(limits: Limits, parse: Bytes -> Option<M>, chunks: seq<Bytes>)
    requires PrefixesReady(limits, parse, Concat(chunks))
    ensures PushAll(limits, parse, [], chunks) == Drain(limits, parse, Concat(chunks))
  {
    assert [] + Concat(chunks) == Concat(chunks);
    PushAllFrom(limits, parse, [], chunks);
    DrainNothing(limits, parse);
    PrependNothing(PushAll(limits, parse, [], chunks));
  }

  // ------------------------------------------------------------ encoded frames

  function AsciiDigit(d: Digit): Byte { d + 48 }

  function Ascii(ds: seq<Digit>): Bytes {
    seq(|ds|, i requires 0 <= i < |ds| => AsciiDigit(ds[i]))
  }

  /** `Content-Length: ` and the byte length of the body. */
  function Header(body: Bytes): Bytes {
    PREFIX + Ascii(Digits(|body|))
  }

  /** `encodeJsonRpcMessage`, for the bytes of the printed message. */
  function Encode(body: Bytes): Bytes {
    Header(body) + SEPARATOR + body
  }

  function EncodeAll(bodies: seq<Bytes>): Bytes {
    if bodies == [] then [] else Encode(bodies[0]) + EncodeAll(bodies[1..])
  }

  /** The body is within the frame limit, and its header within the header limit whatever the chunks. */
  predicate Fits(limits: Limits, body: Bytes) {
    && |body| <= limits.maxFrameBytes
    && |body| <= MAX_SAFE_INTEGER
    && |Header(body)| + 3 <= limits.maxHeaderBytes
  }

  lemma {:induction false} LeadingDigitsOfAscii(ds: seq<Digit>)
    ensures LeadingDigits(Ascii(ds)) == ds
  {
    if ds != [] {
      assert Ascii(ds)[1..] == Ascii(ds[1..]);
      LeadingDigitsOfAscii(ds[1..]);
      assert [ds[0]] + ds[1..] == ds;
    }
  }

  lemma {:induction false} NoFieldInsideLine(s: Bytes)
    requires forall i | 0 <= i < |s| :: !LineEnd(s[i])
    ensures Fields(s, false) == []
  {
    if s != [] {
      NoFieldInsideLine(s[1..]);
    }
  }

  lemma FieldOfHeader(ds: seq<Digit>)
    requires ds != []
    ensures FieldDigits(PREFIX + Ascii(ds)) == Some(ds)
  {
    var s, a := PREFIX + Ascii(ds), Ascii(ds);
    var word := FIELD + [COLON];
    assert StartsWithIgnoringCase(s, word) by {
      forall i | 0 <= i < |word| ensures Lower(s[i]) == word[i] {
        assert s[i] == PREFIX[i];
      }
    }
    var t := s[|FIELD| + 1..];
    assert t == [32] + a;
    assert t[1..] == a;
    assert SkipSpaces(t) == SkipSpaces(a) == a;
    LeadingDigitsOfAscii(ds);
    assert a[|ds|..] == [];
  }

  /** The receiver reads the announced length back, as long as it is a safe integer. */
  lemma LengthReadBack(body: Bytes)
    ensures ContentLength(Header(body)) == if |body| <= MAX_SAFE_INTEGER then Some(|body|) else None
  {
    var ds := Digits(|body|);
    var h := Header(body);
    FieldOfHeader(ds);
    ValueOfDigits(|body|);
    NoFieldInsideLine(h[1..]);
    assert Fields(h, true) == [ds] + [];
  }

  /** Before the blank line is complete no header end is found; afterwards it is where the header stops. */
  lemma {:induction false} HeaderEndOfFrame(h: Bytes, s: Bytes)
    requires CR !in h
    requires s <= h + SEPARATOR || h + SEPARATOR <= s
    ensures HeaderEnd(s) == if |s| < |h| + 4 then None else Some(|h|)
    decreases |h|
  {
    if |s| >= 4 {
      assert s[0] == (h + SEPARATOR)[0];
      assert |h| + 4 <= |s| ==> s[..|h| + 4] == h + SEPARATOR;
      if h == [] {
        assert s[..4] == SEPARATOR;
      } else {
        assert (h + SEPARATOR)[1..] == h[1..] + SEPARATOR;
        assert s[..4] != SEPARATOR;
        HeaderEndOfFrame(h[1..], s[1..]);
      }
    }
  }

  lemma HeaderHasNoCr(body: Bytes)
    ensures CR !in Header(body)
    ensures |Header(body)| > 0
  {
  }

  /** A proper part of a frame waits; the test of the unfinished header is the only one it can fail. */
  lemma PartOfFrame(limits: Limits, body: Bytes, k: nat)
    requires |body| <= limits.maxFrameBytes && |body| <= MAX_SAFE_INTEGER
    requires |Header(body)| <= limits.maxHeaderBytes
    requires k < |Encode(body)|
    ensures FrameAt(limits, Encode(body)[..k])
         == if limits.maxHeaderBytes < k <= |Header(body)| + 3 then Refused(HeaderTooLong) else Incomplete
  {
    var h, s := Header(body), Encode(body)[..k];
    HeaderHasNoCr(body);
    assert Encode(body)[..|h| + 4] == h + SEPARATOR;
    assert |s| <= |h| + 4 ==> s <= h + SEPARATOR;
    HeaderEndOfFrame(h, s);
    if |s| >= |h| + 4 {
      assert s[..|h|] == Encode(body)[..|h|] == h;
      LengthReadBack(body);
    }
  }

  /** A complete frame is found, whatever follows it. */
  lemma WholeFrame(limits: Limits, body: Bytes, rest: Bytes)
    requires |body| <= limits.maxFrameBytes && |body| <= MAX_SAFE_INTEGER
    requires |Header(body)| <= limits.maxHeaderBytes
    ensures var s, h := Encode(body) + rest, |Header(body)|;
            && FrameAt(limits, s) == Complete(h + 4, |Encode(body)|)
            && s[h + 4..|Encode(body)|] == body
            && s[|Encode(body)|..] == rest
  {
    var h, s := Header(body), Encode(body) + rest;
    HeaderHasNoCr(body);
    assert s[..|h| + 4] == h + SEPARATOR;
    HeaderEndOfFrame(h, s);
    assert s[..|h|] == h;
    LengthReadBack(body);
  }

  /** What draining does at an encoded message, and at a proper part of one. */
  lemma DrainEncoded<M>(limits: Limits, parse: Bytes -> Option<M>, body: Bytes, m: M, rest: Bytes)
    requires |body| <= limits.maxFrameBytes && |body| <= MAX_SAFE_INTEGER
    requires |Header(body)| <= limits.maxHeaderBytes
    requires parse(body) == Some(m)
    ensures Drain(limits, parse, Encode(body) + rest) == Prepend([m], Drain(limits, parse, rest))
  {
    WholeFrame(limits, body, rest);
  }

  lemma DrainPart<M>(limits: Limits, parse: Bytes -> Option<M>, body: Bytes, k: nat)
    requires |body| <= limits.maxFrameBytes && |body| <= MAX_SAFE_INTEGER
    requires |Header(body)| <= limits.maxHeaderBytes
    requires k < |Encode(body)|
    ensures var s := Encode(body)[..k];
            Drain(limits, parse, s)
            == if limits.maxHeaderBytes < k <= |Header(body)| + 3 then Broken(HeaderTooLong, s) else Ready([], s)
  {
    PartOfFrame(limits, body, k);
  }

  lemma DrainNothing<M>(limits: Limits, parse: Bytes -> Option<M>)
    ensures Drain(limits, parse, []) == Ready([], [])
  {
    assert HeadOf(limits, parse, []) == Wait;
  }

  /** The message survives its encoding, and its frame is within the limits. */
  ghost predicate Sendable<M>(limits: Limits, parse: Bytes -> Option<M>, encode: M -> Bytes, m: M) {
    parse(encode(m)) == Some(m) && Fits(limits, encode(m))
  }

  /** A part of the stream gives a part of the messages, all of them when the part is the whole stream. */
  ghost predicate Delivers<M>(d: Drained<M>, messages: seq<M>, whole: bool) {
    d.Ready? && d.messages <= messages && (whole ==> d == Ready(messages, []))
  }

  lemma DeliversNext<M(!new)>(m: M, d: Drained<M>, messages: seq<M>, whole: bool)
    requires messages != [] && messages[0] == m
    requires Delivers(d, messages[1..], whole)
    ensures Delivers(Prepend([m], d), messages, whole)
  {
    PrefixCons(m, d.messages, messages);
    assert [m] + messages[1..] == messages;
  }

  /**
    Every prefix of a stream of encoded messages is accepted: it yields the messages that are
    complete in it. For the whole stream these are all of them, and nothing stays buffered.
   */
  lemma {:induction false} EncodedPrefix<M(!new)>(
    limits: Limits, parse: Bytes -> Option<M>, encode: M -> Bytes, messages: seq<M>, k: nat)
    requires forall m | m in messages :: Sendable(limits, parse, encode, m)
    requires k <= |EncodeAll(Bodies(encode, messages))|
    ensures var s := EncodeAll(Bodies(encode, messages));
            Delivers(Drain(limits, parse, s[..k]), messages, k == |s|)
    decreases |messages|
  {
    var s := EncodeAll(Bodies(encode, messages));
    if messages == [] {
      assert s[..k] == [];
      DrainNothing(limits, parse);
    } else {
      var m := messages[0];
      var first := Encode(encode(m));
      BodiesCons(encode, messages);
      var later := EncodeAll(Bodies(encode, messages[1..]));
      assert Sendable(limits, parse, encode, m);
      if k < |first| {
        assert s[..k] == first[..k];
        DrainPart(limits, parse, encode(m), k);
      } else {
        var rest := later[..k - |first|];
        assert s[..k] == first + rest;
        DrainEncoded(limits, parse, encode(m), m, rest);
        EncodedPrefix(limits, parse, encode, messages[1..], k - |first|);
        DeliversNext(m, Drain(limits, parse, rest), messages, k == |s|);
      }
    }
  }

  lemma PrefixCons<M(!new)>(m: M, part: seq<M>, all: seq<M>)
    requires all != [] && all[0] == m && part <= all[1..]
    ensures [m] + part <= all
  {
  }

  function Bodies<M>(encode: M -> Bytes, messages: seq<M>): seq<Bytes> {
    if messages == [] then [] else [encode(messages[0])] + Bodies(encode, messages[1..])
  }

  lemma BodiesCons<M>(encode: M -> Bytes, messages: seq<M>)
    requires messages != []
    ensures EncodeAll(Bodies(encode, messages))
         == Encode(encode(messages[0])) + EncodeAll(Bodies(encode, messages[1..]))
  {
    assert Bodies(encode, messages)[1..] == Bodies(encode, messages[1..]);
  }

  /**
    Encoded messages arrive: however the bytes are cut into chunks, pushing the chunks yields
    exactly the messages, in order, and leaves an empty buffer.
   */
  lemma EncodedMessagesArrive<M(!new)>(
    limits: Limits, parse: Bytes -> Option<M>, encode: M -> Bytes, messages: seq<M>, chunks: seq<Bytes>)
    requires forall m | m in messages :: Sendable(limits, parse, encode, m)
    requires Concat(chunks) == EncodeAll(Bodies(encode, messages))
    ensures PushAll(limits, parse, [], chunks) == Ready(messages, [])
  {
    var s := Concat(chunks);
    forall k | 0 <= k <= |s| ensures Drain(limits, parse, s[..k]).Ready? {
      EncodedPrefix(limits, parse, encode, messages, k);
    }
    EncodedPrefix(limits, parse, encode, messages, |s|);
    assert s[..|s|] == s;
    ChunkingIrrelevant(limits, parse, chunks);
  }

  /** The frame in two pieces, the first of which ends inside the blank line. */
  function CutInBlankLine(body: Bytes): seq<Bytes> {
    var k := |Header(body)| + 3;
    [Encode(body)[..k], Encode(body)[k..]]
  }

  lemma CutKeepsBytes(body: Bytes)
    ensures Concat(CutInBlankLine(body)) == Encode(body) && Concat([Encode(body)]) == Encode(body)
  {
    var s, k := Encode(body), |Header(body)| + 3;
    assert Concat([s[k..]]) == s[k..] + [];
    assert Concat([s]) == s + [];
    assert CutInBlankLine(body)[1..] == [s[k..]];
  }

  /** The first piece of the cut frame is refused as soon as it is longer than a header may be. */
  lemma CutFrameIsRefused<M>(limits: Limits, parse: Bytes -> Option<M>, body: Bytes)
    requires |body| <= limits.maxFrameBytes && |body| <= MAX_SAFE_INTEGER
    requires |Header(body)| <= limits.maxHeaderBytes < |Header(body)| + 3
    ensures PushAll(limits, parse, [], CutInBlankLine(body)).Broken?
  {
    var k := |Header(body)| + 3;
    DrainPart(limits, parse, body, k);
    assert [] + Encode(body)[..k] == Encode(body)[..k];
  }

  /** One piece of a frame that is over a limit is refused too. */
  lemma OversizedFrameIsRefused<M>(limits: Limits, parse: Bytes -> Option<M>, body: Bytes)
    requires |body| > limits.maxFrameBytes || |body| > MAX_SAFE_INTEGER || |Header(body)| > limits.maxHeaderBytes
    ensures PushAll(limits, parse, [], [Encode(body)]).Broken?
  {
    OversizedFrame(limits, body);
    assert HeadOf(limits, parse, Encode(body)).Fail?;
    assert [] + Encode(body) == Encode(body);
  }

  lemma OversizedFrame(limits: Limits, body: Bytes)
    requires |body| > limits.maxFrameBytes || |body| > MAX_SAFE_INTEGER || |Header(body)| > limits.maxHeaderBytes
    ensures FrameAt(limits, Encode(body)).Refused?
  {
    var s, h := Encode(body), Header(body);
    HeaderHasNoCr(body);
    assert s[..|h| + 4] == h + SEPARATOR;
    HeaderEndOfFrame(h, s);
    assert s[..|h|] == h;
    LengthReadBack(body);
  }

  lemma WholeFrameIsTaken<M>(limits: Limits, parse: Bytes -> Option<M>, body: Bytes, m: M)
    requires |body| <= limits.maxFrameBytes && |body| <= MAX_SAFE_INTEGER && |Header(body)| <= limits.maxHeaderBytes
    requires parse(body) == Some(m)
    ensures Drain(limits, parse, Encode(body)) == Ready([m], [])
    ensures PushAll(limits, parse, [], [Encode(body)]) == Ready([m], [])
  {
    var s := Encode(body);
    assert s + [] == s && [] + s == s;
    DrainEncoded(limits, parse, body, m, []);
    DrainNothing(limits, parse);
  }

  /**
    The room `Fits` asks for is exact: a message arrives however its frame is cut into chunks
    if and only if the frame fits. In one piece a header within the limit is always accepted,
    but the three bytes of an incomplete blank line count too when the frame is cut there.
   */
  lemma HeaderRoomIsExact<M(!new)>(limits: Limits, parse: Bytes -> Option<M>, body: Bytes, m: M)
    requires parse(body) == Some(m)
    ensures (forall chunks: seq<Bytes> | Concat(chunks) == Encode(body) :: PushAll(limits, parse, [], chunks) == Ready([m], []))
            <==> Fits(limits, body)
  {
    var s := Encode(body);
    CutKeepsBytes(body);
    if Fits(limits, body) {
      WholeFrameIsTaken(limits, parse, body, m);
      assert s[..|s|] == s;
      forall k | 0 <= k < |s| ensures Drain(limits, parse, s[..k]).Ready? {
        DrainPart(limits, parse, body, k);
      }
      forall chunks: seq<Bytes> | Concat(chunks) == s ensures PushAll(limits, parse, [], chunks) == Ready([m], []) {
        ChunkingIrrelevant(limits, parse, chunks);
      }
    } else if |body| > limits.maxFrameBytes || |body| > MAX_SAFE_INTEGER || |Header(body)| > limits.maxHeaderBytes {
      OversizedFrameIsRefused(limits, parse, body);
    } else {
      CutFrameIsRefused(limits, parse, body);
    }
  }

  /** A frame whose header is exactly as long as a header may be: taken in one piece, refused in two. */
  lemma TheCutDecides()
    ensures var limits, parse := Limits(0, 17), (body: Bytes) => Some(|body|);
            && PushAll(limits, parse, [], [Encode([])]) == Ready([0], [])
            && Concat(CutInBlankLine([])) == Encode([])
            && PushAll(limits, parse, [], CutInBlankLine([])).Broken?
  {
    var limits, parse := Limits(0, 17), (body: Bytes) => Some(|body|);
    assert |Header([])| == 17;
    WholeFrameIsTaken(limits, parse, [], 0);
    CutKeepsBytes([]);
    CutFrameIsRefused(limits, parse, []);
  }
}
