/**
 The STOMP 1.2 wire format: what the serializer writes, and what one call of the
 incremental decoder makes of the octets that are pending.
 */
module StompCodec {
  import opened Wrappers
  import opened Bytes
  import opened Text
  import opened Incremental

  datatype CodecError = NotUtf8 | MissingHeaderValue | TrailingEscape | InvalidEscape | MissingNull

  datatype Header = Header(name: Octets, value: Octets)

  datatype Frame = Frame(command: Octets, headers: seq<Header>, body: Octets)

  /** Commands and headers are Rust strings. */
  predicate WellTyped(f: Frame) {
    Utf8(f.command) && HeadersUtf8(f.headers)
  }

  predicate HeadersUtf8(hs: seq<Header>) {
    forall i :: 0 <= i < |hs| ==> Utf8(hs[i].name) && Utf8(hs[i].value)
  }

  // ---------- headers ----------

  /** "content-length" */
  const CONTENT_LENGTH: Octets := [99, 111, 110, 116, 101, 110, 116, 45, 108, 101, 110, 103, 116, 104]

  /** Value of the first header of that name, ignoring ASCII case. */
  function Lookup(hs: seq<Header>, name: Octets): (r: Option<Octets>)
    ensures r.None? <==> forall i :: 0 <= i < |hs| ==> !SameName(hs[i].name, name)
    ensures r.Some? ==> exists i :: 0 <= i < |hs| && SameName(hs[i].name, name) && r.value == hs[i].value
  {
    if hs == [] then None
    else if SameName(hs[0].name, name) then Some(hs[0].value)
    else
      assert forall i :: 0 < i < |hs| ==> hs[i] == hs[1..][i - 1];
      Lookup(hs[1..], name)
  }

  /** Replace the first header of that name, or append one. */
  function SetHeader(hs: seq<Header>, name: Octets, value: Octets): (r: seq<Header>)
  {
    if hs == [] then [Header(name, value)]
    else if SameName(hs[0].name, name) then [hs[0].(value := value)] + hs[1..]
    else [hs[0]] + SetHeader(hs[1..], name, value)
  }

  /** No two headers share a name. */
  predicate DistinctNames(hs: seq<Header>) {
    forall i, j :: 0 <= i < j < |hs| ==> !SameName(hs[i].name, hs[j].name)
  }

  /** The declared body length, when the first such header is a number. */
  function ContentLength(hs: seq<Header>): (r: Option<nat>)
    ensures r.Some? ==> r.value < USIZE_LIMIT
  {
    match Lookup(hs, CONTENT_LENGTH)
    case None => None
    case Some(v) => ParseUsize(Trim(v))
  }

  // ---------- escaping ----------

  function Escape1(b: byte): Octets {
    if b == LF then [BACKSLASH, 110]
    else if b == CR then [BACKSLASH, 114]
    else if b == COLON then [BACKSLASH, 99]
    else if b == BACKSLASH then [BACKSLASH, BACKSLASH]
    else [b]
  }

  function Escape(s: Octets): Octets {
    if s == [] then [] else Escape1(s[0]) + Escape(s[1..])
  }

  function Prepend(b: byte, r: Result<Octets, CodecError>): Result<Octets, CodecError> {
    if r.Ok? then Ok([b] + r.value) else r
  }

  /** Reverse the escaping, reporting the leftmost fault. */
  function Unescape(s: Octets): Result<Octets, CodecError> {
    if s == [] then Ok([])
    else if s[0] != BACKSLASH then Prepend(s[0], Unescape(s[1..]))
    else if |s| == 1 then Err(TrailingEscape)
    else if s[1] == 110 then Prepend(LF, Unescape(s[2..]))
    else if s[1] == 114 then Prepend(CR, Unescape(s[2..]))
    else if s[1] == 99 then Prepend(COLON, Unescape(s[2..]))
    else if s[1] == BACKSLASH then Prepend(BACKSLASH, Unescape(s[2..]))
    else Err(InvalidEscape)
  }

  function DecodedHeader(s: Octets): Result<Octets, CodecError> {
    if Utf8(s) then Unescape(s) else Err(NotUtf8)
  }

  // ---------- serializing ----------

  function EncodedHeaders(hs: seq<Header>): Octets {
    if hs == [] then []
    else Escape(hs[0].name) + [COLON] + Escape(hs[0].value) + [LF] + EncodedHeaders(hs[1..])
  }

  function Encoded(f: Frame): Octets {
    f.command + [LF] + EncodedHeaders(f.headers) + [LF] + f.body + [NUL]
  }

  // ---------- parsing ----------

  /** `at` is the number of octets the head takes up, so the body starts there. */
  datatype Head = HeadPartial | HeadBad(error: CodecError) | Head(command: Octets, headers: seq<Header>, at: nat)

  datatype Line = NoLine | BadLine(error: CodecError) | Blank(next: nat) | HeaderLine(header: Header, next: nat)

  /** The first line of `p` read as a header line; `next` is where the line after it starts. */
  function ParseLine(p: Octets): (r: Line)
    ensures r.Blank? || r.HeaderLine? ==> 0 < r.next <= |p|
  {
    match Find(p, LF)
    case None => NoLine
    case Some(nl) =>
      var line := StripCr(p[..nl]);
      if line == [] then Blank(nl + 1) else ParseField(line, nl + 1)
  }

  function ParseField(line: Octets, next: nat): (r: Line)
    ensures r.BadLine? || (r.HeaderLine? && r.next == next)
  {
    match Find(line, COLON)
    case None => BadLine(MissingHeaderValue)
    case Some(colon) =>
      match DecodedHeader(line[..colon])
      case Err(e) => BadLine(e)
      case Ok(name) =>
        match DecodedHeader(line[colon + 1..])
        case Err(e) => BadLine(e)
        case Ok(value) => HeaderLine(Header(name, value), next)
  }

  /** Header lines up to and including the blank one. The command is set by `ParseHead`. */
  function ParseHeaders(p: Octets): (r: Head)
    ensures r.Head? ==> 0 < r.at <= |p|
  {
    match ParseLine(p)
    case NoLine => HeadPartial
    case BadLine(e) => HeadBad(e)
    case Blank(next) => Head([], [], next)
    case HeaderLine(h, next) => AfterLine(h, next, ParseHeaders(p[next..]))
  }

  function AfterLine(h: Header, next: nat, r: Head): Head {
    if r.Head? then Head(r.command, [h] + r.headers, next + r.at) else r
  }

  datatype CommandLine = NoCommand | BadCommand(error: CodecError) | Command(text: Octets, next: nat)

  function CommandOf(line: Octets): Result<Octets, CodecError> {
    if Utf8(line) then Ok(Trim(line)) else Err(NotUtf8)
  }

  function ParseCommand(p: Octets): (r: CommandLine)
    ensures r.Command? ==> 0 < r.next <= |p|
  {
    match Find(p, LF)
    case None => NoCommand
    case Some(nl) =>
      match CommandOf(StripCr(p[..nl]))
      case Err(e) => BadCommand(e)
      case Ok(command) => Command(command, nl + 1)
  }

  /** Command line and headers. */
  function ParseHead(p: Octets): (r: Head)
    ensures r.Head? ==> 0 < r.at <= |p|
  {
    match ParseCommand(p)
    case NoCommand => HeadPartial
    case BadCommand(e) => HeadBad(e)
    case Command(text, next) => AfterCommand(text, next, ParseHeaders(p[next..]))
  }

  function AfterCommand(command: Octets, next: nat, r: Head): Head {
    if r.Head? then Head(command, r.headers, next + r.at) else r
  }

  /** A body without a declared length loses one line ending before the NUL. */
  function StripEol(body: Octets): (r: Octets)
    ensures r <= body
  {
    if body != [] && body[|body| - 1] == LF then StripCr(body[..|body| - 1]) else body
  }

  type FrameOutcome = Outcome<Frame, CodecError>

  /** The body behind head `h` when `declared` is its length; `rest` is everything after the head. */
  function ParseBody(h: Head, declared: Option<nat>, rest: Octets): (r: FrameOutcome)
    requires h.Head?
    ensures r.Complete? ==> h.at < r.used <= h.at + |rest|
  {
    match declared
    case Some(n) =>
      if |rest| <= n then Incomplete
      else if rest[n] != NUL then Malformed(MissingNull)
      else Complete(Frame(h.command, h.headers, rest[..n]), h.at + n + 1)
    case None =>
      match Find(rest, NUL)
      case None => Incomplete
      case Some(k) => Complete(Frame(h.command, h.headers, StripEol(rest[..k])), h.at + k + 1)
  }

  function AfterHead(h: Head, p: Octets): (r: FrameOutcome)
    requires h.Head? ==> 0 < h.at <= |p|
    ensures r.Complete? ==> 0 < r.used <= |p|
  {
    match h
    case HeadPartial => Incomplete
    case HeadBad(e) => Malformed(e)
    case Head(_, headers, at) => ParseBody(h, ContentLength(headers), p[at..])
  }

  /** One frame at the very start of `p`. */
  function ParseFrame(p: Octets): (r: FrameOutcome)
    ensures r.Complete? ==> 0 < r.used <= |p|
  {
    AfterHead(ParseHead(p), p)
  }

  /** Number of line endings `p` starts with: the heartbeats between frames. */
  function Eols(p: Octets): (n: nat)
    ensures n <= |p|
    ensures n < |p| ==> p[n] != LF && p[n] != CR
  {
    if p != [] && (p[0] == LF || p[0] == CR) then 1 + Eols(p[1..]) else 0
  }

  /** What the decoder owes its caller when `p` is pending. */
  function NextFrame(p: Octets): (r: FrameOutcome)
    ensures r.Complete? ==> Eols(p) < r.used <= |p|
  {
    Skipping(Eols(p), ParseFrame(p[Eols(p)..]))
  }
}
