/** The SEND frames of the producer. */
module StompSend {
  import opened Wrappers
  import opened Bytes
  import opened Text
  import opened StompCodec
  import opened StompRoundTrip
  import opened Incremental

  /** "SEND", "destination", "x-chaos", "metadata-corruption", "receipt", "r-" */
  const SEND: Octets := [83, 69, 78, 68]
  const DESTINATION: Octets := [100, 101, 115, 116, 105, 110, 97, 116, 105, 111, 110]
  const X_CHAOS: Octets := [120, 45, 99, 104, 97, 111, 115]
  const METADATA_CORRUPTION: Octets :=
    [109, 101, 116, 97, 100, 97, 116, 97, 45, 99, 111, 114, 114, 117, 112, 116, 105, 111, 110]
  const RECEIPT: Octets := [114, 101, 99, 101, 105, 112, 116]
  const R_DASH: Octets := [114, 45]

  // ---------- set_header ----------

  /** Setting a header changes the look-up of that name, in any case, and of no other. */
  lemma {:induction false} SetThenLookup(hs: seq<Header>, name: Octets, value: Octets, other: Octets)
    ensures Lookup(SetHeader(hs, name, value), other)
            == if SameName(name, other) then Some(value) else Lookup(hs, other)
  {
    if hs != [] {
      SetThenLookup(hs[1..], name, value, other);
    }
  }

  lemma {:induction false} SetKeepsNames(hs: seq<Header>, name: Octets, value: Octets)
    ensures var r := SetHeader(hs, name, value);
            && |hs| <= |r| <= |hs| + 1
            && (forall i :: 0 <= i < |hs| ==> r[i].name == hs[i].name)
            && (|r| == |hs| + 1 ==> r[|hs|].name == name && forall i :: 0 <= i < |hs| ==> !SameName(hs[i].name, name))
  {
    if hs != [] && !SameName(hs[0].name, name) {
      SetKeepsNames(hs[1..], name, value);
    }
  }

  /** `set_header` keeps names distinct. */
  lemma SetKeepsDistinct(hs: seq<Header>, name: Octets, value: Octets)
    requires DistinctNames(hs)
    ensures DistinctNames(SetHeader(hs, name, value))
  {
    SetKeepsNames(hs, name, value);
  }

  lemma {:induction false} SetKeepsUtf8(hs: seq<Header>, name: Octets, value: Octets)
    requires HeadersUtf8(hs) && Utf8(name) && Utf8(value)
    ensures HeadersUtf8(SetHeader(hs, name, value))
  {
    if hs != [] && !SameName(hs[0].name, name) {
      SetKeepsUtf8(hs[1..], name, value);
    }
  }

  predicate Ascii(s: Octets) {
    forall i :: 0 <= i < |s| ==> s[i] < 0x80
  }

  lemma {:induction false} AsciiIsUtf8(s: Octets)
    requires Ascii(s)
    ensures Utf8(s)
  {
    if s != [] {
      assert CharLen(s) == 1;
      AsciiIsUtf8(s[1..]);
    }
  }

  /** Headers as the producer builds them. */
  predicate Proper(hs: seq<Header>) {
    DistinctNames(hs) && HeadersUtf8(hs)
  }

  lemma SetProper(hs: seq<Header>, name: Octets, value: Octets)
    requires Proper(hs) && Utf8(name) && Utf8(value)
    ensures Proper(SetHeader(hs, name, value))
  {
    SetKeepsDistinct(hs, name, value);
    SetKeepsUtf8(hs, name, value);
  }

  lemma SetNamed(hs: seq<Header>, name: Octets, value: Octets)
    requires Proper(hs) && Ascii(name) && Utf8(value)
    ensures Proper(SetHeader(hs, name, value))
  {
    AsciiIsUtf8(name);
    SetProper(hs, name, value);
  }

  lemma SetAscii(hs: seq<Header>, name: Octets, value: Octets)
    requires Proper(hs) && Ascii(name) && Ascii(value)
    ensures Proper(SetHeader(hs, name, value))
  {
    AsciiIsUtf8(value);
    SetNamed(hs, name, value);
  }

  function SetAll(hs: seq<Header>, extra: seq<Header>): seq<Header>
    decreases |extra|
  {
    if extra == [] then hs else SetAll(SetHeader(hs, extra[0].name, extra[0].value), extra[1..])
  }

  lemma {:induction false} SetAllProper(hs: seq<Header>, extra: seq<Header>)
    requires Proper(hs) && HeadersUtf8(extra)
    ensures Proper(SetAll(hs, extra))
    decreases |extra|
  {
    if extra != [] {
      SetProper(hs, extra[0].name, extra[0].value);
      SetAllProper(SetHeader(hs, extra[0].name, extra[0].value), extra[1..]);
    }
  }

  // ---------- produce ----------

  /** What the producer is configured with; every string is UTF-8. */
  datatype Producer = Producer(destination: Octets, headers: seq<Header>)

  predicate ProducerTyped(c: Producer) {
    Utf8(c.destination) && HeadersUtf8(c.headers)
  }

  function ReceiptId(seqNo: nat): Octets {
    R_DASH + Decimal(seqNo)
  }

  /** Headers before the length is set: destination, configured headers, chaos mark. */
  function BaseHeaders(c: Producer, corruptMetadata: bool): seq<Header> {
    var hs := SetAll(SetHeader([], DESTINATION, c.destination), c.headers);
    if corruptMetadata then SetHeader(hs, X_CHAOS, METADATA_CORRUPTION) else hs
  }

  function SendHeaders(c: Producer, corruptMetadata: bool, size: nat, receipt: Option<nat>): seq<Header> {
    var hs := SetHeader(BaseHeaders(c, corruptMetadata), CONTENT_LENGTH, Decimal(size));
    if receipt.Some? then SetHeader(hs, RECEIPT, ReceiptId(receipt.value)) else hs
  }

  function SendFrame(c: Producer, corruptMetadata: bool, body: Octets, receipt: Option<nat>): Frame {
    Frame(SEND, SendHeaders(c, corruptMetadata, |body|, receipt), body)
  }

  lemma MarksAscii()
    ensures Ascii(X_CHAOS) && Ascii(METADATA_CORRUPTION) && Ascii(DESTINATION)
  {
  }

  lemma MarkedProper(c: Producer, first: Octets, mark: Octets, value: Octets)
    requires ProducerTyped(c) && Ascii(first) && Ascii(mark) && Ascii(value)
    ensures var hs := SetAll(SetHeader([], first, c.destination), c.headers);
            Proper(hs) && Proper(SetHeader(hs, mark, value))
  {
    SetNamed([], first, c.destination);
    SetAllProper(SetHeader([], first, c.destination), c.headers);
    SetAscii(SetAll(SetHeader([], first, c.destination), c.headers), mark, value);
  }

  lemma BaseHeadersProper(c: Producer, corruptMetadata: bool)
    requires ProducerTyped(c)
    ensures Proper(BaseHeaders(c, corruptMetadata))
  {
    MarksAscii();
    MarkedProper(c, DESTINATION, X_CHAOS, METADATA_CORRUPTION);
  }

  lemma DecimalAscii(n: nat)
    ensures Ascii(Decimal(n)) && Ascii(ReceiptId(n))
  {
    var d := Decimal(n);
    forall i | 0 <= i < |d| ensures d[i] < 0x80 {
      assert IsDigit(d[i]);
    }
  }

  lemma LengthNamesAscii()
    ensures Ascii(CONTENT_LENGTH) && Ascii(RECEIPT)
  {
  }

  lemma SendHeadersProper(c: Producer, corruptMetadata: bool, size: nat, receipt: Option<nat>)
    requires ProducerTyped(c)
    ensures Proper(SendHeaders(c, corruptMetadata, size, receipt))
  {
    hide SetHeader, BaseHeaders, Proper, Ascii, Decimal;
    var base := BaseHeaders(c, corruptMetadata);
    BaseHeadersProper(c, corruptMetadata);
    LengthNamesAscii();
    DecimalAscii(size);
    SetAscii(base, CONTENT_LENGTH, Decimal(size));
    if receipt.Some? {
      DecimalAscii(receipt.value);
      SetAscii(SetHeader(base, CONTENT_LENGTH, Decimal(size)), RECEIPT, ReceiptId(receipt.value));
    }
  }

  /** Whatever headers are configured, the length on the wire is the length of the body. */
  lemma SendLength(c: Producer, corruptMetadata: bool, size: nat, receipt: Option<nat>)
    requires size < USIZE_LIMIT
    ensures ContentLength(SendHeaders(c, corruptMetadata, size, receipt)) == Some(size)
  {
    var base := BaseHeaders(c, corruptMetadata);
    var hs := SetHeader(base, CONTENT_LENGTH, Decimal(size));
    SetThenLookup(base, CONTENT_LENGTH, Decimal(size), CONTENT_LENGTH);
    if receipt.Some? {
      assert |LowerAll(RECEIPT)| != |LowerAll(CONTENT_LENGTH)|;
      SetThenLookup(hs, RECEIPT, ReceiptId(receipt.value), CONTENT_LENGTH);
    }
    TrimDecimal(size);
    ParseDecimal(size);
  }

  lemma SendReceipt(c: Producer, corruptMetadata: bool, size: nat, seqNo: nat)
    ensures Lookup(SendHeaders(c, corruptMetadata, size, Some(seqNo)), RECEIPT) == Some(ReceiptId(seqNo))
  {
    var hs := SetHeader(BaseHeaders(c, corruptMetadata), CONTENT_LENGTH, Decimal(size));
    SetThenLookup(hs, RECEIPT, ReceiptId(seqNo), RECEIPT);
  }

  /** A frame with a printable ASCII command and a true length survives. */
  lemma AnnouncedRoundTrip(f: Frame, rest: Octets)
    requires f.command != [] && forall i :: 0 <= i < |f.command| ==> 33 <= f.command[i] < 0x80
    requires HeadersUtf8(f.headers) && ContentLength(f.headers) == Some(|f.body|)
    ensures NextFrame(Encoded(f) + rest) == Complete(f, |Encoded(f)|)
  {
    TrimKeepsAscii(f.command);
    AsciiIsUtf8(f.command);
    FrameRoundTrip(f, rest);
  }

  lemma SendCommand()
    ensures SEND != [] && forall i :: 0 <= i < |SEND| ==> 33 <= SEND[i] < 0x80
  {
  }

  /**
   Every SEND frame decodes to itself, for any binary payload and any configured
   headers, including ones named content-length or receipt in any case.
   */
  lemma SendRoundTrip(c: Producer, corruptMetadata: bool, body: Octets, receipt: Option<nat>, rest: Octets)
    requires ProducerTyped(c) && |body| < USIZE_LIMIT
    ensures var f := SendFrame(c, corruptMetadata, body, receipt);
            && DistinctNames(f.headers)
            && NextFrame(Encoded(f) + rest) == Complete(f, |Encoded(f)|)
            && (receipt.Some? ==> Lookup(f.headers, RECEIPT) == Some(ReceiptId(receipt.value)))
  {
    SendHeadersProper(c, corruptMetadata, |body|, receipt);
    SendLength(c, corruptMetadata, |body|, receipt);
    SendCommand();
    AnnouncedRoundTrip(SendFrame(c, corruptMetadata, body, receipt), rest);
    if receipt.Some? {
      SendReceipt(c, corruptMetadata, |body|, receipt.value);
    }
  }

  /** Receipt ids of different sequence numbers differ. */
  lemma ReceiptIdInjective(i: nat, j: nat)
    ensures ReceiptId(i) == ReceiptId(j) <==> i == j
  {
    assert ReceiptId(i)[2..] == Decimal(i);
    assert ReceiptId(j)[2..] == Decimal(j);
    if ReceiptId(i) == ReceiptId(j) {
      DecimalInjective(i, j);
    }
  }
}
