/** The `gmail` tool: search, read, send, reply and list labels on the
    user's mailbox. The Gmail API is an input (`Mailbox`); what the tool
    computes from its answers — the body it extracts from a MIME tree, the
    headers it shows, the raw RFC 5322 message it sends — is modelled. */
module Gmail {
  import opened Common
  import opened ToolArgs

  // =====================================================================
  // Messages as the API returns them
  // =====================================================================

  datatype Header = Header(name: string, value: string)

  /** A MIME part. `body` is `None` when the part has no body; its data is
      base64url text. */
  datatype Part = Part(mimeType: string, headers: seq<Header>, body: Option<string>, parts: seq<Part>)

  datatype Message = Message(threadId: string, payload: Part)

  datatype Label = Label(id: string, name: string)

  /** `base64.URLEncoding.DecodeString`: `None` on malformed input. */
  type Decoder = string -> Option<string>

  const PlainType: string := "text/plain"
  const HtmlType: string := "text/html"
  const HtmlLead: string := "[HTML content]\n"
  const NoBody: string := "(no readable body)"

  /** The part has the given type and non-empty data that decodes. */
  predicate Decodes(p: Part, mime: string, decode: Decoder) {
    p.mimeType == mime && p.body.Some? && p.body.value != "" && decode(p.body.value).Some?
  }

  function Decoded(p: Part, mime: string, decode: Decoder): string
    requires Decodes(p, mime, decode)
  {
    decode(p.body.value).value
  }

  /** Base64 decoding of non-empty data never yields empty text. */
  ghost predicate KeepsContent(decode: Decoder) {
    forall s :: s != "" && decode(s).Some? ==> decode(s).value != ""
  }

  // =====================================================================
  // The HTML fallback: the first decodable text/html child
  // =====================================================================

  function FirstHtml(parts: seq<Part>, decode: Decoder): (r: Option<string>)
    ensures r.None? <==> forall j :: 0 <= j < |parts| ==> !Decodes(parts[j], HtmlType, decode)
    ensures r.Some? ==> exists k :: (0 <= k < |parts| && Decodes(parts[k], HtmlType, decode)
      && r.value == Decoded(parts[k], HtmlType, decode)
      && forall j :: 0 <= j < k ==> !Decodes(parts[j], HtmlType, decode))
  {
    if parts == [] then None
    else if Decodes(parts[0], HtmlType, decode) then Some(Decoded(parts[0], HtmlType, decode))
    else
      var r := FirstHtml(parts[1..], decode);
      assert forall j :: 1 <= j < |parts| ==> parts[j] == parts[1..][j - 1];
      if r.Some? then
        var k :| 0 <= k < |parts[1..]| && Decodes(parts[1..][k], HtmlType, decode)
          && r.value == Decoded(parts[1..][k], HtmlType, decode)
          && forall j :: 0 <= j < k ==> !Decodes(parts[1..][j], HtmlType, decode);
        assert parts[k + 1] == parts[1..][k];
        r
      else r
  }

  function HtmlOrNothing(parts: seq<Part>, decode: Decoder): string {
    match FirstHtml(parts, decode)
    case Some(h) => HtmlLead + h
    case None => NoBody
  }

  // =====================================================================
  // extractBody as written
  // =====================================================================

  /** `extractBody` as the source writes it, and as the `read` action uses
      it: a nested part's result wins as soon as it is non-empty, and that
      includes the `NoBody` text a nested part returns when it has nothing
      readable. */
  function BodyAsWritten(p: Part, decode: Decoder): string
    decreases p, |p.parts| + 1
  {
    if Decodes(p, PlainType, decode) then Decoded(p, PlainType, decode)
    else
      match PartsAsWritten(p, 0, decode)
      case Some(b) => b
      case None => HtmlOrNothing(p.parts, decode)
  }

  /** The loop over the children from index `i` on. */
  function PartsAsWritten(p: Part, i: nat, decode: Decoder): Option<string>
    requires i <= |p.parts|
    decreases p, |p.parts| - i
  {
    if i == |p.parts| then None
    else
      var part := p.parts[i];
      if Decodes(part, PlainType, decode) then Some(Decoded(part, PlainType, decode))
      else if |part.parts| > 0 && BodyAsWritten(part, decode) != "" then Some(BodyAsWritten(part, decode))
      else PartsAsWritten(p, i + 1, decode)
  }

  /** A child the written loop passes over: not decodable plain text, and
      not a multipart child whose own result is non-empty. */
  predicate SkippedAsWritten(part: Part, decode: Decoder) {
    && !Decodes(part, PlainType, decode)
    && (|part.parts| == 0 || BodyAsWritten(part, decode) == "")
  }

  /** The written loop finds nothing exactly when it passes over every child. */
  lemma {:induction false} PartsAsWrittenNone(p: Part, i: nat, decode: Decoder)
    requires i <= |p.parts|
    ensures PartsAsWritten(p, i, decode).None? <==>
      forall j :: i <= j < |p.parts| ==> SkippedAsWritten(p.parts[j], decode)
    decreases |p.parts| - i
  {
    if i < |p.parts| {
      PartsAsWrittenNone(p, i + 1, decode);
    }
  }

  /** The written loop stops at the first child it does not pass over. */
  lemma {:induction false} PartsAsWrittenFirst(p: Part, i: nat, k: nat, decode: Decoder)
    requires i <= k < |p.parts| && Decodes(p.parts[k], PlainType, decode)
    requires forall j :: i <= j < k ==> SkippedAsWritten(p.parts[j], decode)
    ensures PartsAsWritten(p, i, decode) == Some(Decoded(p.parts[k], PlainType, decode))
    decreases k - i
  {
    if i < k {
      PartsAsWrittenFirst(p, i + 1, k, decode);
    }
  }

  /** As written, the first decodable text/plain child is the body when
      every child before it was passed over. */
  lemma WrittenFirstPlainChild(p: Part, k: nat, decode: Decoder)
    requires !Decodes(p, PlainType, decode)
    requires k < |p.parts| && Decodes(p.parts[k], PlainType, decode)
    requires forall j :: 0 <= j < k ==> SkippedAsWritten(p.parts[j], decode)
    ensures BodyAsWritten(p, decode) == Decoded(p.parts[k], PlainType, decode)
  {
    PartsAsWrittenFirst(p, 0, k, decode);
  }

  /** The written loop stops at a multipart child with a non-empty result
      when every child before it was passed over. */
  lemma {:induction false} PartsAsWrittenNested(p: Part, i: nat, k: nat, decode: Decoder)
    requires i <= k < |p.parts| && !Decodes(p.parts[k], PlainType, decode)
    requires |p.parts[k].parts| > 0 && BodyAsWritten(p.parts[k], decode) != ""
    requires forall j :: i <= j < k ==> SkippedAsWritten(p.parts[j], decode)
    ensures PartsAsWritten(p, i, decode) == Some(BodyAsWritten(p.parts[k], decode))
    decreases k - i
  {
    if i < k {
      PartsAsWrittenNested(p, i + 1, k, decode);
    }
  }

  /** As written, a multipart child whose own result is non-empty is the
      body when every child before it was passed over, even when that result
      is the `NoBody` text. */
  lemma WrittenNestedWins(p: Part, k: nat, decode: Decoder)
    requires !Decodes(p, PlainType, decode)
    requires k < |p.parts| && !Decodes(p.parts[k], PlainType, decode)
    requires |p.parts[k].parts| > 0 && BodyAsWritten(p.parts[k], decode) != ""
    requires forall j :: 0 <= j < k ==> SkippedAsWritten(p.parts[j], decode)
    ensures BodyAsWritten(p, decode) == BodyAsWritten(p.parts[k], decode)
  {
    PartsAsWrittenNested(p, 0, k, decode);
  }

  /** As written, when no child yields anything the first decodable
      text/html child is shown behind the `[HTML content]` line, and failing
      that the body is reported as unreadable. */
  lemma WrittenHtmlFallback(p: Part, decode: Decoder)
    requires !Decodes(p, PlainType, decode)
    requires forall j :: 0 <= j < |p.parts| ==> SkippedAsWritten(p.parts[j], decode)
    ensures BodyAsWritten(p, decode) == HtmlOrNothing(p.parts, decode)
  {
    PartsAsWrittenNone(p, 0, decode);
  }

  // =====================================================================
  // extractBody, corrected: a nested part that has nothing readable does
  // not stop the search
  // =====================================================================

  /** What the search finds in `p`, or `None` when nothing is readable. */
  function Search(p: Part, decode: Decoder): Option<string>
    decreases p, |p.parts| + 1
  {
    if Decodes(p, PlainType, decode) then Some(Decoded(p, PlainType, decode))
    else
      match SearchParts(p, 0, decode)
      case Some(b) => Some(b)
      case None =>
        match FirstHtml(p.parts, decode)
        case Some(h) => Some(HtmlLead + h)
        case None => None
  }

  function SearchParts(p: Part, i: nat, decode: Decoder): Option<string>
    requires i <= |p.parts|
    decreases p, |p.parts| - i
  {
    if i == |p.parts| then None
    else
      var part := p.parts[i];
      if Decodes(part, PlainType, decode) then Some(Decoded(part, PlainType, decode))
      else if |part.parts| > 0 && Search(part, decode).Some? && Search(part, decode).value != "" then
        Search(part, decode)
      else SearchParts(p, i + 1, decode)
  }

  /** `extractBody` with the fix: the body the `read` action would show if a
      nested part without readable text did not stop the search. The `read`
      action itself shows `BodyAsWritten`. */
  function ExtractBody(p: Part, decode: Decoder): string {
    match Search(p, decode)
    case Some(b) => b
    case None => NoBody
  }

  /** A child the loop over the children passes over: not decodable plain
      text, and not a multipart child with a non-empty result. */
  predicate Skipped(part: Part, decode: Decoder) {
    && !Decodes(part, PlainType, decode)
    && (|part.parts| == 0 || Search(part, decode).None? || Search(part, decode).value == "")
  }

  /** The loop finds nothing exactly when it passes over every child. */
  lemma {:induction false} SearchPartsNone(p: Part, i: nat, decode: Decoder)
    requires i <= |p.parts|
    ensures SearchParts(p, i, decode).None? <==> forall j :: i <= j < |p.parts| ==> Skipped(p.parts[j], decode)
    decreases |p.parts| - i
  {
    if i < |p.parts| {
      SearchPartsNone(p, i + 1, decode);
    }
  }

  /** The loop stops at the first child it does not pass over. */
  lemma {:induction false} SearchPartsFirst(p: Part, i: nat, k: nat, decode: Decoder)
    requires i <= k < |p.parts| && Decodes(p.parts[k], PlainType, decode)
    requires forall j :: i <= j < k ==> Skipped(p.parts[j], decode)
    ensures SearchParts(p, i, decode) == Some(Decoded(p.parts[k], PlainType, decode))
    decreases k - i
  {
    if i < k {
      SearchPartsFirst(p, i + 1, k, decode);
    }
  }

  /** A text/plain payload with decodable data is its own body. */
  lemma DirectPlainWins(p: Part, decode: Decoder)
    requires Decodes(p, PlainType, decode)
    ensures ExtractBody(p, decode) == Decoded(p, PlainType, decode)
    ensures BodyAsWritten(p, decode) == Decoded(p, PlainType, decode)
  {
  }

  /** Otherwise the first decodable text/plain child is the body, provided
      every child before it was passed over. */
  lemma FirstPlainChild(p: Part, k: nat, decode: Decoder)
    requires !Decodes(p, PlainType, decode)
    requires k < |p.parts| && Decodes(p.parts[k], PlainType, decode)
    requires forall j :: 0 <= j < k ==> Skipped(p.parts[j], decode)
    ensures ExtractBody(p, decode) == Decoded(p.parts[k], PlainType, decode)
  {
    SearchPartsFirst(p, 0, k, decode);
  }

  /** When no child yields plain text, the first decodable text/html child
      is shown behind the `[HTML content]` line, and failing that the body
      is reported as unreadable. */
  lemma HtmlFallback(p: Part, decode: Decoder)
    requires !Decodes(p, PlainType, decode)
    requires forall j :: 0 <= j < |p.parts| ==> Skipped(p.parts[j], decode)
    ensures ExtractBody(p, decode) == HtmlOrNothing(p.parts, decode)
  {
    SearchPartsNone(p, 0, decode);
  }

  lemma {:induction false} SearchPartsNonEmpty(p: Part, i: nat, decode: Decoder)
    requires KeepsContent(decode) && i <= |p.parts|
    ensures SearchParts(p, i, decode).Some? ==> SearchParts(p, i, decode).value != ""
    decreases |p.parts| - i
  {
    if i < |p.parts| {
      SearchPartsNonEmpty(p, i + 1, decode);
      var part := p.parts[i];
      if Decodes(part, PlainType, decode) {
        assert decode(part.body.value).Some?;
      }
    }
  }

  /** Whatever the search finds is non-empty text. */
  lemma SearchNonEmpty(p: Part, decode: Decoder)
    requires KeepsContent(decode)
    ensures Search(p, decode).Some? ==> Search(p, decode).value != ""
  {
    SearchPartsNonEmpty(p, 0, decode);
    if Decodes(p, PlainType, decode) {
      assert decode(p.body.value).Some?;
    }
  }

  /** Some part of the tree, at any depth, is decodable plain text. */
  predicate HasPlain(p: Part, decode: Decoder)
    decreases p
  {
    Decodes(p, PlainType, decode) || exists k :: 0 <= k < |p.parts| && HasPlain(p.parts[k], decode)
  }

  /** The corrected search finds readable text whenever the tree holds a
      decodable text/plain part anywhere. */
  lemma {:induction false} PlainIsFound(p: Part, decode: Decoder)
    requires KeepsContent(decode) && HasPlain(p, decode)
    ensures Search(p, decode).Some?
    ensures ExtractBody(p, decode) == Search(p, decode).value
    decreases p
  {
    if !Decodes(p, PlainType, decode) {
      var k :| 0 <= k < |p.parts| && HasPlain(p.parts[k], decode);
      var child := p.parts[k];
      if !Decodes(child, PlainType, decode) {
        var g :| 0 <= g < |child.parts| && HasPlain(child.parts[g], decode);
        assert |child.parts| > 0;
      }
      PlainIsFound(child, decode);
      SearchNonEmpty(child, decode);
      assert !Skipped(child, decode);
      SearchPartsNone(p, 0, decode);
    }
  }

  /** On a payload none of whose children has children of its own, the
      source and the corrected search agree. */
  lemma {:induction false} FlatPartsAgree(p: Part, i: nat, decode: Decoder)
    requires i <= |p.parts|
    requires forall j :: 0 <= j < |p.parts| ==> p.parts[j].parts == []
    ensures PartsAsWritten(p, i, decode) == SearchParts(p, i, decode)
    decreases |p.parts| - i
  {
    if i < |p.parts| {
      FlatPartsAgree(p, i + 1, decode);
    }
  }

  lemma FlatPayloadAgrees(p: Part, decode: Decoder)
    requires forall j :: 0 <= j < |p.parts| ==> p.parts[j].parts == []
    ensures BodyAsWritten(p, decode) == ExtractBody(p, decode)
  {
    FlatPartsAgree(p, 0, decode);
  }

  /** A decoder for the example below: "aGk=" is "hi", anything else "?". */
  function ExampleDecode(s: string): Option<string> {
    if s == "aGk=" then Some("hi") else Some("?")
  }

  /** multipart/mixed holding an image-only multipart/related part and then
      the text/plain part "aGk=". */
  function ShadowedPlain(): Part {
    var image := Part("image/png", [], Some("iVBO"), []);
    var related := Part("multipart/related", [], None, [image]);
    var text := Part(PlainType, [], Some("aGk="), []);
    Part("multipart/mixed", [], None, [related, text])
  }

  /** As written, the image-only part's "(no readable body)" stops the search
      before the text part; the corrected search returns the text. */
  lemma NestedSentinelShadowsPlain()
    ensures KeepsContent(ExampleDecode) && HasPlain(ShadowedPlain(), ExampleDecode)
    ensures BodyAsWritten(ShadowedPlain(), ExampleDecode) == NoBody
    ensures ExtractBody(ShadowedPlain(), ExampleDecode) == "hi"
  {
    var p := ShadowedPlain();
    var related := p.parts[0];
    var text := p.parts[1];
    assert Decodes(text, PlainType, ExampleDecode);
    assert HasPlain(text, ExampleDecode);
    assert !Decodes(related.parts[0], HtmlType, ExampleDecode);
    assert FirstHtml(related.parts, ExampleDecode) == None;
    assert PartsAsWritten(related, 0, ExampleDecode) == None;
    assert BodyAsWritten(related, ExampleDecode) == NoBody;
    assert PartsAsWritten(p, 0, ExampleDecode) == Some(NoBody);
    assert SearchParts(related, 0, ExampleDecode) == None;
    assert Search(related, ExampleDecode) == None;
    assert SearchParts(p, 0, ExampleDecode) == Some("hi");
  }

  // =====================================================================
  // Header lookup
  // =====================================================================

  /** The value the header loops keep for `name`: the last one wins, and a
      missing header leaves the empty string. */
  function LastValue(hs: seq<Header>, name: string): string {
    if hs == [] then ""
    else if hs[|hs| - 1].name == name then hs[|hs| - 1].value
    else LastValue(hs[..|hs| - 1], name)
  }

  lemma LastValueSnoc(hs: seq<Header>, h: Header, name: string)
    ensures LastValue(hs + [h], name) == if h.name == name then h.value else LastValue(hs, name)
  {
    assert (hs + [h])[..|hs|] == hs;
  }

  /** Without a header of that name the value is empty. */
  lemma {:induction false} LastValueAbsent(hs: seq<Header>, name: string)
    requires forall k :: 0 <= k < |hs| ==> hs[k].name != name
    ensures LastValue(hs, name) == ""
  {
    if hs != [] {
      LastValueAbsent(hs[..|hs| - 1], name);
    }
  }

  /** Otherwise it is the value of the last header of that name. */
  lemma {:induction false} LastValueIsLast(hs: seq<Header>, name: string, k: nat)
    requires k < |hs| && hs[k].name == name
    requires forall j :: k < j < |hs| ==> hs[j].name != name
    ensures LastValue(hs, name) == hs[k].value
  {
    if k < |hs| - 1 {
      var init := hs[..|hs| - 1];
      assert init[k] == hs[k];
      LastValueIsLast(init, name, k);
    }
  }

  /** The `switch h.Name` loop: one pass over the headers that reassigns
      the variable for each name it meets. */
  method LastValues(hs: seq<Header>, names: seq<string>) returns (vals: seq<string>)
    ensures |vals| == |names|
    ensures forall j :: 0 <= j < |names| ==> vals[j] == LastValue(hs, names[j])
  {
    vals := seq(|names|, j => "");
    for i := 0 to |hs|
      invariant |vals| == |names|
      invariant forall j :: 0 <= j < |names| ==> vals[j] == LastValue(hs[..i], names[j])
    {
      var h := hs[i];
      assert hs[..i + 1] == hs[..i] + [h];
      forall j | 0 <= j < |names|
        ensures LastValue(hs[..i + 1], names[j]) == if h.name == names[j] then h.value else vals[j]
      {
        LastValueSnoc(hs[..i], h, names[j]);
      }
      vals := seq(|names|, j requires 0 <= j < |vals| => if h.name == names[j] then h.value else vals[j]);
    }
    assert hs[..|hs|] == hs;
  }

  // =====================================================================
  // read: the headers shown
  // =====================================================================

  const ReadNames: seq<string> := ["From", "To", "Cc", "Subject", "Date"]

  function ShownLine(h: Header): string {
    if h.name in ReadNames then h.name + ": " + h.value + "\n" else ""
  }

  function ShownHeaders(hs: seq<Header>): string {
    if hs == [] then "" else ShownLine(hs[0]) + ShownHeaders(hs[1..])
  }

  lemma {:induction false} ShownHeadersAppend(a: seq<Header>, b: seq<Header>)
    ensures ShownHeaders(a + b) == ShownHeaders(a) + ShownHeaders(b)
    decreases |a|
  {
    if a == [] {
      assert a + b == b;
    } else {
      assert (a + b)[0] == a[0] && (a + b)[1..] == a[1..] + b;
      ShownHeadersAppend(a[1..], b);
      AppendAssoc(ShownLine(a[0]), ShownHeaders(a[1..]), ShownHeaders(b));
    }
  }

  /** The headers `read` keeps, in payload order. */
  function Kept(hs: seq<Header>): (r: seq<Header>)
    ensures |r| <= |hs|
    ensures forall h :: h in r ==> h in hs && h.name in ReadNames
    ensures forall h :: h in hs && h.name in ReadNames ==> h in r
  {
    if hs == [] then []
    else (if hs[0].name in ReadNames then [hs[0]] else []) + Kept(hs[1..])
  }

  function Lines(hs: seq<Header>): string {
    if hs == [] then "" else hs[0].name + ": " + hs[0].value + "\n" + Lines(hs[1..])
  }

  /** `read` shows one "Name: value" line per kept header, in payload order,
      and nothing for the others. */
  lemma {:induction false} ShownAreKept(hs: seq<Header>)
    ensures ShownHeaders(hs) == Lines(Kept(hs))
  {
    if hs != [] {
      ShownAreKept(hs[1..]);
      if hs[0].name in ReadNames {
        assert Kept(hs) == [hs[0]] + Kept(hs[1..]);
        assert ([hs[0]] + Kept(hs[1..]))[1..] == Kept(hs[1..]);
        AppendAssoc(hs[0].name + ": " + hs[0].value, "\n", Lines(Kept(hs[1..])));
      } else {
        assert Kept(hs) == Kept(hs[1..]);
      }
    }
  }

  /** The text of `read`: shown headers, a blank line, the body. */
  method FormatRead(hs: seq<Header>, body: string) returns (s: string)
    ensures s == ShownHeaders(hs) + "\n" + body
  {
    s := "";
    for i := 0 to |hs|
      invariant s == ShownHeaders(hs[..i])
    {
      var h := hs[i];
      ShownHeadersAppend(hs[..i], [h]);
      assert hs[..i + 1] == hs[..i] + [h];
      assert [h][1..] == [];
      if h.name in ReadNames {
        s := s + (h.name + ": " + h.value + "\n");
      }
    }
    assert hs[..|hs|] == hs;
    s := s + "\n" + body;
  }

  // =====================================================================
  // send and reply: the raw message
  // =====================================================================

  const MimeVersion: Header := Header("MIME-Version", "1.0")
  const ContentType: Header := Header("Content-Type", "text/plain; charset=\"UTF-8\"")
  const Crlf: string := "\r\n"

  function HeaderLine(h: Header): string {
    h.name + ": " + h.value + Crlf
  }

  function HeaderBlock(hs: seq<Header>): string {
    if hs == [] then "" else HeaderLine(hs[0]) + HeaderBlock(hs[1..])
  }

  /** An RFC 5322 message: header lines ending in CRLF, an empty line, the body. */
  function Raw(hs: seq<Header>, body: string): string {
    HeaderBlock(hs) + Crlf + body
  }

  /** The first header is the first line of the message. */
  lemma RawStartsWithFirstHeader(hs: seq<Header>, body: string)
    requires hs != []
    ensures HasPrefix(Raw(hs, body), HeaderLine(hs[0]))
  {
    var first := HeaderLine(hs[0]);
    var tail := Crlf + body;
    AppendAssoc(first, HeaderBlock(hs[1..]), tail);
    assert Raw(hs, body) == first + (HeaderBlock(hs[1..]) + tail);
  }

  /** The body follows the header lines after an empty line, and nothing
      but the body follows that line. */
  lemma RawEndsWithBody(hs: seq<Header>, body: string)
    requires hs != []
    ensures HasSuffix(Raw(hs, body), Crlf + Crlf + body)
    ensures Raw(hs, body)[|HeaderBlock(hs)| + 2..] == body
  {
    var block := HeaderBlock(hs);
    HeaderBlockEndsInCrlf(hs);
    var front := block[..|block| - 2];
    assert block == front + Crlf;
    assert Raw(hs, body) == front + (Crlf + Crlf + body);
  }

  lemma {:induction false} HeaderBlockEndsInCrlf(hs: seq<Header>)
    requires hs != []
    ensures HasSuffix(HeaderBlock(hs), Crlf)
  {
    var line := HeaderLine(hs[0]);
    var rest := HeaderBlock(hs[1..]);
    if hs[1..] == [] {
      assert HeaderBlock(hs) == line + "";
    } else {
      HeaderBlockEndsInCrlf(hs[1..]);
      assert (line + rest)[|line + rest| - 2..] == rest[|rest| - 2..];
    }
  }

  const SendRequired: string := "to, subject, and body are required for send"
  const ReplyRequired: string := "id and body are required for reply"

  /** The headers `send` writes: To, Cc only when given, Subject, MIME-Version
      and Content-Type. */
  function SendHeaders(to: string, cc: string, subject: string): seq<Header> {
    [Header("To", to)] + (if cc != "" then [Header("Cc", cc)] else [])
      + [Header("Subject", subject), MimeVersion, ContentType]
  }

  function Names(hs: seq<Header>): seq<string> {
    seq(|hs|, k requires 0 <= k < |hs| => hs[k].name)
  }

  /** A Cc line appears exactly when a Cc is given, with that value, and the
      header order is fixed. */
  lemma SendCc(to: string, cc: string, subject: string)
    ensures var hs := SendHeaders(to, cc, subject);
      && ((exists k :: 0 <= k < |hs| && hs[k].name == "Cc") <==> cc != "")
      && (forall k :: 0 <= k < |hs| && hs[k].name == "Cc" ==> hs[k].value == cc)
      && Names(hs) == ["To"] + (if cc != "" then ["Cc"] else []) + ["Subject", "MIME-Version", "Content-Type"]
  {
    var hs := SendHeaders(to, cc, subject);
    if cc != "" {
      assert hs[1].name == "Cc";
    }
  }

  /** `Re: ` is added unless the subject already starts with "re:" in any case. */
  function ReplySubject(subject: string): string {
    if HasPrefix(ToLower(subject), "re:") then subject else "Re: " + subject
  }

  /** Replying to a reply does not stack another prefix. */
  lemma ReplySubjectIdempotent(subject: string)
    ensures HasPrefix(ToLower(ReplySubject(subject)), "re:")
    ensures ReplySubject(ReplySubject(subject)) == ReplySubject(subject)
    ensures HasSuffix(ReplySubject(subject), subject)
  {
    var r := ReplySubject(subject);
    if !HasPrefix(ToLower(subject), "re:") {
      assert r[..3] == "Re:";
      assert ToLower(r)[..3] == "re:";
      assert r[|r| - |subject|..] == subject;
    }
  }

  /** The References chain: the original's references followed by its
      Message-Id, or the Message-Id alone. */
  function ReferencesChain(references: string, messageID: string): string {
    if references != "" then references + " " + messageID else messageID
  }

  /** The chain keeps the earlier references and ends with the replied-to id. */
  lemma ReferencesExtend(references: string, messageID: string)
    ensures HasSuffix(ReferencesChain(references, messageID), messageID)
    ensures references != "" ==> HasPrefix(ReferencesChain(references, messageID), references + " ")
    ensures references == "" ==> ReferencesChain(references, messageID) == messageID
  {
    var r := ReferencesChain(references, messageID);
    assert r[|r| - |messageID|..] == messageID;
    if references != "" {
      assert r[..|references| + 1] == references + " ";
    }
  }

  /** The headers of a reply to a message with the given From, Subject,
      Message-Id and References. */
  function ReplyHeaders(from: string, subject: string, messageID: string, references: string): seq<Header> {
    [ Header("To", from), Header("Subject", ReplySubject(subject)),
      Header("In-Reply-To", messageID), Header("References", ReferencesChain(references, messageID)),
      MimeVersion, ContentType ]
  }

  /** The names `reply` reads from the original, in the order of its switch. */
  const ReplyNames: seq<string> := ["From", "Subject", "Message-Id", "References"]

  /** What goes to `Messages.Send`: the raw message (before its base64url
      encoding) and the thread it joins, empty for a new message. */
  datatype Outgoing = Outgoing(raw: string, threadId: string)

  function ReplyTo(orig: Message, body: string): Outgoing {
    var hs := orig.payload.headers;
    Outgoing(Raw(ReplyHeaders(LastValue(hs, "From"), LastValue(hs, "Subject"),
                              LastValue(hs, "Message-Id"), LastValue(hs, "References")), body),
             orig.threadId)
  }

  /** A reply goes to the original's sender, in its thread, and threads
      through In-Reply-To and References onto its Message-Id. */
  lemma ReplyThreads(orig: Message, body: string)
    ensures var hs := orig.payload.headers;
      var rh := ReplyHeaders(LastValue(hs, "From"), LastValue(hs, "Subject"),
                             LastValue(hs, "Message-Id"), LastValue(hs, "References"));
      && ReplyTo(orig, body).threadId == orig.threadId
      && HasPrefix(ReplyTo(orig, body).raw, HeaderLine(Header("To", LastValue(hs, "From"))))
      && HasSuffix(ReplyTo(orig, body).raw, Crlf + Crlf + body)
      && rh[2].value == LastValue(hs, "Message-Id")
      && HasSuffix(rh[3].value, LastValue(hs, "Message-Id"))
      && HasPrefix(ToLower(rh[1].value), "re:")
  {
    var hs := orig.payload.headers;
    var rh := ReplyHeaders(LastValue(hs, "From"), LastValue(hs, "Subject"),
                           LastValue(hs, "Message-Id"), LastValue(hs, "References"));
    RawStartsWithFirstHeader(rh, body);
    RawEndsWithBody(rh, body);
    ReferencesExtend(LastValue(hs, "References"), LastValue(hs, "Message-Id"));
    ReplySubjectIdempotent(LastValue(hs, "Subject"));
  }

  // =====================================================================
  // search and list_labels: the listings
  // =====================================================================

  /** The entry for the `n`-th listed message; a message whose lookup failed
      gets none, but still uses up its number. */
  function EntryFor(n: int, id: string, got: Result<Message>): string {
    if got.Err? then ""
    else
      var hs := got.value.payload.headers;
      EntryText(n, id, LastValue(hs, "From"), LastValue(hs, "Subject"), LastValue(hs, "Date"))
  }

  function EntryText(n: int, id: string, from: string, subject: string, date: string): string {
    Itoa(n) + ". ID: " + id + "\n   From: " + from
      + "\n   Subject: " + subject + "\n   Date: " + date + "\n\n"
  }

  function Entries(ids: seq<string>, get: string -> Result<Message>, n: int): string {
    if ids == [] then "" else EntryFor(n, ids[0], get(ids[0])) + Entries(ids[1..], get, n + 1)
  }

  lemma {:induction false} EntriesAppend(a: seq<string>, b: seq<string>, get: string -> Result<Message>, n: int)
    ensures Entries(a + b, get, n) == Entries(a, get, n) + Entries(b, get, n + |a|)
    decreases |a|
  {
    if a == [] {
      assert a + b == b;
    } else {
      assert (a + b)[0] == a[0] && (a + b)[1..] == a[1..] + b;
      EntriesAppend(a[1..], b, get, n + 1);
      AppendAssoc(EntryFor(n, a[0], get(a[0])), Entries(a[1..], get, n + 1), Entries(b, get, n + |a|));
    }
  }

  /** Entries are numbered by position in the listing: a failed lookup
      leaves a gap in the numbering rather than shifting later entries. */
  lemma EntriesNumbered(ids: seq<string>, get: string -> Result<Message>, k: nat)
    requires k < |ids|
    ensures Entries(ids, get, 1)
      == Entries(ids[..k], get, 1) + (EntryFor(k + 1, ids[k], get(ids[k])) + Entries(ids[k + 1..], get, k + 2))
  {
    var rest := ids[k..];
    assert ids == ids[..k] + rest;
    EntriesAppend(ids[..k], rest, get, 1);
    assert rest[0] == ids[k] && rest[1..] == ids[k + 1..];
  }

  lemma EntriesSnoc(ids: seq<string>, get: string -> Result<Message>, i: nat)
    requires i < |ids|
    ensures Entries(ids[..i + 1], get, 1) == Entries(ids[..i], get, 1) + EntryFor(i + 1, ids[i], get(ids[i]))
  {
    assert ids[..i + 1] == ids[..i] + [ids[i]];
    EntriesAppend(ids[..i], [ids[i]], get, 1);
    assert [ids[i]][1..] == [];
  }

  function SearchText(ids: seq<string>, get: string -> Result<Message>): string {
    "Found " + Itoa(|ids|) + " messages:\n\n" + Entries(ids, get, 1)
  }

  /** The count in the heading is every listed message, fetched or not. */
  lemma FailedLookupsStillCounted(ids: seq<string>, get: string -> Result<Message>)
    requires forall k :: 0 <= k < |ids| ==> get(ids[k]).Err?
    ensures SearchText(ids, get) == "Found " + Itoa(|ids|) + " messages:\n\n"
  {
    NoEntries(ids, get, 1);
  }

  lemma {:induction false} NoEntries(ids: seq<string>, get: string -> Result<Message>, n: int)
    requires forall k :: 0 <= k < |ids| ==> get(ids[k]).Err?
    ensures Entries(ids, get, n) == ""
  {
    if ids != [] {
      assert forall k :: 0 <= k < |ids[1..]| ==> ids[1..][k] == ids[k + 1];
      NoEntries(ids[1..], get, n + 1);
    }
  }

  /** One entry of `search`: the header loop over the fetched message. */
  method FormatEntry(n: int, id: string, got: Result<Message>) returns (e: string)
    ensures e == EntryFor(n, id, got)
  {
    e := "";
    if got.Ok? {
      var vals := LastValues(got.value.payload.headers, ["From", "Subject", "Date"]);
      e := EntryText(n, id, vals[0], vals[1], vals[2]);
    }
  }

  /** The loop of `search` that writes one entry per listed message. */
  method FormatSearch(ids: seq<string>, get: string -> Result<Message>) returns (s: string)
    ensures s == SearchText(ids, get)
  {
    var lead := "Found " + Itoa(|ids|) + " messages:\n\n";
    s := lead;
    for i := 0 to |ids|
      invariant s == lead + Entries(ids[..i], get, 1)
    {
      EntriesSnoc(ids, get, i);
      var e := FormatEntry(i + 1, ids[i], get(ids[i]));
      AppendAssoc(lead, Entries(ids[..i], get, 1), e);
      s := s + e;
    }
    assert ids[..|ids|] == ids;
  }

  function LabelLine(l: Label): string {
    "- " + l.name + " (ID: " + l.id + ")\n"
  }

  function LabelLines(ls: seq<Label>): string {
    if ls == [] then "" else LabelLine(ls[0]) + LabelLines(ls[1..])
  }

  /** One line per label, in the order the API lists them. */
  lemma {:induction false} LabelLinesAppend(a: seq<Label>, b: seq<Label>)
    ensures LabelLines(a + b) == LabelLines(a) + LabelLines(b)
    decreases |a|
  {
    if a == [] {
      assert a + b == b;
    } else {
      assert (a + b)[0] == a[0] && (a + b)[1..] == a[1..] + b;
      LabelLinesAppend(a[1..], b);
      AppendAssoc(LabelLine(a[0]), LabelLines(a[1..]), LabelLines(b));
    }
  }

  method FormatLabels(ls: seq<Label>) returns (s: string)
    ensures s == "Labels:\n" + LabelLines(ls)
  {
    s := "Labels:\n";
    for i := 0 to |ls|
      invariant s == "Labels:\n" + LabelLines(ls[..i])
    {
      assert ls[..i + 1] == ls[..i] + [ls[i]];
      LabelLinesAppend(ls[..i], [ls[i]]);
      assert [ls[i]][1..] == [];
      AppendAssoc("Labels:\n", LabelLines(ls[..i]), LabelLine(ls[i]));
      s := s + LabelLine(ls[i]);
    }
    assert ls[..|ls|] == ls;
  }

  // =====================================================================
  // Execute
  // =====================================================================

  /** The Gmail API as the tool sees it. `service` is the error of
      `gmail.NewService`, if any; `list` answers a query with a result
      limit; `get` fetches a message; `send` sends and returns the new id. */
  datatype Mailbox = Mailbox(
    service: Option<string>,
    list: (string, int) -> Result<seq<string>>,
    get: string -> Result<Message>,
    labels: Result<seq<Label>>,
    send: Outgoing -> Result<string>,
    decode: Decoder)

  /** A tool result and the message handed to `Messages.Send`, if any. */
  datatype Effect = Effect(result: ToolResult, sent: Option<Outgoing>)

  const DefaultMaxResults: int := 10
  const Actions: seq<string> := ["search", "read", "send", "reply", "list_labels"]

  function SearchOutcome(args: Args, mb: Mailbox): ToolResult {
    match NonEmptyArg(args, "query")
    case None => ErrorResult("query is required for search")
    case Some(q) =>
      match mb.list(q, PositiveOr(args, "max_results", DefaultMaxResults))
      case Err(e) => ErrorResult("search failed: " + e)
      case Ok(ids) =>
        if ids == [] then SilentResult("No messages found.")
        else SilentResult(SearchText(ids, mb.get))
  }

  function ReadOutcome(args: Args, mb: Mailbox): ToolResult {
    match NonEmptyArg(args, "id")
    case None => ErrorResult("id is required for read")
    case Some(id) =>
      match mb.get(id)
      case Err(e) => ErrorResult("failed to read message: " + e)
      case Ok(msg) =>
        SilentResult(ShownHeaders(msg.payload.headers) + "\n" + BodyAsWritten(msg.payload, mb.decode))
  }

  function SendOutcome(args: Args, mb: Mailbox): Effect {
    var to := StringOr(args, "to");
    var subject := StringOr(args, "subject");
    var body := StringOr(args, "body");
    var cc := StringOr(args, "cc");
    if to == "" || subject == "" || body == "" then Effect(ErrorResult(SendRequired), None)
    else
      var out := Outgoing(Raw(SendHeaders(to, cc, subject), body), "");
      match mb.send(out)
      case Err(e) => Effect(ErrorResult("failed to send email: " + e), Some(out))
      case Ok(sentID) => Effect(SilentResult("Email sent successfully. Message ID: " + sentID), Some(out))
  }

  function ReplyOutcome(args: Args, mb: Mailbox): Effect {
    var id := StringOr(args, "id");
    var body := StringOr(args, "body");
    if id == "" || body == "" then Effect(ErrorResult(ReplyRequired), None)
    else
      match mb.get(id)
      case Err(e) => Effect(ErrorResult("failed to get original message: " + e), None)
      case Ok(orig) =>
        var out := ReplyTo(orig, body);
        match mb.send(out)
        case Err(e) => Effect(ErrorResult("failed to reply: " + e), Some(out))
        case Ok(sentID) => Effect(SilentResult("Reply sent successfully. Message ID: " + sentID), Some(out))
  }

  function LabelsOutcome(mb: Mailbox): ToolResult {
    match mb.labels
    case Err(e) => ErrorResult("failed to list labels: " + e)
    case Ok(ls) => SilentResult("Labels:\n" + LabelLines(ls))
  }

  /** What `Execute` returns and sends for the given arguments. */
  function Outcome(args: Args, mb: Mailbox): Effect {
    var action := StringOr(args, "action");
    if mb.service.Some? then Effect(ErrorResult("gmail service error: " + mb.service.value), None)
    else if action == "search" then Effect(SearchOutcome(args, mb), None)
    else if action == "read" then Effect(ReadOutcome(args, mb), None)
    else if action == "send" then SendOutcome(args, mb)
    else if action == "reply" then ReplyOutcome(args, mb)
    else if action == "list_labels" then Effect(LabelsOutcome(mb), None)
    else Effect(ErrorResult("unknown gmail action: " + action), None)
  }

  /** A service that cannot be created fails every action, known or not. */
  lemma ServiceErrorFirst(args: Args, mb: Mailbox)
    requires mb.service.Some?
    ensures Outcome(args, mb).result.isError && Outcome(args, mb).sent.None?
  {
  }

  /** Only the five actions do anything; any other is an error and sends nothing. */
  lemma UnknownAction(args: Args, mb: Mailbox)
    requires mb.service.None? && StringOr(args, "action") !in Actions
    ensures Outcome(args, mb) == Effect(ErrorResult("unknown gmail action: " + StringOr(args, "action")), None)
  {
  }

  /** Mail goes out only from send and reply, and only when the arguments
      they require are present. */
  lemma SendsOnlyWhenComplete(args: Args, mb: Mailbox)
    requires Outcome(args, mb).sent.Some?
    ensures var action := StringOr(args, "action");
      && mb.service.None?
      && (action == "send" ==> StringOr(args, "to") != "" && StringOr(args, "subject") != "" && StringOr(args, "body") != "")
      && (action == "reply" ==> StringOr(args, "id") != "" && StringOr(args, "body") != "" && mb.get(StringOr(args, "id")).Ok?)
      && (action == "send" || action == "reply")
  {
  }

  /** A sent message carries the given Cc line exactly when a Cc was given,
      and its body follows the headers after an empty line. */
  lemma SendComposes(args: Args, mb: Mailbox)
    requires mb.service.None? && StringOr(args, "action") == "send"
    requires StringOr(args, "to") != "" && StringOr(args, "subject") != "" && StringOr(args, "body") != ""
    ensures var hs := SendHeaders(StringOr(args, "to"), StringOr(args, "cc"), StringOr(args, "subject"));
      && Outcome(args, mb).sent == Some(Outgoing(Raw(hs, StringOr(args, "body")), ""))
      && ((exists k :: 0 <= k < |hs| && hs[k].name == "Cc") <==> StringOr(args, "cc") != "")
      && HasSuffix(Outcome(args, mb).sent.value.raw, Crlf + Crlf + StringOr(args, "body"))
      && (Outcome(args, mb).result.isError <==> mb.send(Outcome(args, mb).sent.value).Err?)
  {
    var hs := SendHeaders(StringOr(args, "to"), StringOr(args, "cc"), StringOr(args, "subject"));
    SendCc(StringOr(args, "to"), StringOr(args, "cc"), StringOr(args, "subject"));
    RawEndsWithBody(hs, StringOr(args, "body"));
  }

  /** `search`. */
  method SearchAction(args: Args, mb: Mailbox) returns (r: ToolResult)
    ensures r == SearchOutcome(args, mb)
  {
    var query := StringOr(args, "query");
    if query == "" {
      return ErrorResult("query is required for search");
    }
    var maxResults := DefaultMaxResults;
    var n := NumberArg(args, "max_results");
    if n.Some? && n.value > 0 {
      maxResults := n.value;
    }
    var listed := mb.list(query, maxResults);
    if listed.Err? {
      return ErrorResult("search failed: " + listed.msg);
    }
    if listed.value == [] {
      return SilentResult("No messages found.");
    }
    var text := FormatSearch(listed.value, mb.get);
    r := SilentResult(text);
  }

  /** `read`. */
  method ReadAction(args: Args, mb: Mailbox) returns (r: ToolResult)
    ensures r == ReadOutcome(args, mb)
  {
    var id := StringOr(args, "id");
    if id == "" {
      return ErrorResult("id is required for read");
    }
    var got := mb.get(id);
    if got.Err? {
      return ErrorResult("failed to read message: " + got.msg);
    }
    var payload := got.value.payload;
    var text := FormatRead(payload.headers, BodyAsWritten(payload, mb.decode));
    r := SilentResult(text);
  }

  /** `reply`: the header loop over the original, then the raw message. */
  method ReplyAction(args: Args, mb: Mailbox) returns (r: ToolResult, sent: Option<Outgoing>)
    ensures Effect(r, sent) == ReplyOutcome(args, mb)
  {
    var id := StringOr(args, "id");
    var body := StringOr(args, "body");
    if id == "" || body == "" {
      return ErrorResult(ReplyRequired), None;
    }
    var got := mb.get(id);
    if got.Err? {
      return ErrorResult("failed to get original message: " + got.msg), None;
    }
    var orig := got.value;
    var vals := LastValues(orig.payload.headers, ReplyNames);
    var from, subject, messageID, references := vals[0], vals[1], vals[2], vals[3];
    var out := Outgoing(Raw(ReplyHeaders(from, subject, messageID, references), body), orig.threadId);
    sent := Some(out);
    var result := mb.send(out);
    if result.Err? {
      r := ErrorResult("failed to reply: " + result.msg);
    } else {
      r := SilentResult("Reply sent successfully. Message ID: " + result.value);
    }
  }

  /** `list_labels`. */
  method ListLabels(mb: Mailbox) returns (r: ToolResult)
    ensures r == LabelsOutcome(mb)
  {
    if mb.labels.Err? {
      return ErrorResult("failed to list labels: " + mb.labels.msg);
    }
    var text := FormatLabels(mb.labels.value);
    r := SilentResult(text);
  }

  /** `Execute`: create the service, then dispatch on the action. */
  method Execute(args: Args, mb: Mailbox) returns (r: ToolResult, sent: Option<Outgoing>)
    ensures Effect(r, sent) == Outcome(args, mb)
  {
    var action := StringOr(args, "action");
    sent := None;
    if mb.service.Some? {
      return ErrorResult("gmail service error: " + mb.service.value), None;
    }
    if action == "search" {
      r := SearchAction(args, mb);
    } else if action == "read" {
      r := ReadAction(args, mb);
    } else if action == "send" {
      var e := SendOutcome(args, mb);
      r, sent := e.result, e.sent;
    } else if action == "reply" {
      r, sent := ReplyAction(args, mb);
    } else if action == "list_labels" {
      r := ListLabels(mb);
    } else {
      r := ErrorResult("unknown gmail action: " + action);
    }
  }
}
