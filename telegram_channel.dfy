/** The stateful side of the Telegram channel (pkg/channels/telegram.go):
    the three per-chat maps that `handleMessage` writes and `Send` consumes,
    the normalisation of an inbound message into text and media, the
    delivery order of a reply with its fallbacks, and the reconnect backoff.
    Every Bot API request is recorded in a log; its outcome, like the
    outcome of downloads, transcription and PDF extraction, is an input. */
module Telegram {
  import opened Common
  import opened TelegramText

  // =====================================================================
  // Inbound normalisation

  /** The photo of a message: the path the download produced (empty when
      it failed) and the base64 of the file when it could be read. */
  datatype Photo = Photo(path: string, base64: Option<string>)

  /** What became of a voice note's transcription. */
  datatype Transcription = NoTranscriber | TranscriptionFailed | Transcribed(text: string)

  datatype Voice = Voice(path: string, transcription: Transcription)

  /** A document: the downloaded path (empty on failure), its declared MIME
      type and file name, and the output of the PDF text extractor. */
  datatype Document = Document(path: string, mimeType: string, fileName: string, pdfOutput: Option<string>)

  /** The parts of an incoming message; an absent field was not in the
      message, a present one with an empty path failed to download. */
  datatype Incoming = Incoming(
    text: string,
    caption: string,
    photo: Option<Photo>,
    voice: Option<Voice>,
    audio: Option<string>,
    document: Option<Document>)

  const EmptyMessage: string := "[empty message]"

  /** A document is read as a PDF when its MIME type says so or its name
      ends in `.pdf` in any letter case. */
  predicate IsPdf(d: Document) {
    d.mimeType == "application/pdf" || HasSuffix(ToLower(d.fileName), ".pdf")
  }

  function VoiceMarker(t: Transcription): (r: string)
    ensures r != ""
  {
    match t
    case NoTranscriber => "[voice]"
    case TranscriptionFailed => "[voice (transcription failed)]"
    case Transcribed(text) => "[voice transcription: " + text + "]"
  }

  function DocumentMarker(d: Document): (r: string)
    ensures r != ""
  {
    if IsPdf(d) then
      var text := PdfExcerpt(d.pdfOutput);
      if text != "" then "[PDF: " + d.fileName + "]\n" + text
      else "[PDF: " + d.fileName + " - no se pudo extraer texto]"
    else "[file: " + d.fileName + "]"
  }

  /** `[s]` when `present`, else nothing. */
  function Piece(present: bool, s: string): seq<string> {
    if present then [s] else []
  }

  predicate PhotoSaved(m: Incoming) { m.photo.Some? && m.photo.value.path != "" }
  predicate VoiceSaved(m: Incoming) { m.voice.Some? && m.voice.value.path != "" }
  predicate AudioSaved(m: Incoming) { m.audio.Some? && m.audio.value != "" }
  predicate DocumentSaved(m: Incoming) { m.document.Some? && m.document.value.path != "" }

  function VoiceLine(m: Incoming): string {
    if m.voice.Some? then VoiceMarker(m.voice.value.transcription) else ""
  }
  function VoicePath(m: Incoming): string { if m.voice.Some? then m.voice.value.path else "" }
  function AudioPath(m: Incoming): string { if m.audio.Some? then m.audio.value else "" }
  function DocumentLine(m: Incoming): string {
    if m.document.Some? then DocumentMarker(m.document.value) else ""
  }
  function DocumentPath(m: Incoming): string { if m.document.Some? then m.document.value.path else "" }

  /** The lines of the content, in the order the source adds them: text,
      caption, then the photo, voice, audio and document markers. */
  function ContentLines(m: Incoming): seq<string> {
    Piece(m.text != "", m.text)
    + Piece(m.caption != "", m.caption)
    + Piece(PhotoSaved(m), "[image: photo]")
    + Piece(VoiceSaved(m), VoiceLine(m))
    + Piece(AudioSaved(m), "[audio]")
    + Piece(DocumentSaved(m), DocumentLine(m))
  }

  /** The content handed to the agent: the lines joined by newlines, or a
      fixed marker when there are none. */
  function InboundContent(m: Incoming): string {
    var joined := Join(ContentLines(m), "\n");
    if joined == "" then EmptyMessage else joined
  }

  /** The photo as a data URI, when it was saved and could be read. */
  function PhotoMedia(m: Incoming): seq<string> {
    if PhotoSaved(m) && m.photo.value.base64.Some? then ["data:image/jpeg;base64," + m.photo.value.base64.value] else []
  }

  /** The media handed to the agent: the photo as a data URI, the voice and
      audio files, and a document that is not a PDF. */
  function InboundMedia(m: Incoming): seq<string> {
    PhotoMedia(m)
    + Piece(VoiceSaved(m), VoicePath(m))
    + Piece(AudioSaved(m), AudioPath(m))
    + Piece(DocumentSaved(m) && !IsPdf(m.document.value), DocumentPath(m))
  }

  /** `if content != "" { content += "\n" }; content += line`. */
  function AddLine(content: string, line: string): string {
    if content != "" then content + "\n" + line else line
  }

  /** Adding a line to the joined lines joins one more line. */
  lemma AddLineJoins(lines: seq<string>, line: string)
    requires NoEmptyLine(lines)
    ensures AddLine(Join(lines, "\n"), line) == Join(lines + [line], "\n")
  {
    if lines == [] {
      assert lines + [line] == [line];
    } else {
      JoinStartsWithFirst(lines, "\n");
      JoinSnoc(lines, line, "\n");
    }
  }

  lemma {:induction false} JoinStartsWithFirst(parts: seq<string>, sep: string)
    requires |parts| >= 1
    ensures |Join(parts, sep)| >= |parts[0]|
  {
  }

  predicate NoEmptyLine(lines: seq<string>) {
    forall k :: 0 <= k < |lines| ==> lines[k] != ""
  }

  /** One more non-empty line keeps every line non-empty. */
  lemma AddNonEmpty(lines: seq<string>, line: string)
    requires NoEmptyLine(lines) && line != ""
    ensures NoEmptyLine(lines + [line])
  {
    forall k | 0 <= k < |lines| + 1 ensures (lines + [line])[k] != "" {
      if k < |lines| { assert (lines + [line])[k] == lines[k]; }
    }
  }

  /** The normalisation in `handleMessage`: text, caption, then one block
      per attachment, each adding to `content` and `media`. */
  method Normalise(m: Incoming) returns (content: string, media: seq<string>)
    ensures content == InboundContent(m) && media == InboundMedia(m)
  {
    content := AddPart([], "", m.text != "", m.text);
    ghost var lines := Piece(m.text != "", m.text);
    assert [] + lines == lines;
    content := AddPart(lines, content, m.caption != "", m.caption);
    lines := lines + Piece(m.caption != "", m.caption);
    content, media := AddPhoto(m, lines, content);
    lines := lines + Piece(PhotoSaved(m), "[image: photo]");
    content, media := AddVoice(m, lines, content, media);
    lines := lines + Piece(VoiceSaved(m), VoiceLine(m));
    content, media := AddAudio(m, lines, content, media);
    lines := lines + Piece(AudioSaved(m), "[audio]");
    content, media := AddDocument(m, lines, content, media);
    lines := lines + Piece(DocumentSaved(m), DocumentLine(m));
    if content == "" {
      content := EmptyMessage;
    }
  }

  method AddPhoto(m: Incoming, ghost lines: seq<string>, content: string) returns (next: string, media: seq<string>)
    requires NoEmptyLine(lines) && content == Join(lines, "\n")
    ensures next == Join(lines + Piece(PhotoSaved(m), "[image: photo]"), "\n")
    ensures NoEmptyLine(lines + Piece(PhotoSaved(m), "[image: photo]"))
    ensures media == PhotoMedia(m)
  {
    media := [];
    next := content;
    if m.photo.Some? && m.photo.value.path != "" {
      if m.photo.value.base64.Some? {
        media := ["data:image/jpeg;base64," + m.photo.value.base64.value];
      }
    }
    next := AddPart(lines, content, PhotoSaved(m), "[image: photo]");
  }

  method AddVoice(m: Incoming, ghost lines: seq<string>, content: string, media: seq<string>) returns (next: string, media': seq<string>)
    requires NoEmptyLine(lines) && content == Join(lines, "\n")
    ensures next == Join(lines + Piece(VoiceSaved(m), VoiceLine(m)), "\n")
    ensures NoEmptyLine(lines + Piece(VoiceSaved(m), VoiceLine(m)))
    ensures media' == media + Piece(VoiceSaved(m), VoicePath(m))
  {
    media' := media;
    if m.voice.Some? && m.voice.value.path != "" {
      media' := media + [m.voice.value.path];
    }
    next := AddPart(lines, content, VoiceSaved(m), VoiceLine(m));
  }

  method AddAudio(m: Incoming, ghost lines: seq<string>, content: string, media: seq<string>) returns (next: string, media': seq<string>)
    requires NoEmptyLine(lines) && content == Join(lines, "\n")
    ensures next == Join(lines + Piece(AudioSaved(m), "[audio]"), "\n")
    ensures NoEmptyLine(lines + Piece(AudioSaved(m), "[audio]"))
    ensures media' == media + Piece(AudioSaved(m), AudioPath(m))
  {
    media' := media;
    if m.audio.Some? && m.audio.value != "" {
      media' := media + [m.audio.value];
    }
    next := AddPart(lines, content, AudioSaved(m), "[audio]");
  }

  method AddDocument(m: Incoming, ghost lines: seq<string>, content: string, media: seq<string>) returns (next: string, media': seq<string>)
    requires NoEmptyLine(lines) && content == Join(lines, "\n")
    ensures next == Join(lines + Piece(DocumentSaved(m), DocumentLine(m)), "\n")
    ensures NoEmptyLine(lines + Piece(DocumentSaved(m), DocumentLine(m)))
    ensures media' == media + Piece(DocumentSaved(m) && !IsPdf(m.document.value), DocumentPath(m))
  {
    media' := media;
    if m.document.Some? && m.document.value.path != "" {
      if !IsPdf(m.document.value) {
        media' := media + [m.document.value.path];
      }
    }
    next := AddPart(lines, content, DocumentSaved(m), DocumentLine(m));
  }

  /** One `if … { content += … }` block of the normalisation, with the proof
      that the content stays the joined lines. */
  method AddPart(ghost lines: seq<string>, content: string, present: bool, line: string) returns (next: string)
    requires NoEmptyLine(lines) && content == Join(lines, "\n") && (present ==> line != "")
    ensures next == Join(lines + Piece(present, line), "\n") && NoEmptyLine(lines + Piece(present, line))
  {
    if present {
      AddLineJoins(lines, line);
      AddNonEmpty(lines, line);
      next := AddLine(content, line);
    } else {
      assert lines + Piece(present, line) == lines;
      next := content;
    }
  }

  /** The content is never empty: with no lines it is the fixed marker. */
  lemma InboundNeverEmpty(m: Incoming)
    ensures InboundContent(m) != ""
  {
  }

  /** The text of a message comes first in its content. */
  lemma TextFirst(m: Incoming)
    requires m.text != ""
    ensures HasPrefix(InboundContent(m), m.text)
  {
    var lines := ContentLines(m);
    assert lines[0] == m.text;
    JoinPrefix(lines, "\n");
  }

  /** A joined list starts with its first part. */
  lemma JoinPrefix(parts: seq<string>, sep: string)
    requires |parts| >= 1
    ensures HasPrefix(Join(parts, sep), parts[0])
  {
    if |parts| > 1 {
      var j := Join(parts, sep);
      assert j == parts[0] + (sep + Join(parts[1..], sep));
      assert j[..|parts[0]|] == parts[0];
    }
  }

  /** A PDF is read into the content, never handed over as media: the media
      are those of the same message without the document. */
  lemma PdfNotMedia(m: Incoming)
    requires m.document.Some? && IsPdf(m.document.value)
    ensures InboundMedia(m) == InboundMedia(m.(document := None))
    ensures DocumentSaved(m) ==> DocumentLine(m) in ContentLines(m)
  {
    var w := m.(document := None);
    assert Piece(DocumentSaved(m) && !IsPdf(m.document.value), DocumentPath(m)) == [];
    assert PhotoMedia(m) == PhotoMedia(w);
    assert InboundMedia(m) == PhotoMedia(m) + Piece(VoiceSaved(m), VoicePath(m)) + Piece(AudioSaved(m), AudioPath(m)) + [];
    if DocumentSaved(m) {
      var lines := ContentLines(m);
      assert lines[|lines| - 1] == DocumentLine(m);
    }
  }

  // =====================================================================
  // Sending

  /** A Bot API request. */
  datatype Request =
    | DeleteMessage(messageID: int)
    | SendPhoto(url: string, caption: Option<string>)
    | SendDocument(url: string, caption: Option<string>)
    | SendVoice(text: string)
    | SendText(text: string, html: bool)
    | ChatTyping
    | ModelMenu

  /** A request made to one chat. */
  datatype Call = Call(chat: int, request: Request)

  /** How the requests of `Send` turn out: the media upload, the voice reply
      (synthesis, conversion and upload together), and, for chunk `i`, the
      HTML attempt and the plain-text retry. */
  datatype Outcomes = Outcomes(mediaOk: bool, voiceOk: bool, htmlOk: nat -> bool, plainOk: nat -> bool)

  /** What `Send` returns: nil, or which of its errors. */
  datatype SendResult = Delivered | NotRunning | InvalidChatID | SendFailed

  const TtsMaxChars: nat := 300
  const MaxMessageLength: nat := 4096
  const ThinkingText: string := "Thinking... 💭"

  /** The requests of a delivery in order, whether it succeeded, and whether
      it got as far as the voice step (which consumes the voice flag). */
  datatype Delivery = Delivery(calls: seq<Call>, ok: bool, voiceReached: bool)

  /** The caption of a media message: the converted content, if any. */
  function Caption(content: string, html: string): Option<string> {
    if content != "" then Some(html) else None
  }

  /** An image URL is sent as a photo, anything else as a document. */
  function MediaRequest(url: string, caption: Option<string>): Request {
    if ImageURL(url) then SendPhoto(url, caption) else SendDocument(url, caption)
  }

  predicate IsMedia(r: Request) { r.SendPhoto? || r.SendDocument? }

  /** A reply is spoken when its plain text is short and the reply holds no code. */
  predicate VoiceEligible(plain: string, content: string) {
    0 < |plain| <= TtsMaxChars && !ContainsCode(content)
  }

  /** The chunks of a text reply: the converted content split at 4096. */
  function ReplyChunks(html: string): seq<string> {
    MessageChunks(html, MaxMessageLength)
  }

  /** The chunk loop from chunk `k` on: each chunk as HTML, retried as plain
      text when that fails; the loop stops at the first chunk that fails both. */
  function TextSends(chat: int, chunks: seq<string>, k: nat, out: Outcomes): Delivery
    requires k <= |chunks|
    decreases |chunks| - k
  {
    if k == |chunks| then Delivery([], true, true)
    else
      var html := Call(chat, SendText(chunks[k], true));
      var plain := Call(chat, SendText(chunks[k], false));
      if out.htmlOk(k) then Prepend([html], TextSends(chat, chunks, k + 1, out))
      else if out.plainOk(k) then Prepend([html, plain], TextSends(chat, chunks, k + 1, out))
      else Delivery([html, plain], false, true)
  }

  /** The calls made for one chunk: the HTML attempt, and the plain one
      after it when the HTML attempt fails. */
  function Attempt(chat: int, chunk: string, htmlOk: bool): seq<Call> {
    if htmlOk then [Call(chat, SendText(chunk, true))]
    else [Call(chat, SendText(chunk, true)), Call(chat, SendText(chunk, false))]
  }

  lemma TextSendsStep(chat: int, chunks: seq<string>, k: nat, out: Outcomes)
    requires k < |chunks|
    ensures var step := Attempt(chat, chunks[k], out.htmlOk(k));
      TextSends(chat, chunks, k, out) ==
        if !out.htmlOk(k) && !out.plainOk(k) then Delivery(step, false, true)
        else Prepend(step, TextSends(chat, chunks, k + 1, out))
  {
  }

  function Prepend(calls: seq<Call>, d: Delivery): Delivery {
    d.(calls := calls + d.calls)
  }

  /** What `Send` does once the placeholder is gone: only the first media
      item is tried, and its success ends the send; otherwise the reply goes
      on as voice or text. */
  function Deliver(chat: int, content: string, media: seq<string>, wasVoice: bool,
                   html: string, strip: string -> string, out: Outcomes): Delivery
  {
    if |media| == 0 then AfterMedia(chat, content, wasVoice, html, strip, out)
    else
      var tried := Call(chat, MediaRequest(media[0], Caption(content, html)));
      if out.mediaOk then Delivery([tried], true, false)
      else Prepend([tried], AfterMedia(chat, content, wasVoice, html, strip, out))
  }

  /** A voice reply when the user spoke and the reply qualifies, and its
      success ends the send; otherwise the text chunks. */
  function AfterMedia(chat: int, content: string, wasVoice: bool,
                      html: string, strip: string -> string, out: Outcomes): Delivery
  {
    var plain := strip(content);
    var text := TextSends(chat, ReplyChunks(html), 0, out);
    if wasVoice && VoiceEligible(plain, content) then
      var tried := Call(chat, SendVoice(plain));
      if out.voiceOk then Delivery([tried], true, true) else Prepend([tried], text)
    else text
  }

  /** The HTML attempts among some requests, in order. */
  function HtmlTexts(calls: seq<Call>): seq<string> {
    if calls == [] then []
    else
      var rest := HtmlTexts(calls[1..]);
      match calls[0].request
      case SendText(t, true) => [t] + rest
      case _ => rest
  }

  /** The chunk loop succeeds exactly when every chunk lands as HTML or as
      plain text. */
  lemma {:induction false} TextSendsOkIff(chat: int, chunks: seq<string>, k: nat, out: Outcomes)
    requires k <= |chunks|
    ensures TextSends(chat, chunks, k, out).ok <==>
      forall i :: k <= i < |chunks| ==> out.htmlOk(i) || out.plainOk(i)
    decreases |chunks| - k
  {
    if k < |chunks| {
      TextSendsOkIff(chat, chunks, k + 1, out);
    }
  }

  /** The chunk loop makes only text requests, all to the chat. */
  lemma {:induction false} TextSendsOnlyText(chat: int, chunks: seq<string>, k: nat, out: Outcomes)
    requires k <= |chunks|
    ensures forall c :: c in TextSends(chat, chunks, k, out).calls ==> c.chat == chat && c.request.SendText?
    decreases |chunks| - k
  {
    if k < |chunks| {
      TextSendsOnlyText(chat, chunks, k + 1, out);
    }
  }

  /** The chunks go out in order: the HTML attempts are a prefix of the
      chunks, and all of them when the loop succeeds. */
  lemma {:induction false} TextSendsInOrder(chat: int, chunks: seq<string>, k: nat, out: Outcomes)
    requires k <= |chunks|
    ensures HtmlTexts(TextSends(chat, chunks, k, out).calls) <= chunks[k..]
    ensures TextSends(chat, chunks, k, out).ok ==> HtmlTexts(TextSends(chat, chunks, k, out).calls) == chunks[k..]
    decreases |chunks| - k
  {
    if k < |chunks| {
      TextSendsInOrder(chat, chunks, k + 1, out);
      var html := Call(chat, SendText(chunks[k], true));
      var plain := Call(chat, SendText(chunks[k], false));
      var rest := TextSends(chat, chunks, k + 1, out).calls;
      assert chunks[k..] == [chunks[k]] + chunks[k + 1..];
      if out.htmlOk(k) {
        assert ([html] + rest)[1..] == rest;
      } else if out.plainOk(k) {
        HtmlTextsPlain(html, plain, rest);
      } else {
        HtmlTextsPlain(html, plain, []);
        assert [html, plain] + [] == [html, plain];
        assert HtmlTexts([html, plain]) == [chunks[k]] == chunks[k..][..1];
      }
    }
  }

  lemma HtmlTextsPlain(html: Call, plain: Call, rest: seq<Call>)
    requires html.request.SendText? && html.request.html && plain.request == SendText(html.request.text, false)
    ensures HtmlTexts([html, plain] + rest) == [html.request.text] + HtmlTexts(rest)
  {
    assert ([html, plain] + rest)[1..] == [plain] + rest;
    assert ([plain] + rest)[1..] == rest;
  }

  /** A successful media upload ends the send, leaving the voice flag. */
  lemma MediaSuccessEndsSend(chat: int, content: string, media: seq<string>, wasVoice: bool,
                             html: string, strip: string -> string, out: Outcomes)
    requires |media| > 0 && out.mediaOk
    ensures Deliver(chat, content, media, wasVoice, html, strip, out) ==
      Delivery([Call(chat, MediaRequest(media[0], Caption(content, html)))], true, false)
  {
  }

  /** Requests to `chat` only, with no media among them. */
  predicate NoMedia(calls: seq<Call>, chat: int) {
    forall i :: 0 <= i < |calls| ==> calls[i].chat == chat && !IsMedia(calls[i].request)
  }

  /** Requests to `chat` only, with media at most as the first. */
  predicate MediaOnlyFirst(calls: seq<Call>, chat: int) {
    forall i :: 0 <= i < |calls| ==> calls[i].chat == chat && (IsMedia(calls[i].request) ==> i == 0)
  }

  /** After the media step only voice and text requests are made, all to the chat. */
  lemma AfterMediaNoMedia(chat: int, content: string, wasVoice: bool,
                          html: string, strip: string -> string, out: Outcomes)
    ensures NoMedia(AfterMedia(chat, content, wasVoice, html, strip, out).calls, chat)
  {
    var plain := strip(content);
    var text := TextSends(chat, ReplyChunks(html), 0, out);
    TextSendsOnlyText(chat, ReplyChunks(html), 0, out);
    forall i | 0 <= i < |text.calls| ensures text.calls[i].chat == chat && text.calls[i].request.SendText? {
      assert text.calls[i] in text.calls;
    }
    if wasVoice && VoiceEligible(plain, content) {
      ConsNoMedia(Call(chat, SendVoice(plain)), text.calls, chat);
    }
  }

  lemma ConsNoMedia(first: Call, rest: seq<Call>, chat: int)
    requires first.chat == chat && !IsMedia(first.request) && NoMedia(rest, chat)
    ensures NoMedia([first] + rest, chat)
  {
    forall i | 1 <= i < |rest| + 1 ensures ([first] + rest)[i] == rest[i - 1] {}
  }

  lemma ConsMediaOnlyFirst(first: Call, rest: seq<Call>, chat: int)
    requires first.chat == chat && NoMedia(rest, chat)
    ensures MediaOnlyFirst([first] + rest, chat)
  {
    forall i | 1 <= i < |rest| + 1 ensures ([first] + rest)[i] == rest[i - 1] {}
  }

  /** Only the first media item is ever tried, and only as the first request. */
  lemma OnlyFirstMedia(chat: int, content: string, media: seq<string>, wasVoice: bool,
                       html: string, strip: string -> string, out: Outcomes)
    ensures var calls := Deliver(chat, content, media, wasVoice, html, strip, out).calls;
      && (|media| > 0 ==> |calls| > 0 && calls[0].request == MediaRequest(media[0], Caption(content, html)))
      && (|media| == 0 ==> NoMedia(calls, chat))
      && MediaOnlyFirst(calls, chat)
  {
    var after := AfterMedia(chat, content, wasVoice, html, strip, out).calls;
    AfterMediaNoMedia(chat, content, wasVoice, html, strip, out);
    if |media| > 0 {
      var tried := Call(chat, MediaRequest(media[0], Caption(content, html)));
      ConsMediaOnlyFirst(tried, if out.mediaOk then [] else after, chat);
      assert [tried] + [] == [tried];
    }
  }

  /** A voice reply is tried exactly when the user spoke, the media did not
      already answer, and the reply qualifies. */
  lemma VoiceOnlyWhenAsked(chat: int, content: string, media: seq<string>, wasVoice: bool,
                           html: string, strip: string -> string, out: Outcomes)
    ensures (exists c :: c in Deliver(chat, content, media, wasVoice, html, strip, out).calls && c.request.SendVoice?) <==>
      (!(|media| > 0 && out.mediaOk) && wasVoice && VoiceEligible(strip(content), content))
  {
    var chunks := ReplyChunks(html);
    TextSendsOnlyText(chat, chunks, 0, out);
    var after := AfterMedia(chat, content, wasVoice, html, strip, out).calls;
    if wasVoice && VoiceEligible(strip(content), content) {
      assert after[0] == Call(chat, SendVoice(strip(content)));
    }
    if |media| > 0 && !out.mediaOk {
      var tried := Call(chat, MediaRequest(media[0], Caption(content, html)));
      assert forall c :: c in [tried] + after <==> c == tried || c in after;
    }
  }

  /** A send succeeds exactly when the media, the voice reply or every text
      chunk gets through. */
  lemma DeliverOkIff(chat: int, content: string, media: seq<string>, wasVoice: bool,
                     html: string, strip: string -> string, out: Outcomes)
    ensures Deliver(chat, content, media, wasVoice, html, strip, out).ok <==>
      || (|media| > 0 && out.mediaOk)
      || (wasVoice && VoiceEligible(strip(content), content) && out.voiceOk)
      || (forall i :: 0 <= i < |ReplyChunks(html)| ==> out.htmlOk(i) || out.plainOk(i))
  {
    TextSendsOkIff(chat, ReplyChunks(html), 0, out);
  }

  /** The voice flag is consumed exactly when the media did not answer. */
  lemma VoiceFlagConsumed(chat: int, content: string, media: seq<string>, wasVoice: bool,
                          html: string, strip: string -> string, out: Outcomes)
    ensures Deliver(chat, content, media, wasVoice, html, strip, out).voiceReached <==> !(|media| > 0 && out.mediaOk)
  {
    TextSendsReached(chat, ReplyChunks(html), 0, out);
  }

  lemma {:induction false} TextSendsReached(chat: int, chunks: seq<string>, k: nat, out: Outcomes)
    requires k <= |chunks|
    ensures TextSends(chat, chunks, k, out).voiceReached
    decreases |chunks| - k
  {
    if k < |chunks| {
      TextSendsReached(chat, chunks, k + 1, out);
    }
  }

  // =====================================================================
  // The channel

  datatype User = User(id: int, username: string, firstName: string)

  /** An incoming update's message: who sent it (absent for channel posts),
      the chat, and what it holds. */
  datatype TgMessage = TgMessage(messageID: int, from: Option<User>, chat: int, chatType: string, body: Incoming)

  /** A message handed on to the agent. */
  datatype Inbound = Inbound(senderID: string, chatID: string, content: string, media: seq<string>, metadata: map<string, string>)

  /** `id`, or `id|username` when the user has a username. */
  function SenderID(u: User): (r: string)
    ensures HasPrefix(r, Itoa(u.id))
    ensures u.username == "" <==> r == Itoa(u.id)
  {
    if u.username != "" then Itoa(u.id) + "|" + u.username else Itoa(u.id)
  }

  /** The allowlist admits a user by number or by `id|username`. */
  predicate Admitted(u: User, allowed: string -> bool) {
    allowed(Itoa(u.id)) || allowed(SenderID(u))
  }

  /** The command that opens the model menu instead of reaching the agent. */
  predicate IsModelCommand(m: TgMessage) {
    TrimSpace(m.body.text) == "/model"
  }

  /** A voice note or an audio file asks for a spoken reply, whether or not
      it could be downloaded. */
  predicate AsksForVoice(b: Incoming) {
    b.voice.Some? || b.audio.Some?
  }

  function Metadata(m: TgMessage, u: User): map<string, string> {
    map["message_id" := Itoa(m.messageID),
        "user_id" := Itoa(u.id),
        "username" := u.username,
        "first_name" := u.firstName,
        "is_group" := if m.chatType != "private" then "true" else "false"]
  }

  /** What `handleMessage` publishes for an admitted message that is not a command. */
  function Published(m: TgMessage, u: User): Inbound {
    Inbound(SenderID(u), Itoa(m.chat), InboundContent(m.body), InboundMedia(m.body), Metadata(m, u))
  }

  /** Where `handleMessage` sends a message: nowhere when it has no sender
      or the allowlist refuses it, to the model menu for `/model`, else to
      the agent. */
  datatype Route = Dropped | Menu(user: User, senderID: string) | Accepted(user: User, senderID: string)

  /** The checks at the head of `handleMessage`, in its order. */
  function Routing(m: TgMessage, allowed: string -> bool): (r: Route)
    ensures !r.Dropped? ==> m.from == Some(r.user) && r.senderID == SenderID(r.user)
  {
    if m.from.None? then Dropped
    else
      var user := m.from.value;
      var userID := Itoa(user.id);
      var senderID := if user.username != "" then userID + "|" + user.username else userID;
      if !allowed(userID) && !allowed(senderID) then Dropped
      else if TrimSpace(m.body.text) == "/model" then Menu(user, senderID)
      else Accepted(user, senderID)
  }

  /** A message gets past the checks exactly when it has a sender the
      allowlist admits; it reaches the agent exactly when it is also not
      the `/model` command. */
  lemma RoutingIff(m: TgMessage, allowed: string -> bool)
    ensures !Routing(m, allowed).Dropped? <==> m.from.Some? && Admitted(m.from.value, allowed)
    ensures Routing(m, allowed).Accepted? <==> m.from.Some? && Admitted(m.from.value, allowed) && !IsModelCommand(m)
  {
  }

  /** The thinking token of a chat, if any, as a list of zero or one cancellations. */
  function Cancels(tokens: map<string, nat>, key: string): seq<nat> {
    if key in tokens then [tokens[key]] else []
  }

  // =====================================================================
  // Reconnecting the long poll
  // =====================================================================

  /** The first wait before reconnecting and the ceiling of the doubling, in seconds. */
  const InitialBackoff: nat := 2
  const MaxBackoff: nat := 300

  /** The wait after a failed reconnect: double the last one, capped. */
  function NextBackoff(b: nat): (r: nat)
    ensures r <= MaxBackoff
    ensures b <= MaxBackoff ==> b <= r
    ensures r == MaxBackoff || r == 2 * b
  {
    if 2 * b > MaxBackoff then MaxBackoff else 2 * b
  }

  /** The wait before reconnect attempt `k` (counting from 0). */
  function BackoffAfter(k: nat): nat {
    if k == 0 then InitialBackoff else NextBackoff(BackoffAfter(k - 1))
  }

  /** The first `n` waits of the schedule. */
  function Schedule(n: nat): (r: seq<nat>)
    ensures |r| == n
  {
    if n == 0 then [] else Schedule(n - 1) + [BackoffAfter(n - 1)]
  }

  /** The i-th wait of any schedule long enough is the i-th backoff. */
  lemma {:induction false} ScheduleAt(n: nat, i: nat)
    requires i < n
    ensures Schedule(n)[i] == BackoffAfter(i)
  {
    if i < n - 1 { ScheduleAt(n - 1, i); }
  }

  function Pow2(k: nat): (r: nat)
    ensures r >= 1
  {
    if k == 0 then 1 else 2 * Pow2(k - 1)
  }

  /** Every wait lies between the first one and the ceiling, and waits
      never shrink. */
  lemma {:induction false} BackoffBounds(k: nat)
    ensures InitialBackoff <= BackoffAfter(k) <= MaxBackoff
    ensures BackoffAfter(k) <= BackoffAfter(k + 1)
  {
    if k > 0 { BackoffBounds(k - 1); }
  }

  /** The waits are the powers of two from 2 up, until they reach five minutes. */
  lemma {:induction false} BackoffClosedForm(k: nat)
    ensures BackoffAfter(k) == if Pow2(k + 1) > MaxBackoff then MaxBackoff else Pow2(k + 1)
  {
    if k > 0 {
      BackoffClosedForm(k - 1);
      if Pow2(k) > MaxBackoff {
        assert Pow2(k + 1) > MaxBackoff;
      }
    }
  }

  /** From the ninth attempt on, every wait is the five-minute ceiling. */
  lemma BackoffSaturates(k: nat)
    requires k >= 8
    ensures BackoffAfter(k) == MaxBackoff
  {
    PowMonotone(9, k + 1);
    assert Pow2(9) == 512;
    BackoffClosedForm(k);
  }

  lemma {:induction false} PowMonotone(a: nat, b: nat)
    requires a <= b
    ensures Pow2(a) <= Pow2(b)
    decreases b
  {
    if a < b { PowMonotone(a, b - 1); }
  }

  /** What one pass of the reconnect loop meets: the context is cancelled
      during the wait, `startPolling` fails, or it connects. */
  datatype Poll = PollCancelled | PollFailed | PollConnected

  /** How many passes fail before one ends the loop (all of them when none does). */
  function FirstSettled(passes: seq<Poll>): (r: nat)
    ensures r <= |passes|
    ensures forall i :: 0 <= i < r ==> passes[i] == PollFailed
    ensures r < |passes| ==> passes[r] != PollFailed
  {
    if passes == [] || passes[0] != PollFailed then 0 else 1 + FirstSettled(passes[1..])
  }

  /** The reconnect loop over the given passes: the waits it starts, one per
      pass up to the one that ends it, and whether it connected. */
  method ReconnectWaits(passes: seq<Poll>) returns (waits: seq<nat>, connected: bool)
    ensures var n := FirstSettled(passes);
      && |waits| == (if n < |passes| then n + 1 else n)
      && connected == (n < |passes| && passes[n] == PollConnected)
    ensures waits == Schedule(|waits|)
  {
    var backoff := InitialBackoff;
    waits := [];
    var i := 0;
    while i < |passes| && passes[i] == PollFailed
      invariant 0 <= i <= |passes| && |waits| == i
      invariant forall j :: 0 <= j < i ==> passes[j] == PollFailed
      invariant backoff == BackoffAfter(i) && waits == Schedule(i)
    {
      waits := waits + [backoff];
      backoff := NextBackoff(backoff);
      i := i + 1;
    }
    SettledAt(passes, i);
    connected := false;
    if i < |passes| {
      // the wait before the pass that ends the loop
      waits := waits + [backoff];
      connected := passes[i] == PollConnected;
    }
  }

  /** The first pass that is not a failure is where the loop stops. */
  lemma SettledAt(passes: seq<Poll>, i: nat)
    requires i <= |passes|
    requires forall j :: 0 <= j < i ==> passes[j] == PollFailed
    requires i < |passes| ==> passes[i] != PollFailed
    ensures FirstSettled(passes) == i
  {
  }

  /** The Telegram channel's per-chat state. `stopThinking` maps a chat to
      the token of its thinking indicator; `cancelled` lists the tokens
      whose cancel function was called, in order; `calls` is every Bot API
      request in order. */
  class TelegramChannel {
    var running: bool
    var chatIDs: map<string, int>
    var placeholders: map<string, int>
    var stopThinking: map<string, nat>
    var voiceInput: set<string>
    var cancelled: seq<nat>
    var nextToken: nat
    var calls: seq<Call>

    /** Every token handed out is below `nextToken`. */
    predicate Valid()
      reads this
    {
      (forall key :: key in stopThinking ==> stopThinking[key] < nextToken)
      && (forall i :: 0 <= i < |cancelled| ==> cancelled[i] < nextToken)
    }

    constructor ()
      ensures Valid() && !running
      ensures chatIDs == map[] && placeholders == map[] && stopThinking == map[] && voiceInput == {}
      ensures cancelled == [] && calls == [] && nextToken == 0
    {
      running := false;
      chatIDs := map[];
      placeholders := map[];
      stopThinking := map[];
      voiceInput := {};
      cancelled := [];
      nextToken := 0;
      calls := [];
    }

    /** `Start`: polling either connects, and the channel runs, or fails. */
    method Start(connected: bool) returns (ok: bool)
      modifies this`running
      ensures ok == connected && running == (old(running) || connected)
    {
      ok := connected;
      if connected {
        running := true;
      }
    }

    /** `reconnectPolling`, entered after the update stream closed: the
        waits it starts, and `running` is set again once a pass connects. */
    method ReconnectPolling(passes: seq<Poll>) returns (waits: seq<nat>)
      modifies this`running
      ensures forall i :: 0 <= i < |waits| ==> waits[i] == BackoffAfter(i)
      ensures var n := FirstSettled(passes);
        && |waits| == (if n < |passes| then n + 1 else n)
        && running == (old(running) || (n < |passes| && passes[n] == PollConnected))
    {
      var connected;
      waits, connected := ReconnectWaits(passes);
      forall i | 0 <= i < |waits| ensures waits[i] == BackoffAfter(i) {
        ScheduleAt(|waits|, i);
      }
      if connected {
        running := true;
      }
    }

    method Stop()
      modifies this`running
      ensures !running
    {
      running := false;
    }

    /** `Send`: `parsed` is the outcome of parsing `chatID` as a number. */
    method Send(chatID: string, content: string, media: seq<string>, parsed: Option<int>,
                rw: Rewrites, strip: string -> string, out: Outcomes) returns (r: SendResult)
      requires Valid()
      modifies this
      ensures Valid()
      ensures running == old(running) && chatIDs == old(chatIDs) && nextToken == old(nextToken)
      ensures !old(running) ==> r == NotRunning && unchanged(this)
      ensures old(running) && parsed.None? ==> r == InvalidChatID && unchanged(this)
      ensures old(running) && parsed.Some? ==>
        var d := Deliver(parsed.value, content, media, chatID in old(voiceInput), ToHTML(rw, content), strip, out);
        && r == (if d.ok then Delivered else SendFailed)
        && stopThinking == old(stopThinking) - {chatID}
        && cancelled == old(cancelled) + Cancels(old(stopThinking), chatID)
        && placeholders == old(placeholders) - {chatID}
        && calls == old(calls) + PlaceholderRemoval(old(placeholders), chatID, parsed.value) + d.calls
        && voiceInput == (if d.voiceReached then old(voiceInput) - {chatID} else old(voiceInput))
    {
      if !running {
        return NotRunning;
      }
      if parsed.None? {
        return InvalidChatID;
      }
      var chat := parsed.value;
      StopThinking(chatID, chat);
      var html := ToHTML(rw, content);
      var ok := DeliverReply(chatID, chat, content, media, html, strip, out);
      r := if ok then Delivered else SendFailed;
    }

    /** The media step: only the first item is tried, as a photo or a
        document, and its success ends the send. */
    method DeliverReply(chatID: string, chat: int, content: string, media: seq<string>,
                        html: string, strip: string -> string, out: Outcomes) returns (ok: bool)
      modifies this`calls, this`voiceInput
      ensures var d := Deliver(chat, content, media, chatID in old(voiceInput), html, strip, out);
        && calls == old(calls) + d.calls && ok == d.ok
        && voiceInput == (if d.voiceReached then old(voiceInput) - {chatID} else old(voiceInput))
    {
      ghost var wasVoice := chatID in voiceInput;
      ghost var after := AfterMedia(chat, content, wasVoice, html, strip, out);
      VoiceFlagConsumed(chat, content, media, wasVoice, html, strip, out);
      if |media| > 0 {
        var caption := Caption(content, html);
        var image := IsImageURL(media[0]);
        var request := if image then SendPhoto(media[0], caption) else SendDocument(media[0], caption);
        assert request == MediaRequest(media[0], caption);
        calls := calls + [Call(chat, request)];
        if out.mediaOk {
          return true;
        }
        assert Deliver(chat, content, media, wasVoice, html, strip, out) == Prepend([Call(chat, request)], after);
        ok := ReplyAfterMedia(chatID, chat, content, html, strip, out);
        AppendAssoc(old(calls), [Call(chat, request)], after.calls);
      } else {
        ok := ReplyAfterMedia(chatID, chat, content, html, strip, out);
      }
    }

    /** The voice step, which takes the chat's voice flag whatever it holds,
        then the text chunks. */
    method ReplyAfterMedia(chatID: string, chat: int, content: string,
                           html: string, strip: string -> string, out: Outcomes) returns (ok: bool)
      modifies this`calls, this`voiceInput
      ensures var d := AfterMedia(chat, content, chatID in old(voiceInput), html, strip, out);
        calls == old(calls) + d.calls && ok == d.ok && voiceInput == old(voiceInput) - {chatID}
    {
      var spoke := chatID in voiceInput;
      voiceInput := voiceInput - {chatID};
      if spoke {
        var plain := strip(content);
        if 0 < |plain| <= TtsMaxChars && !ContainsCode(content) {
          var tried := Call(chat, SendVoice(plain));
          calls := calls + [tried];
          if out.voiceOk {
            return true;
          }
          ok := SendReplyText(chat, html, out);
          AppendAssoc(old(calls), [tried], TextSends(chat, ReplyChunks(html), 0, out).calls);
          return;
        }
      }
      ok := SendReplyText(chat, html, out);
    }

    /** The text step: the converted reply, split at 4096 and sent chunk by chunk. */
    method SendReplyText(chat: int, html: string, out: Outcomes) returns (ok: bool)
      modifies this`calls
      ensures calls == old(calls) + TextSends(chat, ReplyChunks(html), 0, out).calls
      ensures ok == TextSends(chat, ReplyChunks(html), 0, out).ok
    {
      var chunks := SplitMessage(html, MaxMessageLength);
      ok := SendChunks(chat, chunks, out);
    }

    /** The calls that delete a chat's placeholder, if it has one. */
    static function PlaceholderRemoval(ps: map<string, int>, key: string, chat: int): seq<Call> {
      if key in ps then [Call(chat, DeleteMessage(ps[key]))] else []
    }

    /** Cancelling and forgetting the thinking indicator, then deleting the
        placeholder message. */
    method StopThinking(chatID: string, chat: int)
      requires Valid()
      modifies this`stopThinking, this`cancelled, this`placeholders, this`calls
      ensures Valid()
      ensures stopThinking == old(stopThinking) - {chatID}
      ensures cancelled == old(cancelled) + Cancels(old(stopThinking), chatID)
      ensures placeholders == old(placeholders) - {chatID}
      ensures calls == old(calls) + PlaceholderRemoval(old(placeholders), chatID, chat)
    {
      if chatID in stopThinking {
        cancelled := cancelled + [stopThinking[chatID]];
        stopThinking := stopThinking - {chatID};
      }
      if chatID in placeholders {
        var id := placeholders[chatID];
        placeholders := placeholders - {chatID};
        calls := calls + [Call(chat, DeleteMessage(id))];
      }
    }

    /** The chunk loop: each chunk as HTML, then as plain text, returning the
        error of the first chunk that fails both. */
    method SendChunks(chat: int, chunks: seq<string>, out: Outcomes) returns (ok: bool)
      modifies this`calls
      ensures calls == old(calls) + TextSends(chat, chunks, 0, out).calls
      ensures ok == TextSends(chat, chunks, 0, out).ok
    {
      var made;
      made, ok := ChunkCalls(chat, chunks, out);
      calls := calls + made;
    }

    /** `handleMessage`; `allowed` is the allowlist and `placeholder` the id
        of the thinking message when sending it succeeded. */
    method HandleMessage(m: TgMessage, allowed: string -> bool, placeholder: Option<int>) returns (published: Option<Inbound>)
      requires Valid()
      modifies this
      ensures Valid()
      ensures running == old(running)
      ensures Routing(m, allowed).Dropped? ==> published.None? && unchanged(this)
      ensures Routing(m, allowed).Menu? ==>
        && published.None?
        && chatIDs == old(chatIDs)[Routing(m, allowed).senderID := m.chat]
        && calls == old(calls) + [Call(m.chat, ModelMenu)]
        && unchanged(this`placeholders, this`stopThinking, this`voiceInput, this`cancelled, this`nextToken)
      ensures Routing(m, allowed).Accepted? ==>
        var key := Itoa(m.chat);
        && published == Some(Published(m, Routing(m, allowed).user))
        && chatIDs == old(chatIDs)[Routing(m, allowed).senderID := m.chat]
        && voiceInput == (if AsksForVoice(m.body) then old(voiceInput) + {key} else old(voiceInput) - {key})
        && calls == old(calls) + [Call(m.chat, ChatTyping), Call(m.chat, SendText(ThinkingText, false))]
        && cancelled == old(cancelled) + Cancels(old(stopThinking), key)
        && stopThinking == old(stopThinking)[key := old(nextToken)]
        && nextToken == old(nextToken) + 1
        && placeholders == (if placeholder.Some? then old(placeholders)[key := placeholder.value] else old(placeholders))
    {
      var route := Routing(m, allowed);
      match route
      case Dropped =>
        published := None;
      case Menu(_, senderID) =>
        chatIDs := chatIDs[senderID := m.chat];
        calls := calls + [Call(m.chat, ModelMenu)];
        published := None;
      case Accepted(user, senderID) =>
        chatIDs := chatIDs[senderID := m.chat];
        published := Accept(m, user, senderID, placeholder);
    }

    /** The part of `handleMessage` after the checks: normalising the
        message, recording whether it was spoken, starting the thinking
        indicator and publishing. */
    method Accept(m: TgMessage, user: User, senderID: string, placeholder: Option<int>) returns (published: Option<Inbound>)
      requires Valid() && senderID == SenderID(user)
      modifies this`voiceInput, this`calls, this`cancelled, this`stopThinking, this`nextToken, this`placeholders
      ensures Valid()
      ensures var key := Itoa(m.chat);
        && published == Some(Published(m, user))
        && voiceInput == (if AsksForVoice(m.body) then old(voiceInput) + {key} else old(voiceInput) - {key})
        && calls == old(calls) + [Call(m.chat, ChatTyping), Call(m.chat, SendText(ThinkingText, false))]
        && cancelled == old(cancelled) + Cancels(old(stopThinking), key)
        && stopThinking == old(stopThinking)[key := old(nextToken)]
        && nextToken == old(nextToken) + 1
        && placeholders == (if placeholder.Some? then old(placeholders)[key := placeholder.value] else old(placeholders))
    {
      var content, media := Normalise(m.body);
      var key := Itoa(m.chat);
      published := Some(Inbound(senderID, key, content, media, Metadata(m, user)));
      RememberVoice(key, m.body.voice.Some? || m.body.audio.Some?);
      ghost var before := calls;
      var typing := Call(m.chat, ChatTyping);
      calls := calls + [typing];
      StartThinking(key, m.chat, placeholder);
      AppendTwo(before, typing, Call(m.chat, SendText(ThinkingText, false)));
    }

    /** Remembering whether the chat's last message was spoken, so that the
        reply may be spoken too. */
    method RememberVoice(key: string, spoken: bool)
      modifies this`voiceInput
      ensures voiceInput == (if spoken then old(voiceInput) + {key} else old(voiceInput) - {key})
    {
      if spoken {
        voiceInput := voiceInput + {key};
      } else {
        voiceInput := voiceInput - {key};
      }
    }

    /** Cancelling the previous thinking indicator, storing a fresh one and
        sending the placeholder message. */
    method StartThinking(key: string, chat: int, placeholder: Option<int>)
      requires Valid()
      modifies this`cancelled, this`stopThinking, this`nextToken, this`calls, this`placeholders
      ensures Valid()
      ensures cancelled == old(cancelled) + Cancels(old(stopThinking), key)
      ensures stopThinking == old(stopThinking)[key := old(nextToken)]
      ensures nextToken == old(nextToken) + 1
      ensures calls == old(calls) + [Call(chat, SendText(ThinkingText, false))]
      ensures placeholders == (if placeholder.Some? then old(placeholders)[key := placeholder.value] else old(placeholders))
    {
      if key in stopThinking {
        cancelled := cancelled + [stopThinking[key]];
      }
      stopThinking := stopThinking[key := nextToken];
      nextToken := nextToken + 1;
      calls := calls + [Call(chat, SendText(ThinkingText, false))];
      if placeholder.Some? {
        placeholders := placeholders[key := placeholder.value];
      }
    }
  }

  lemma AppendTwo<T>(s: seq<T>, a: T, b: T)
    ensures s + [a] + [b] == s + [a, b]
  {
  }

  /** The calls the chunk loop makes, in order, and whether every chunk got
      through as HTML or as plain text. */
  method ChunkCalls(chat: int, chunks: seq<string>, out: Outcomes) returns (made: seq<Call>, ok: bool)
    ensures made == TextSends(chat, chunks, 0, out).calls
    ensures ok == TextSends(chat, chunks, 0, out).ok
  {
    made := [];
    var i := 0;
    while i < |chunks|
      invariant 0 <= i <= |chunks|
      invariant TextSends(chat, chunks, 0, out) == Prepend(made, TextSends(chat, chunks, i, out))
    {
      var step := Attempt(chat, chunks[i], out.htmlOk(i));
      TextSendsStep(chat, chunks, i, out);
      PrependTwice(made, step, TextSends(chat, chunks, i + 1, out));
      made := made + step;
      if !out.htmlOk(i) && !out.plainOk(i) {
        return made, false;
      }
      i := i + 1;
    }
    ok := true;
  }

  /** Moving calls from the pending delivery to the sent ones. */
  lemma PrependTwice(sent: seq<Call>, step: seq<Call>, d: Delivery)
    ensures Prepend(sent, Prepend(step, d)) == Prepend(sent + step, d)
  {
    AppendAssoc(sent, step, d.calls);
  }
}
