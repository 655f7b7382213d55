/** The `council` tool: the agent's way to convene the advisory council and
    get back a transcript of the deliberation to synthesise. */
module CouncilTools {
  import opened Common
  import opened ToolArgs
  import opened Council

  /** A message sent through the tool's send callback. */
  datatype Notice = Notice(channel: string, chatID: string, text: string)

  const StartNotice: string := "Convocando al consejo... \U{1F3DB}\U{FE0F}"
  const QuestionRequired: string := "question is required"
  const FailureLead: string := "Council deliberation failed: "

  // =====================================================================
  // The transcript handed to the model
  // =====================================================================

  const TranscriptHeader: string := "DELIBERACIÓN DEL CONSEJO\n\n"
  const Closing: string := "Sintetizá las 3 perspectivas en tu respuesta al usuario."

  /** One advisor's section of the transcript. */
  function Section(r: MemberResponse): string {
    "== " + r.name + " ==\n" + r.response + "\n\n"
  }

  function Sections(rs: seq<MemberResponse>): string {
    if rs == [] then "" else Section(rs[0]) + Sections(rs[1..])
  }

  /** The sections follow one another in the order of the entries. */
  lemma {:induction false} SectionsAppend(a: seq<MemberResponse>, b: seq<MemberResponse>)
    ensures Sections(a + b) == Sections(a) + Sections(b)
    decreases |a|
  {
    if a == [] {
      assert a + b == b;
    } else {
      assert (a + b)[0] == a[0] && (a + b)[1..] == a[1..] + b;
      SectionsAppend(a[1..], b);
      AppendAssoc(Section(a[0]), Sections(a[1..]), Sections(b));
    }
  }

  lemma SectionsSnoc(a: seq<MemberResponse>, r: MemberResponse)
    ensures Sections(a + [r]) == Sections(a) + Section(r)
  {
    SectionsAppend(a, [r]);
    assert [r][1..] == [];
  }

  /** The header and the question that open the transcript. */
  function TranscriptLead(question: string): string {
    TranscriptHeader + "Pregunta: " + question + "\n\n"
  }

  function Transcript(question: string, rs: seq<MemberResponse>): string {
    TranscriptLead(question) + Sections(rs) + Closing
  }

  /** The `strings.Builder` loop of `Execute`. */
  method FormatTranscript(question: string, rs: seq<MemberResponse>) returns (s: string)
    ensures s == Transcript(question, rs)
  {
    s := TranscriptLead(question);
    var i := 0;
    while i < |rs|
      invariant 0 <= i <= |rs|
      invariant s == TranscriptLead(question) + Sections(rs[..i])
    {
      assert rs[..i + 1] == rs[..i] + [rs[i]];
      SectionsSnoc(rs[..i], rs[i]);
      s := s + Section(rs[i]);
      i := i + 1;
    }
    assert rs[..i] == rs;
    s := s + Closing;
  }

  // =====================================================================
  // Execute
  // =====================================================================

  /** What `Execute` returns for the given arguments when the deliberation
      meets the world `w`. */
  function Outcome(args: Args, c: Council, w: World): ToolResult {
    match NonEmptyArg(args, "question")
    case None => ErrorResult(QuestionRequired)
    case Some(q) =>
      var d := Deliberated(c, q, w);
      if d.error.Some? then ErrorResult(FailureLead + d.error.value)
      else SilentResult(Transcript(q, d.responses))
  }

  /** The start notice goes out only through a set callback and to a known
      channel and chat. */
  predicate Notifies(hasCallback: bool, channel: string, chatID: string) {
    hasCallback && channel != "" && chatID != ""
  }

  /** A missing or empty question is refused before anything else happens. */
  lemma MissingQuestionRefused(args: Args, c: Council, w: World)
    requires StringOr(args, "question") == ""
    ensures Outcome(args, c, w) == ErrorResult(QuestionRequired)
    ensures Outcome(args, c, w).isError && !Outcome(args, c, w).silent
  {
  }

  /** A deliberation cut short by the deadline becomes an error result that
      carries none of the entries gathered so far. */
  lemma DeadlineIsError(args: Args, c: Council, w: World)
    requires StringOr(args, "question") != "" && w.deadline < |c.members|
    ensures Outcome(args, c, w) == ErrorResult(FailureLead + DeadlineExceeded)
  {
    DeadlineStops(c, StringOr(args, "question"), w);
  }

  /** A completed deliberation comes back silently, as a transcript holding
      one section per advisor, in council order. */
  lemma CompletedIsTranscript(args: Args, c: Council, w: World)
    requires StringOr(args, "question") != "" && w.deadline >= |c.members|
    ensures var q := StringOr(args, "question");
      var rs := Deliberated(c, q, w).responses;
      && Outcome(args, c, w) == SilentResult(TranscriptLead(q) + Sections(rs) + Closing)
      && |rs| == |c.members|
      && forall k :: 0 <= k < |rs| ==> rs[k] == Entry(c.members[k], w.reply(k))
  {
    NoDeadlineEveryoneAnswers(c, StringOr(args, "question"), w);
  }

  /** The tool's state: the council, whether a send callback is set, and the
      channel and chat the start notice goes to. `notices` is every message
      sent through the callback, in order. */
  class CouncilTool {
    var council: Council
    var hasCallback: bool
    var defaultChannel: string
    var defaultChatID: string
    var notices: seq<Notice>

    /** `NewCouncilTool`. */
    constructor (c: Council)
      ensures council == c && !hasCallback && defaultChannel == "" && defaultChatID == "" && notices == []
    {
      council := c;
      hasCallback := false;
      defaultChannel := "";
      defaultChatID := "";
      notices := [];
    }

    method SetContext(channel: string, chatID: string)
      modifies this`defaultChannel, this`defaultChatID
      ensures defaultChannel == channel && defaultChatID == chatID
    {
      defaultChannel := channel;
      defaultChatID := chatID;
    }

    /** `SetSendCallback`; `present` says whether the callback is non-nil. */
    method SetSendCallback(present: bool)
      modifies this`hasCallback
      ensures hasCallback == present
    {
      hasCallback := present;
    }

    /** `Execute`. */
    method Execute(args: Args, w: World) returns (r: ToolResult)
      modifies this`notices
      ensures r == Outcome(args, council, w)
      ensures notices == old(notices) +
        (if StringOr(args, "question") != "" && Notifies(hasCallback, defaultChannel, defaultChatID)
         then [Notice(defaultChannel, defaultChatID, StartNotice)] else [])
    {
      var question := StringOr(args, "question");
      if question == "" {
        return ErrorResult(QuestionRequired);
      }
      if hasCallback && defaultChannel != "" && defaultChatID != "" {
        notices := notices + [Notice(defaultChannel, defaultChatID, StartNotice)];
      }
      var responses, err, prompts, postings := Deliberate(council, question, w);
      if err.Some? {
        return ErrorResult(FailureLead + err.value);
      }
      var text := FormatTranscript(question, responses);
      r := SilentResult(text);
    }
  }
}
