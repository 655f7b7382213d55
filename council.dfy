/** The advisory council: members set up from configuration, a sequential
    deliberation in which every member sees the answers given before it, and
    the posting of each answer to the council's Telegram group. */
module Council {
  import opened Common

  // =====================================================================
  // Setting the council up
  // =====================================================================

  /** One configured advisor. */
  datatype MemberConfig = MemberConfig(name: string, token: string, personality: string, model: string)

  /** What setting up a configured advisor met: its bot could not be created
      from the token, its personality file could not be read, or the text of
      that file. */
  datatype Setup = BotFailed | NoPersonality | Loaded(text: string)

  datatype Member = Member(name: string, personality: string, model: string)

  /** A council never changes once created, so it is a value. */
  datatype Council = Council(members: seq<Member>, groupChatID: int, defaultModel: string)

  /** Why `NewCouncil` refuses: a group id that is not a number, or no
      advisor that could be set up. */
  datatype SetupError = InvalidGroupID(raw: string) | NoMembers

  datatype Created = Created(council: Council) | Refused(error: SetupError)

  /** The advisor made from a configuration whose setup succeeded; an empty
      model falls back to the default one. */
  function MemberFrom(c: MemberConfig, text: string, defaultModel: string): (m: Member)
    ensures m.name == c.name && m.personality == text
    ensures m.model == (if c.model == "" then defaultModel else c.model)
  {
    Member(c.name, text, if c.model == "" then defaultModel else c.model)
  }

  /** The advisors that survive setup, in configuration order. */
  function Survivors(cfgs: seq<MemberConfig>, setup: MemberConfig -> Setup, defaultModel: string): seq<Member>
    decreases |cfgs|
  {
    if cfgs == [] then []
    else
      var n := |cfgs| - 1;
      var before := Survivors(cfgs[..n], setup, defaultModel);
      match setup(cfgs[n])
      case Loaded(text) => before + [MemberFrom(cfgs[n], text, defaultModel)]
      case _ => before
  }

  /** Survival is decided advisor by advisor: the survivors of two lists
      one after the other are the survivors of each, in that order. */
  lemma {:induction false} SurvivorsAppend(a: seq<MemberConfig>, b: seq<MemberConfig>,
                                           setup: MemberConfig -> Setup, defaultModel: string)
    ensures Survivors(a + b, setup, defaultModel) == Survivors(a, setup, defaultModel) + Survivors(b, setup, defaultModel)
    decreases |b|
  {
    if b == [] {
      assert a + b == a;
    } else {
      var n := |b| - 1;
      assert (a + b)[..|a + b| - 1] == a + b[..n];
      assert (a + b)[|a + b| - 1] == b[n];
      SurvivorsAppend(a, b[..n], setup, defaultModel);
    }
  }

  /** No advisor survives exactly when no setup succeeded. */
  lemma {:induction false} SurvivorsEmptyIff(cfgs: seq<MemberConfig>, setup: MemberConfig -> Setup, defaultModel: string)
    ensures Survivors(cfgs, setup, defaultModel) == [] <==> forall i :: 0 <= i < |cfgs| ==> !setup(cfgs[i]).Loaded?
    decreases |cfgs|
  {
    if cfgs != [] {
      var n := |cfgs| - 1;
      SurvivorsEmptyIff(cfgs[..n], setup, defaultModel);
      assert forall i :: 0 <= i < n ==> cfgs[..n][i] == cfgs[i];
    }
  }

  /** When every setup succeeds, advisor k of the council is configured advisor k. */
  lemma {:induction false} SurvivorsAllLoaded(cfgs: seq<MemberConfig>, setup: MemberConfig -> Setup, defaultModel: string)
    requires forall i :: 0 <= i < |cfgs| ==> setup(cfgs[i]).Loaded?
    ensures |Survivors(cfgs, setup, defaultModel)| == |cfgs|
    ensures forall k :: 0 <= k < |cfgs| ==>
      Survivors(cfgs, setup, defaultModel)[k] == MemberFrom(cfgs[k], setup(cfgs[k]).text, defaultModel)
    decreases |cfgs|
  {
    if cfgs != [] {
      var n := |cfgs| - 1;
      assert forall i :: 0 <= i < n ==> cfgs[..n][i] == cfgs[i];
      SurvivorsAllLoaded(cfgs[..n], setup, defaultModel);
    }
  }

  /** `NewCouncil`: `parsed` is the outcome of parsing the group id; `setup`
      says what creating each advisor's bot and reading its personality met. */
  method NewCouncil(rawGroupID: string, parsed: Option<int>, cfgs: seq<MemberConfig>,
                    setup: MemberConfig -> Setup, defaultModel: string) returns (r: Created)
    ensures parsed.None? ==> r == Refused(InvalidGroupID(rawGroupID))
    ensures parsed.Some? && Survivors(cfgs, setup, defaultModel) == [] ==> r == Refused(NoMembers)
    ensures parsed.Some? && Survivors(cfgs, setup, defaultModel) != [] ==>
      r == Created(Council(Survivors(cfgs, setup, defaultModel), parsed.value, defaultModel))
  {
    if parsed.None? {
      return Refused(InvalidGroupID(rawGroupID));
    }
    var members: seq<Member> := [];
    var i := 0;
    while i < |cfgs|
      invariant 0 <= i <= |cfgs|
      invariant members == Survivors(cfgs[..i], setup, defaultModel)
    {
      assert cfgs[..i + 1][..i] == cfgs[..i];
      if setup(cfgs[i]).Loaded? {
        members := members + [MemberFrom(cfgs[i], setup(cfgs[i]).text, defaultModel)];
      }
      i := i + 1;
    }
    assert cfgs[..i] == cfgs;
    if members == [] {
      return Refused(NoMembers);
    }
    r := Created(Council(members, parsed.value, defaultModel));
  }

  // =====================================================================
  // What each advisor is asked
  // =====================================================================

  datatype MemberResponse = MemberResponse(name: string, response: string)

  /** The fixed deliberation instructions that follow every personality. */
  const Instructions: string :=
    "INSTRUCCIONES DE DELIBERACIÓN:\n" +
    "- Respondé en español argentino, máximo 200 palabras.\n" +
    "- Sé directo y conciso. No repitas lo que ya dijeron otros.\n" +
    "- Aportá tu perspectiva única según tu rol."

  function SystemPrompt(personality: string): (r: string)
    ensures HasPrefix(r, personality)
    ensures HasSuffix(r, Instructions)
  {
    assert (personality + "\n\n" + Instructions)[..|personality|] == personality;
    personality + "\n\n" + Instructions
  }

  const QuestionLead: string := "PREGUNTA: "
  const EarlierLead: string := "\n\nRESPUESTAS ANTERIORES:"

  /** One earlier answer as the next advisor reads it. */
  function Block(r: MemberResponse): string {
    "\n\n**" + r.name + "**:\n" + r.response
  }

  function Blocks(rs: seq<MemberResponse>): string
    decreases |rs|
  {
    if rs == [] then "" else Block(rs[0]) + Blocks(rs[1..])
  }

  /** The earlier answers appear one after another, in the order given. */
  lemma {:induction false} BlocksAppend(a: seq<MemberResponse>, b: seq<MemberResponse>)
    ensures Blocks(a + b) == Blocks(a) + Blocks(b)
    decreases |a|
  {
    if a == [] {
      assert a + b == b;
    } else {
      assert (a + b)[0] == a[0] && (a + b)[1..] == a[1..] + b;
      BlocksAppend(a[1..], b);
      AppendAssoc(Block(a[0]), Blocks(a[1..]), Blocks(b));
    }
  }

  /** Appending one answer appends its block. */
  lemma BlocksSnoc(a: seq<MemberResponse>, r: MemberResponse)
    ensures Blocks(a + [r]) == Blocks(a) + Block(r)
  {
    BlocksAppend(a, [r]);
    assert [r][1..] == [];
  }

  /** The question, and after it the earlier answers when there are any. */
  function UserContent(question: string, prior: seq<MemberResponse>): string {
    QuestionLead + question + (if prior == [] then "" else EarlierLead + Blocks(prior))
  }

  /** The first advisor sees the question alone; each later entry adds its
      block at the end, after the lead line that the second advisor is the
      first to see. */
  lemma UserContentGrows(question: string, prior: seq<MemberResponse>, r: MemberResponse)
    ensures UserContent(question, []) == QuestionLead + question
    ensures prior == [] ==> UserContent(question, [r]) == QuestionLead + question + EarlierLead + Block(r)
    ensures prior != [] ==> UserContent(question, prior + [r]) == UserContent(question, prior) + Block(r)
  {
    BlocksSnoc(prior, r);
    if prior == [] {
      assert [] + [r] == [r];
    }
  }

  /** The loop of `Deliberate` that writes the user message. */
  method BuildUserContent(question: string, prior: seq<MemberResponse>) returns (s: string)
    ensures s == UserContent(question, prior)
  {
    s := QuestionLead + question;
    if |prior| > 0 {
      s := s + EarlierLead;
      var i := 0;
      while i < |prior|
        invariant 0 <= i <= |prior|
        invariant s == QuestionLead + question + EarlierLead + Blocks(prior[..i])
      {
        assert prior[..i + 1] == prior[..i] + [prior[i]];
        BlocksSnoc(prior[..i], prior[i]);
        s := s + Block(prior[i]);
        i := i + 1;
      }
      assert prior[..i] == prior;
    }
  }

  // =====================================================================
  // Posting to the group
  // =====================================================================

  const TelegramLimit: nat := 4096

  /** A text over Telegram's limit is cut to leave room for `"..."`. */
  function Clip(text: string): (r: string)
    ensures |r| <= TelegramLimit
    ensures |text| <= TelegramLimit ==> r == text
    ensures |text| > TelegramLimit ==> |r| == TelegramLimit && HasPrefix(text, r[..TelegramLimit - 3]) && HasSuffix(r, "...")
  {
    if |text| > TelegramLimit then text[..TelegramLimit - 3] + "..." else text
  }

  datatype GroupSend = GroupSend(chat: int, text: string, html: bool)

  function HtmlPost(name: string, content: string): string {
    "<b>" + name + "</b>\n\n" + content
  }

  function PlainPost(name: string, content: string): string {
    name + "\n\n" + content
  }

  /** The sends of one `postToGroup`: the HTML message, and when Telegram
      refuses it, one plain retry whose own failure is ignored. */
  function GroupSends(group: int, name: string, content: string, htmlOk: bool): seq<GroupSend> {
    [GroupSend(group, Clip(HtmlPost(name, content)), true)]
      + (if htmlOk then [] else [GroupSend(group, Clip(PlainPost(name, content)), false)])
  }

  /** `postToGroup`; `htmlOk` is whether the HTML send succeeded. */
  method PostToGroup(group: int, member: Member, content: string, htmlOk: bool) returns (sends: seq<GroupSend>)
    ensures |sends| == (if htmlOk then 1 else 2)
    ensures forall i :: 0 <= i < |sends| ==> sends[i].chat == group && |sends[i].text| <= TelegramLimit
    ensures sends[0] == GroupSend(group, Clip(HtmlPost(member.name, content)), true)
    ensures !htmlOk ==> sends[1] == GroupSend(group, Clip(PlainPost(member.name, content)), false)
    ensures sends == GroupSends(group, member.name, content, htmlOk)
  {
    var text := HtmlPost(member.name, content);
    if |text| > TelegramLimit {
      text := text[..TelegramLimit - 3] + "...";
    }
    sends := [GroupSend(group, text, true)];
    if !htmlOk {
      text := PlainPost(member.name, content);
      if |text| > TelegramLimit {
        text := text[..TelegramLimit - 3] + "...";
      }
      sends := sends + [GroupSend(group, text, false)];
    }
  }

  // =====================================================================
  // Deliberation
  // =====================================================================

  /** What the provider answered advisor k. */
  datatype ChatReply = ChatFailed(error: string) | Replied(content: string)

  /** The outside world during a deliberation: the provider's reply to
      advisor k, the first advisor whose turn starts after the four-minute
      deadline (time only moves forward, so every later turn is late too),
      and whether the HTML post for advisor k succeeds. */
  datatype World = World(reply: nat -> ChatReply, deadline: nat, htmlOk: nat -> bool)

  /** The request sent to the provider for one advisor. */
  datatype Prompt = Prompt(system: string, user: string, model: string)

  /** The posts made for advisor `member` (its index in the council). */
  datatype Posting = Posting(member: nat, sends: seq<GroupSend>)

  const DeadlineExceeded: string := "context deadline exceeded"

  /** The entry an advisor leaves: the trimmed reply, or the error in brackets. */
  function Entry(m: Member, reply: ChatReply): MemberResponse {
    match reply
    case ChatFailed(e) => MemberResponse(m.name, "[Error: " + e + "]")
    case Replied(content) => MemberResponse(m.name, TrimSpace(content))
  }

  /** The entries of the first n advisors. */
  function Responses(members: seq<Member>, n: nat, w: World): (r: seq<MemberResponse>)
    requires n <= |members|
    ensures |r| == n
  {
    if n == 0 then [] else Responses(members, n - 1, w) + [Entry(members[n - 1], w.reply(n - 1))]
  }

  function PromptFor(m: Member, question: string, prior: seq<MemberResponse>): Prompt {
    Prompt(SystemPrompt(m.personality), UserContent(question, prior), m.model)
  }

  /** The provider requests of the first n advisors. */
  function Prompts(members: seq<Member>, question: string, n: nat, w: World): (r: seq<Prompt>)
    requires n <= |members|
    ensures |r| == n
  {
    if n == 0 then []
    else Prompts(members, question, n - 1, w) + [PromptFor(members[n - 1], question, Responses(members, n - 1, w))]
  }

  /** The group post of advisor k: one when its provider call succeeded,
      none when it failed. */
  function PostingFor(c: Council, k: nat, w: World): seq<Posting>
    requires k < |c.members|
  {
    match w.reply(k)
    case Replied(content) => [Posting(k, GroupSends(c.groupChatID, c.members[k].name, TrimSpace(content), w.htmlOk(k)))]
    case ChatFailed(_) => []
  }

  /** The group posts of the first n advisors. */
  function Postings(c: Council, n: nat, w: World): seq<Posting>
    requires n <= |c.members|
  {
    if n == 0 then [] else Postings(c, n - 1, w) + PostingFor(c, n - 1, w)
  }

  /** How many advisors take their turn before the deadline. */
  function TurnsTaken(w: World, n: nat): (r: nat)
    ensures r <= n && r <= w.deadline
    ensures r == n || r == w.deadline
  {
    if w.deadline < n then w.deadline else n
  }

  datatype Deliberation = Deliberation(responses: seq<MemberResponse>, prompts: seq<Prompt>,
                                       postings: seq<Posting>, error: Option<string>)

  /** What `Deliberate` does: every advisor up to the deadline takes a turn. */
  function Deliberated(c: Council, question: string, w: World): Deliberation {
    var n := TurnsTaken(w, |c.members|);
    Deliberation(Responses(c.members, n, w), Prompts(c.members, question, n, w), Postings(c, n, w),
                 if n < |c.members| then Some(DeadlineExceeded) else None)
  }

  /** `Deliberate`. */
  method Deliberate(c: Council, question: string, w: World)
    returns (responses: seq<MemberResponse>, err: Option<string>, prompts: seq<Prompt>, postings: seq<Posting>)
    ensures Deliberation(responses, prompts, postings, err) == Deliberated(c, question, w)
  {
    responses, prompts, postings := [], [], [];
    var i := 0;
    while i < |c.members| && i != w.deadline
      invariant 0 <= i <= |c.members| && i <= w.deadline
      invariant responses == Responses(c.members, i, w)
      invariant prompts == Prompts(c.members, question, i, w)
      invariant postings == Postings(c, i, w)
    {
      var prompt, entry, posted := Turn(c, question, i, responses, w);
      prompts := prompts + [prompt];
      responses := responses + [entry];
      postings := postings + posted;
      i := i + 1;
    }
    err := if i < |c.members| then Some(DeadlineExceeded) else None;
  }

  /** One advisor's turn: the request, the entry it leaves and its post. */
  method Turn(c: Council, question: string, k: nat, prior: seq<MemberResponse>, w: World)
    returns (prompt: Prompt, entry: MemberResponse, posted: seq<Posting>)
    requires k < |c.members|
    ensures prompt == PromptFor(c.members[k], question, prior)
    ensures entry == Entry(c.members[k], w.reply(k))
    ensures posted == PostingFor(c, k, w)
  {
    var member := c.members[k];
    var user := BuildUserContent(question, prior);
    prompt := Prompt(SystemPrompt(member.personality), user, member.model);
    match w.reply(k) {
      case ChatFailed(e) =>
        entry := MemberResponse(member.name, "[Error: " + e + "]");
        posted := [];
      case Replied(content) =>
        var response := TrimSpace(content);
        entry := MemberResponse(member.name, response);
        var sends := PostToGroup(c.groupChatID, member, response, w.htmlOk(k));
        posted := [Posting(k, sends)];
    }
  }

  /** Entry k is advisor k's: its name, and the trimmed reply or the error. */
  lemma {:induction false} ResponsesShape(members: seq<Member>, n: nat, w: World)
    requires n <= |members|
    ensures forall k {:trigger Responses(members, n, w)[k]} :: 0 <= k < n ==> Responses(members, n, w)[k] == Entry(members[k], w.reply(k))
  {
    if n > 0 { ResponsesShape(members, n - 1, w); }
  }

  /** The entries of the first k advisors do not change as later ones answer. */
  lemma ResponsesPrefix(members: seq<Member>, k: nat, n: nat, w: World)
    requires k <= n <= |members|
    ensures Responses(members, n, w)[..k] == Responses(members, k, w)
  {
    ResponsesShape(members, n, w);
    ResponsesShape(members, k, w);
  }

  /** Advisor k's request is built from the entries of the advisors before it. */
  lemma {:induction false} PromptAt(members: seq<Member>, question: string, n: nat, w: World, k: nat)
    requires k < n <= |members|
    ensures Prompts(members, question, n, w)[k] == PromptFor(members[k], question, Responses(members, k, w))
  {
    if k < n - 1 {
      PromptAt(members, question, n - 1, w, k);
      var before := Prompts(members, question, n - 1, w);
      assert (before + [PromptFor(members[n - 1], question, Responses(members, n - 1, w))])[k] == before[k];
    }
  }

  /** Advisor k is asked with its own personality and model, and sees every
      entry before its own, error entries included. */
  lemma PromptsSeePrior(members: seq<Member>, question: string, n: nat, w: World)
    requires n <= |members|
    ensures forall k :: 0 <= k < n ==>
      Prompts(members, question, n, w)[k] == PromptFor(members[k], question, Responses(members, n, w)[..k])
  {
    forall k | 0 <= k < n
      ensures Prompts(members, question, n, w)[k] == PromptFor(members[k], question, Responses(members, n, w)[..k])
    {
      PromptAt(members, question, n, w, k);
      ResponsesPrefix(members, k, n, w);
    }
  }

  /** Every post belongs to an advisor among the first n whose provider
      call succeeded, and carries that advisor's trimmed reply. */
  lemma {:induction false} PostingsFaithful(c: Council, n: nat, w: World)
    requires n <= |c.members|
    ensures forall i :: 0 <= i < |Postings(c, n, w)| ==>
      Postings(c, n, w)[i].member < n && PostingFor(c, Postings(c, n, w)[i].member, w) == [Postings(c, n, w)[i]]
  {
    if n > 0 {
      PostingsFaithful(c, n - 1, w);
      var before: seq<Posting> := Postings(c, n - 1, w);
      var extra: seq<Posting> := PostingFor(c, n - 1, w);
      forall i | 0 <= i < |before + extra|
        ensures (before + extra)[i].member < n && PostingFor(c, (before + extra)[i].member, w) == [(before + extra)[i]]
      {
        if i < |before| {
          assert (before + extra)[i] == before[i];
        } else {
          assert (before + extra)[i] == extra[0];
        }
      }
    }
  }

  /** Posts come in council order, so no advisor is posted twice. */
  lemma {:induction false} PostingsOrdered(c: Council, n: nat, w: World)
    requires n <= |c.members|
    ensures forall i, j :: 0 <= i < j < |Postings(c, n, w)| ==> Postings(c, n, w)[i].member < Postings(c, n, w)[j].member
  {
    if n > 0 {
      PostingsOrdered(c, n - 1, w);
      PostingsFaithful(c, n - 1, w);
      var before: seq<Posting> := Postings(c, n - 1, w);
      var extra: seq<Posting> := PostingFor(c, n - 1, w);
      forall i, j | 0 <= i < j < |before + extra|
        ensures (before + extra)[i].member < (before + extra)[j].member
      {
        assert (before + extra)[i] == before[i];
        if j < |before| {
          assert (before + extra)[j] == before[j];
        } else {
          assert (before + extra)[j] == extra[0];
        }
      }
    }
  }

  /** Every advisor whose provider call succeeded is posted. */
  lemma {:induction false} PostingsComplete(c: Council, n: nat, w: World, k: nat)
    requires k < n <= |c.members| && w.reply(k).Replied?
    ensures exists i :: 0 <= i < |Postings(c, n, w)| && Postings(c, n, w)[i].member == k
  {
    var before := Postings(c, n - 1, w);
    if k < n - 1 {
      PostingsComplete(c, n - 1, w, k);
      var i :| 0 <= i < |before| && before[i].member == k;
      assert Postings(c, n, w)[i] == before[i];
    } else {
      assert Postings(c, n, w)[|before|].member == k;
    }
  }

  /** A post carries the trimmed reply; an advisor whose call failed has none. */
  lemma PostingForShape(c: Council, k: nat, w: World)
    requires k < |c.members|
    ensures w.reply(k).ChatFailed? <==> PostingFor(c, k, w) == []
    ensures w.reply(k).Replied? ==>
      PostingFor(c, k, w) == [Posting(k, GroupSends(c.groupChatID, c.members[k].name, TrimSpace(w.reply(k).content), w.htmlOk(k)))]
  {
  }

  /** With the deadline never reached, every advisor answers once, in
      council order, and no error is returned. */
  lemma NoDeadlineEveryoneAnswers(c: Council, question: string, w: World)
    requires w.deadline >= |c.members|
    ensures Deliberated(c, question, w).error == None
    ensures |Deliberated(c, question, w).responses| == |c.members|
    ensures forall k :: 0 <= k < |c.members| ==>
      Deliberated(c, question, w).responses[k] == Entry(c.members[k], w.reply(k))
  {
    ResponsesShape(c.members, |c.members|, w);
  }

  /** When the deadline passes before some advisor's turn, the entries of
      the advisors before it come back with the deadline error, and neither
      that advisor nor any later one is asked or posted. */
  lemma DeadlineStops(c: Council, question: string, w: World)
    requires w.deadline < |c.members|
    ensures Deliberated(c, question, w).error == Some(DeadlineExceeded)
    ensures Deliberated(c, question, w).responses == Responses(c.members, w.deadline, w)
    ensures |Deliberated(c, question, w).prompts| == w.deadline
    ensures forall i :: 0 <= i < |Deliberated(c, question, w).postings| ==>
      Deliberated(c, question, w).postings[i].member < w.deadline
  {
    PostingsFaithful(c, w.deadline, w);
  }
}
