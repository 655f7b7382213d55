/** The provider-input assembly of the agent (pkg/agent/context.go): the
    history sanitiser that enforces the tool-call pairing rule, and the
    builder of the system prompt and of the message list sent to the model. */
module AgentContext {
  import opened Common

  // =====================================================================
  // Provider messages

  datatype ToolCall = ToolCall(id: string, name: string, arguments: string)
  datatype ImageURL = ImageURL(url: string, detail: string)
  datatype ContentPart = TextPart(text: string) | ImagePart(image: ImageURL)

  /** A provider message. Roles are the strings "system", "user",
      "assistant" and "tool"; `toolCallId` is meaningful on tool messages. */
  datatype Message = Message(
    role: string,
    content: string,
    parts: seq<ContentPart>,
    toolCalls: seq<ToolCall>,
    toolCallId: string)

  predicate IsTool(m: Message) { m.role == "tool" }

  /** An assistant message that declares tool calls opens a tool-call block. */
  predicate OpensBlock(m: Message) { m.role == "assistant" && |m.toolCalls| > 0 }

  /** Neither a tool message nor a block opener: passes through untouched. */
  predicate IsPlain(m: Message) { !IsTool(m) && !OpensBlock(m) }

  // =====================================================================
  // Specification of sanitizeHistory

  /** The end of the contiguous run of tool messages that starts at `j`. */
  function RunEnd(h: seq<Message>, j: nat): (r: nat)
    requires j <= |h|
    ensures j <= r <= |h|
    ensures forall k :: j <= k < r ==> IsTool(h[k])
    ensures r == |h| || !IsTool(h[r])
    decreases |h| - j
  {
    if j == |h| || !IsTool(h[j]) then j else RunEnd(h, j + 1)
  }

  /** Some tool message of `run` answers the call `id`. */
  predicate Answered(id: string, run: seq<Message>) {
    exists k :: 0 <= k < |run| && run[k].toolCallId == id
  }

  /** Every declared call is answered at least once in `run`. */
  predicate AllAnswered(calls: seq<ToolCall>, run: seq<Message>) {
    forall c :: 0 <= c < |calls| ==> Answered(calls[c].id, run)
  }

  function DeclaredIds(calls: seq<ToolCall>): set<string> {
    set c | 0 <= c < |calls| :: calls[c].id
  }

  /** The sanitised form of `h[i..]`, scanning forward from `i`: a tool
      message met by the scan is dropped; a block opener is kept together
      with its whole tool run when all its calls are answered there, and
      dropped with it otherwise; every other message is kept. */
  function SanitizedFrom(h: seq<Message>, i: nat): seq<Message>
    requires i <= |h|
    decreases |h| - i
  {
    if i == |h| then []
    else if IsTool(h[i]) then SanitizedFrom(h, i + 1)
    else if OpensBlock(h[i]) then
      var j := RunEnd(h, i + 1);
      (if AllAnswered(h[i].toolCalls, h[i + 1..j]) then h[i..j] else []) + SanitizedFrom(h, j)
    else [h[i]] + SanitizedFrom(h, i + 1)
  }

  function Sanitized(h: seq<Message>): seq<Message> {
    SanitizedFrom(h, 0)
  }

  /** The first loop of a block check: every declared id, marked not found. */
  method ExpectedIDs(calls: seq<ToolCall>) returns (expected: map<string, bool>)
    ensures expected.Keys == DeclaredIds(calls)
    ensures forall id :: id in expected ==> !expected[id]
  {
    expected := map[];
    var c := 0;
    while c < |calls|
      invariant 0 <= c <= |calls|
      invariant expected.Keys == DeclaredIds(calls[..c])
      invariant forall id :: id in expected ==> !expected[id]
    {
      assert calls[..c + 1] == calls[..c] + [calls[c]];
      expected := expected[calls[c].id := false];
      c := c + 1;
    }
    assert calls[..c] == calls;
  }

  /** The lookahead of a block check: walks the tool run after `i` and marks
      each declared id that some tool message of the run answers. */
  method LookAhead(history: seq<Message>, i: nat, expected0: map<string, bool>)
    returns (j: nat, expected: map<string, bool>)
    requires i < |history|
    requires forall id :: id in expected0 ==> !expected0[id]
    ensures j == RunEnd(history, i + 1)
    ensures expected.Keys == expected0.Keys
    ensures forall id :: id in expected ==> (expected[id] <==> Answered(id, history[i + 1..j]))
  {
    expected := expected0;
    j := i + 1;
    while j < |history| && history[j].role == "tool"
      invariant i + 1 <= j <= |history|
      invariant forall k :: i + 1 <= k < j ==> IsTool(history[k])
      invariant expected.Keys == expected0.Keys
      invariant forall id :: id in expected ==> (expected[id] <==> Answered(id, history[i + 1..j]))
    {
      AnsweredExtend(history[i + 1..j], history[j]);
      assert history[i + 1..j + 1] == history[i + 1..j] + [history[j]];
      if history[j].toolCallId in expected {
        expected := expected[history[j].toolCallId := true];
      }
      j := j + 1;
    }
    RunEndUnique(history, i + 1, j);
  }

  /** The final loop of a block check: whether every entry is marked found,
      visiting the entries in whatever order the map yields them. */
  method AllFound(expected: map<string, bool>) returns (allFound: bool)
    ensures allFound <==> forall id :: id in expected ==> expected[id]
  {
    allFound := true;
    var pending := expected.Keys;
    while pending != {}
      invariant pending <= expected.Keys
      invariant forall id :: id in expected.Keys - pending ==> expected[id]
      decreases pending
    {
      var id :| id in pending;
      if !expected[id] {
        allFound := false;
        break;
      }
      pending := pending - {id};
    }
  }

  /** The map answer agrees with the specification's `AllAnswered`. */
  lemma AllFoundMeansAllAnswered(calls: seq<ToolCall>, run: seq<Message>, expected: map<string, bool>)
    requires expected.Keys == DeclaredIds(calls)
    requires forall id :: id in expected ==> (expected[id] <==> Answered(id, run))
    ensures (forall id :: id in expected ==> expected[id]) <==> AllAnswered(calls, run)
  {
    if AllAnswered(calls, run) {
      forall id | id in expected ensures expected[id] {
        var c :| 0 <= c < |calls| && calls[c].id == id;
      }
    } else {
      var c :| 0 <= c < |calls| && !Answered(calls[c].id, run);
      assert calls[c].id in DeclaredIds(calls);
    }
  }

  /** The check of one block opened at `i`: where its tool run ends, and
      whether every declared call is answered in that run. */
  method CheckBlock(history: seq<Message>, i: nat) returns (j: nat, allFound: bool)
    requires i < |history| && OpensBlock(history[i])
    ensures j == RunEnd(history, i + 1)
    ensures allFound <==> AllAnswered(history[i].toolCalls, history[i + 1..j])
  {
    var expectedIDs := ExpectedIDs(history[i].toolCalls);
    j, expectedIDs := LookAhead(history, i, expectedIDs);
    allFound := AllFound(expectedIDs);
    AllFoundMeansAllAnswered(history[i].toolCalls, history[i + 1..j], expectedIDs);
  }

  /** Appends the opener and, one by one, the messages of its tool run. */
  method AppendBlock(result0: seq<Message>, history: seq<Message>, i: nat, j: nat) returns (result: seq<Message>)
    requires i < j <= |history|
    ensures result == result0 + history[i..j]
  {
    result := result0 + [history[i]];
    var k := i + 1;
    while k < j
      invariant i + 1 <= k <= j
      invariant result == result0 + history[i..k]
    {
      assert history[i..k + 1] == history[i..k] + [history[k]];
      result := result + [history[k]];
      k := k + 1;
    }
  }

  /** `sanitizeHistory`: one forward scan over the history with a lookahead
      over the tool run that follows each block opener. */
  method SanitizeHistory(history: seq<Message>) returns (result: seq<Message>)
    ensures result == Sanitized(history)
  {
    if |history| == 0 {
      return history;
    }
    result := [];
    var i := 0;
    while i < |history|
      invariant 0 <= i <= |history|
      invariant result + SanitizedFrom(history, i) == Sanitized(history)
      decreases |history| - i
    {
      var msg := history[i];
      if msg.role == "tool" {
        assert SanitizedFrom(history, i) == SanitizedFrom(history, i + 1);
        i := i + 1;
        continue;
      }
      if msg.role == "assistant" && |msg.toolCalls| > 0 {
        var j, allFound := CheckBlock(history, i);
        ghost var rest := SanitizedFrom(history, j);
        if allFound {
          // A complete block: keep the opener and its whole run.
          assert SanitizedFrom(history, i) == history[i..j] + rest;
          ghost var before := result;
          result := AppendBlock(result, history, i, j);
          assert result + rest == before + (history[i..j] + rest);
          i := j;
        } else {
          // An incomplete block: drop the opener and its run.
          assert SanitizedFrom(history, i) == [] + rest;
          assert [] + rest == rest;
          i := j;
        }
        continue;
      }
      assert SanitizedFrom(history, i) == [msg] + SanitizedFrom(history, i + 1);
      assert result + [msg] + SanitizedFrom(history, i + 1) == result + ([msg] + SanitizedFrom(history, i + 1));
      result := result + [msg];
      i := i + 1;
    }
  }

  lemma AnsweredExtend(run: seq<Message>, m: Message)
    ensures forall id :: Answered(id, run + [m]) <==> Answered(id, run) || m.toolCallId == id
  {
    forall id ensures Answered(id, run + [m]) <==> Answered(id, run) || m.toolCallId == id {
      if Answered(id, run + [m]) {
        var k :| 0 <= k < |run + [m]| && (run + [m])[k].toolCallId == id;
        if k < |run| { assert run[k] == (run + [m])[k]; }
      }
      if Answered(id, run) {
        var k :| 0 <= k < |run| && run[k].toolCallId == id;
        assert (run + [m])[k] == run[k];
      }
      if m.toolCallId == id { assert (run + [m])[|run|] == m; }
    }
  }

  lemma RunEndUnique(h: seq<Message>, j: nat, e: nat)
    requires j <= e <= |h|
    requires forall k :: j <= k < e ==> IsTool(h[k])
    requires e == |h| || !IsTool(h[e])
    ensures RunEnd(h, j) == e
    decreases e - j
  {
    if j < e { RunEndUnique(h, j + 1, e); }
  }

  // =====================================================================
  // What sanitising guarantees

  /** Each tool message directly follows a tool message or a block opener. */
  predicate ToolsFollowOpeners(h: seq<Message>) {
    forall k :: 0 <= k < |h| && IsTool(h[k]) ==> k > 0 && !IsPlain(h[k - 1])
  }

  /** Each block opener has all its calls answered in the tool run after it. */
  predicate BlocksComplete(h: seq<Message>) {
    forall k :: 0 <= k < |h| && OpensBlock(h[k]) ==> AllAnswered(h[k].toolCalls, h[k + 1..RunEnd(h, k + 1)])
  }

  /** The pairing rule a provider enforces on the history it is sent. */
  predicate ProviderValid(h: seq<Message>) {
    ToolsFollowOpeners(h) && BlocksComplete(h)
  }

  /** A valid history passes the sanitiser unchanged. */
  lemma {:induction false} ValidIsFixedPoint(h: seq<Message>)
    requires ProviderValid(h)
    ensures Sanitized(h) == h
  {
    if |h| > 0 {
      assert !IsTool(h[0]);
    }
    ValidFromBoundary(h, 0);
  }

  lemma {:induction false} ValidFromBoundary(h: seq<Message>, i: nat)
    requires ProviderValid(h)
    requires i <= |h| && (i == |h| || !IsTool(h[i]))
    ensures SanitizedFrom(h, i) == h[i..]
    decreases |h| - i
  {
    if i < |h| {
      if OpensBlock(h[i]) {
        var j := RunEnd(h, i + 1);
        ValidFromBoundary(h, j);
        assert h[i..] == h[i..j] + h[j..];
      } else {
        ValidFromBoundary(h, i + 1);
        assert h[i..] == [h[i]] + h[i + 1..];
      }
    }
  }

  /** The sanitiser's output never starts with a tool message. */
  lemma {:induction false} SanitizedFromHead(h: seq<Message>, i: nat)
    requires i <= |h|
    ensures SanitizedFrom(h, i) == [] || !IsTool(SanitizedFrom(h, i)[0])
    decreases |h| - i
  {
    if i < |h| {
      if IsTool(h[i]) {
        SanitizedFromHead(h, i + 1);
      } else if OpensBlock(h[i]) {
        var j := RunEnd(h, i + 1);
        SanitizedFromHead(h, j);
      }
    }
  }

  /** The sanitiser's output satisfies the pairing rule. */
  lemma SanitizedIsValid(h: seq<Message>)
    ensures ProviderValid(Sanitized(h))
  {
    SanitizedFromValid(h, 0);
  }

  lemma {:induction false} SanitizedFromValid(h: seq<Message>, i: nat)
    requires i <= |h|
    ensures ProviderValid(SanitizedFrom(h, i))
    decreases |h| - i
  {
    if i < |h| {
      if IsTool(h[i]) {
        SanitizedFromValid(h, i + 1);
      } else if OpensBlock(h[i]) {
        var j := RunEnd(h, i + 1);
        SanitizedFromValid(h, j);
        SanitizedFromHead(h, j);
        if AllAnswered(h[i].toolCalls, h[i + 1..j]) {
          assert SanitizedFrom(h, i) == h[i..j] + SanitizedFrom(h, j);
          assert h[i..j][1..] == h[i + 1..j];
          PrependBlock(h[i..j], SanitizedFrom(h, j));
        } else {
          assert SanitizedFrom(h, i) == [] + SanitizedFrom(h, j) == SanitizedFrom(h, j);
        }
      } else {
        SanitizedFromValid(h, i + 1);
        SanitizedFromHead(h, i + 1);
        PrependBlock([h[i]], SanitizedFrom(h, i + 1));
      }
    }
  }

  /** A plain message, or a complete block, in front of a valid history that
      does not start with a tool message gives a valid history. */
  lemma PrependBlock(p: seq<Message>, rest: seq<Message>)
    requires |p| >= 1 && !IsTool(p[0])
    requires forall k :: 1 <= k < |p| ==> IsTool(p[k])
    requires !OpensBlock(p[0]) ==> |p| == 1
    requires OpensBlock(p[0]) ==> AllAnswered(p[0].toolCalls, p[1..])
    requires ProviderValid(rest) && (rest == [] || !IsTool(rest[0]))
    ensures ProviderValid(p + rest)
  {
    PrependToolsFollow(p, rest);
    PrependBlocksComplete(p, rest);
  }

  lemma PrependToolsFollow(p: seq<Message>, rest: seq<Message>)
    requires |p| >= 1 && !IsTool(p[0])
    requires forall k :: 1 <= k < |p| ==> IsTool(p[k])
    requires !OpensBlock(p[0]) ==> |p| == 1
    requires ToolsFollowOpeners(rest) && (rest == [] || !IsTool(rest[0]))
    ensures ToolsFollowOpeners(p + rest)
  {
    var h := p + rest;
    forall k | 0 <= k < |h| && IsTool(h[k])
      ensures k > 0 && !IsPlain(h[k - 1])
    {
      if k >= |p| {
        assert rest[k - |p|] == h[k];
        assert k != |p|;
        assert h[k - 1] == rest[k - |p| - 1];
      } else {
        assert p[k] == h[k];
        assert h[k - 1] == p[k - 1];
      }
    }
  }

  lemma PrependBlocksComplete(p: seq<Message>, rest: seq<Message>)
    requires |p| >= 1 && !IsTool(p[0])
    requires forall k :: 1 <= k < |p| ==> IsTool(p[k])
    requires OpensBlock(p[0]) ==> AllAnswered(p[0].toolCalls, p[1..])
    requires BlocksComplete(rest) && (rest == [] || !IsTool(rest[0]))
    ensures BlocksComplete(p + rest)
  {
    var h := p + rest;
    forall k | 0 <= k < |h| && OpensBlock(h[k])
      ensures AllAnswered(h[k].toolCalls, h[k + 1..RunEnd(h, k + 1)])
    {
      if k >= |p| {
        var k' := k - |p|;
        assert rest[k'] == h[k];
        var e := RunEnd(rest, k' + 1);
        forall m | k + 1 <= m < e + |p| ensures IsTool(h[m]) {
          assert h[m] == rest[m - |p|];
        }
        if e < |rest| { assert h[e + |p|] == rest[e]; }
        RunEndUnique(h, k + 1, e + |p|);
        assert h[k + 1..e + |p|] == rest[k' + 1..e];
      } else {
        assert k == 0 && h[0] == p[0];
        forall m | 1 <= m < |p| ensures IsTool(h[m]) {
          assert h[m] == p[m];
        }
        if |rest| > 0 { assert h[|p|] == rest[0]; }
        RunEndUnique(h, 1, |p|);
        assert h[1..|p|] == p[1..];
      }
    }
  }

  /** `a` is obtained from `b` by deleting elements. */
  predicate Subsequence(a: seq<Message>, b: seq<Message>)
    decreases |b|
  {
    a == [] || (b != [] && ((a[0] == b[0] && Subsequence(a[1..], b[1..])) || Subsequence(a, b[1..])))
  }

  lemma {:induction false} SubsequenceShorter(a: seq<Message>, b: seq<Message>)
    requires Subsequence(a, b)
    ensures |a| <= |b|
    decreases |b|
  {
    if a != [] {
      if a[0] == b[0] && Subsequence(a[1..], b[1..]) {
        SubsequenceShorter(a[1..], b[1..]);
      } else {
        SubsequenceShorter(a, b[1..]);
      }
    }
  }

  lemma {:induction false} SubsequenceSkip(a: seq<Message>, p: seq<Message>, b: seq<Message>)
    requires Subsequence(a, b)
    ensures Subsequence(a, p + b)
    decreases |p|
  {
    if p == [] {
      assert p + b == b;
    } else {
      SubsequenceSkip(a, p[1..], b);
      assert (p + b)[1..] == p[1..] + b;
    }
  }

  lemma {:induction false} SubsequenceKeep(a: seq<Message>, p: seq<Message>, b: seq<Message>)
    requires Subsequence(a, b)
    ensures Subsequence(p + a, p + b)
    decreases |p|
  {
    if p == [] {
      assert p + a == a && p + b == b;
    } else {
      SubsequenceKeep(a, p[1..], b);
      assert (p + a)[0] == p[0] == (p + b)[0];
      assert (p + a)[1..] == p[1..] + a;
      assert (p + b)[1..] == p[1..] + b;
    }
  }

  /** The output keeps messages of the input in their original order, and so
      is never longer than the input. */
  lemma SanitizedIsSubsequence(h: seq<Message>)
    ensures Subsequence(Sanitized(h), h)
    ensures |Sanitized(h)| <= |h|
  {
    SanitizedFromSubsequence(h, 0);
    assert h[0..] == h;
    SubsequenceShorter(Sanitized(h), h);
  }

  lemma {:induction false} SanitizedFromSubsequence(h: seq<Message>, i: nat)
    requires i <= |h|
    ensures Subsequence(SanitizedFrom(h, i), h[i..])
    decreases |h| - i
  {
    if i < |h| {
      if IsTool(h[i]) {
        SanitizedFromSubsequence(h, i + 1);
        SubsequenceSkip(SanitizedFrom(h, i + 1), [h[i]], h[i + 1..]);
        assert h[i..] == [h[i]] + h[i + 1..];
      } else if OpensBlock(h[i]) {
        var j := RunEnd(h, i + 1);
        SanitizedFromSubsequence(h, j);
        assert h[i..] == h[i..j] + h[j..];
        if AllAnswered(h[i].toolCalls, h[i + 1..j]) {
          assert SanitizedFrom(h, i) == h[i..j] + SanitizedFrom(h, j);
          SubsequenceKeep(SanitizedFrom(h, j), h[i..j], h[j..]);
        } else {
          assert SanitizedFrom(h, i) == [] + SanitizedFrom(h, j) == SanitizedFrom(h, j);
          SubsequenceSkip(SanitizedFrom(h, j), h[i..j], h[j..]);
        }
      } else {
        SanitizedFromSubsequence(h, i + 1);
        assert SanitizedFrom(h, i) == [h[i]] + SanitizedFrom(h, i + 1);
        SubsequenceKeep(SanitizedFrom(h, i + 1), [h[i]], h[i + 1..]);
        assert h[i..] == [h[i]] + h[i + 1..];
      }
    }
  }

  /** The plain messages of a history, in order. */
  function PlainOf(h: seq<Message>): seq<Message> {
    if h == [] then [] else (if IsPlain(h[0]) then [h[0]] else []) + PlainOf(h[1..])
  }

  lemma {:induction false} PlainOfAppend(a: seq<Message>, b: seq<Message>)
    ensures PlainOf(a + b) == PlainOf(a) + PlainOf(b)
  {
    if a == [] {
      assert a + b == b;
    } else {
      assert (a + b)[0] == a[0];
      assert (a + b)[1..] == a[1..] + b;
      PlainOfAppend(a[1..], b);
    }
  }

  lemma {:induction false} PlainOfBlock(b: seq<Message>)
    requires forall k :: 0 <= k < |b| ==> !IsPlain(b[k])
    ensures PlainOf(b) == []
  {
    if b != [] { PlainOfBlock(b[1..]); }
  }

  /** User, system and tool-free assistant messages all survive, unchanged
      and in their original order. */
  lemma PlainMessagesPreserved(h: seq<Message>)
    ensures PlainOf(Sanitized(h)) == PlainOf(h)
  {
    PlainFrom(h, 0);
    assert h[0..] == h;
  }

  lemma {:induction false} PlainFrom(h: seq<Message>, i: nat)
    requires i <= |h|
    ensures PlainOf(SanitizedFrom(h, i)) == PlainOf(h[i..])
    decreases |h| - i
  {
    if i < |h| {
      assert h[i..] == [h[i]] + h[i + 1..];
      PlainOfAppend([h[i]], h[i + 1..]);
      if IsTool(h[i]) {
        PlainFrom(h, i + 1);
      } else if OpensBlock(h[i]) {
        var j := RunEnd(h, i + 1);
        PlainFrom(h, j);
        assert h[i..] == h[i..j] + h[j..];
        PlainOfAppend(h[i..j], h[j..]);
        PlainOfBlock(h[i..j]);
        var kept := if AllAnswered(h[i].toolCalls, h[i + 1..j]) then h[i..j] else [];
        PlainOfAppend(kept, SanitizedFrom(h, j));
        PlainOfBlock(kept);
      } else {
        PlainFrom(h, i + 1);
        PlainOfAppend([h[i]], SanitizedFrom(h, i + 1));
      }
    }
  }

  /** Sanitising twice is sanitising once. */
  lemma SanitizeIdempotent(h: seq<Message>)
    ensures Sanitized(Sanitized(h)) == Sanitized(h)
  {
    SanitizedIsValid(h);
    ValidIsFixedPoint(Sanitized(h));
  }

  function User(content: string): Message { Message("user", content, [], [], "") }
  function ToolReply(id: string): Message { Message("tool", "ok", [], [], id) }
  function CallingAssistant(ids: seq<string>): Message {
    Message("assistant", "", [], seq(|ids|, k requires 0 <= k < |ids| => ToolCall(ids[k], "f", "{}")), "")
  }

  /** A lone tool message is an orphan and is dropped. */
  lemma OrphanToolDropped(id: string)
    ensures Sanitized([ToolReply(id)]) == []
  {
    assert SanitizedFrom([ToolReply(id)], 1) == [];
  }

  /** `[user, assistant(A, B), tool(A)]`: B is never answered, so the whole
      block goes and only the user message is left. */
  lemma UnansweredBlockDropped()
    ensures Sanitized([User("q"), CallingAssistant(["A", "B"]), ToolReply("A")]) == [User("q")]
  {
    var h := [User("q"), CallingAssistant(["A", "B"]), ToolReply("A")];
    assert RunEnd(h, 2) == 3 by { RunEndUnique(h, 2, 3); }
    assert h[1].toolCalls[1].id == "B";
    assert !Answered("B", h[2..3]);
    assert SanitizedFrom(h, 3) == [];
    assert SanitizedFrom(h, 1) == [];
  }

  /** The same block with both calls answered, in any order, is kept whole. */
  lemma AnsweredBlockKept()
    ensures var h := [User("q"), CallingAssistant(["A", "B"]), ToolReply("B"), ToolReply("A")];
      Sanitized(h) == h
  {
    var h := [User("q"), CallingAssistant(["A", "B"]), ToolReply("B"), ToolReply("A")];
    assert RunEnd(h, 2) == 4 by { RunEndUnique(h, 2, 4); }
    var run := h[2..4];
    assert run[1].toolCallId == "A" && run[0].toolCallId == "B";
    assert AllAnswered(h[1].toolCalls, run);
    assert SanitizedFrom(h, 4) == [];
    assert SanitizedFrom(h, 1) == h[1..4];
  }

  /** A complete block keeps its whole tool run, including a reply to an id
      the assistant never declared: the scan does not filter the run. */
  lemma UndeclaredReplyKept()
    ensures var h := [CallingAssistant(["A"]), ToolReply("A"), ToolReply("Z")];
      Sanitized(h) == h
  {
    var h := [CallingAssistant(["A"]), ToolReply("A"), ToolReply("Z")];
    assert RunEnd(h, 1) == 3 by { RunEndUnique(h, 1, 3); }
    var run := h[1..3];
    assert run[0].toolCallId == "A";
    assert AllAnswered(h[0].toolCalls, run);
    assert SanitizedFrom(h, 3) == [];
    assert h[0..3] == h;
  }

  // =====================================================================
  // System prompt and provider input

  /** The bootstrap documents, in the order they are read. */
  const BootstrapFiles: seq<string> := ["AGENTS.md", "SOUL.md", "USER.md", "IDENTITY.md"]

  const PromptSeparator: string := "\n\n---\n\n"

  /** What the prompt builder reads from its surroundings: the clock, the
      host description, the absolute workspace path, the workspace files
      that exist, and the skill and memory summaries of its collaborators. */
  datatype Env = Env(
    now: string,
    runtimeInfo: string,
    absWorkspace: string,
    files: map<string, string>,
    skillsSummary: string,
    memoryContext: string)

  /** The section one bootstrap document contributes: empty when the file is missing. */
  function BootstrapSection(name: string, files: map<string, string>): string {
    if name in files then "## " + name + "\n\n" + files[name] + "\n\n" else ""
  }

  function BootstrapSections(files: map<string, string>): seq<string> {
    seq(|BootstrapFiles|, k requires 0 <= k < |BootstrapFiles| => BootstrapSection(BootstrapFiles[k], files))
  }

  lemma {:induction false} ConcatEmpty(parts: seq<string>)
    ensures Concat(parts) == [] <==> forall k :: 0 <= k < |parts| ==> parts[k] == []
  {
    if parts != [] {
      ConcatEmpty(parts[1..]);
      assert forall k :: 1 <= k < |parts| ==> parts[k] == parts[1..][k - 1];
    }
  }

  /** The bootstrap text is empty exactly when none of the four files exists. */
  lemma BootstrapEmptyIffNoFiles(files: map<string, string>)
    ensures Concat(BootstrapSections(files)) == [] <==> forall k :: 0 <= k < |BootstrapFiles| ==> BootstrapFiles[k] !in files
  {
    var parts := BootstrapSections(files);
    ConcatEmpty(parts);
    forall k | 0 <= k < |BootstrapFiles|
      ensures parts[k] == [] <==> BootstrapFiles[k] !in files
    {
      if BootstrapFiles[k] in files {
        assert |parts[k]| >= 3;
      }
    }
  }

  /** The tools section: empty when there is no registry or it has no summaries. */
  function ToolsSection(registry: Option<seq<string>>): string {
    if registry.None? || registry.value == [] then ""
    else ToolsHeader + Concat(seq(|registry.value|, k requires 0 <= k < |registry.value| => registry.value[k] + "\n"))
  }

  const ToolsHeader: string :=
    "## Available Tools\n\n"
    + "**CRITICAL**: You MUST "
    + "use tools to perform "
    + "actions. Do NOT pretend "
    + "to execute commands or "
    + "schedule tasks.\n\nYou "
    + "have access to the "
    + "following tools:\n\n"

  /** The identity block (`getIdentity`): time, model, runtime and workspace,
      then the tools section and the standing rules. Long literals are
      written as short pieces, which keeps proofs that mention them cheap. */
  function IdentityBlock(env: Env, model: string, toolsSection: string): string {
    var ws := env.absWorkspace;
    "# picoclaw \U{1F99E}\n\nYou are "
    + "picoclaw, a helpful AI "
    + "assistant.\n\n## Current "
    + "Time\n"
    + env.now
    + "\n\n## Model\n"
    + model
    + "\n\n## Runtime\n"
    + env.runtimeInfo
    + "\n\n## Workspace\nYour "
    + "workspace is at: "
    + ws
    + "\n- Memory: "
    + ws
    + "/memory/MEMORY.md\n- "
    + "Daily Notes: "
    + ws
    + "/memory/YYYYMM/YYYYMMDD."
    + "md\n- Skills: "
    + ws
    + "/skills/{skill-name}/SKI"
    + "LL.md\n\n"
    + toolsSection
    + "\n\n## Important Rules\n\n"
    + "1. **ALWAYS use tools** "
    + "- When you need to "
    + "perform an action "
    + "(schedule reminders, "
    + "send messages, execute "
    + "commands, etc.), you "
    + "MUST call the "
    + "appropriate tool. Do "
    + "NOT just say you'll do "
    + "it or pretend to do it.\n"
    + "\n2. **Be helpful and "
    + "accurate** - When using "
    + "tools, briefly explain "
    + "what you're doing.\n\n3. "
    + "**Memory** - When "
    + "remembering something, "
    + "write to "
    + ws
    + "/memory/MEMORY.md"
  }

  function SkillsBlock(summary: string): string {
    "# Skills\n\nThe following "
    + "skills extend your "
    + "capabilities. To use a "
    + "skill, read its "
    + "SKILL.md file using the "
    + "read_file tool.\n\n"
    + summary
  }

  function MemoryBlock(memory: string): string {
    "# Memory\n\n" + memory
  }

  /** The prompt sections in their fixed order, empty ones left out. */
  function PromptSections(identity: string, bootstrap: string, env: Env): seq<string> {
    var withBootstrap := if bootstrap != "" then [identity] + [bootstrap] else [identity];
    var withSkills := if env.skillsSummary != "" then withBootstrap + [SkillsBlock(env.skillsSummary)] else withBootstrap;
    if env.memoryContext != "" then withSkills + [MemoryBlock(env.memoryContext)] else withSkills
  }

  /** The system prompt for an environment, a model name and a tool registry. */
  function SystemPrompt(env: Env, model: string, tools: Option<seq<string>>): string {
    Join(PromptSections(IdentityBlock(env, model, ToolsSection(tools)), Concat(BootstrapSections(env.files)), env), PromptSeparator)
  }

  /** The prompt with the session footer (only when both the channel and
      the chat are known) and then the summary footer (only when there is one). */
  function WithFooters(prompt: string, channel: string, chatID: string, summary: string): string {
    var withSession := if channel != "" && chatID != "" then prompt + SessionInfo(channel, chatID) else prompt;
    if summary != "" then withSession + SummaryInfo(summary) else withSession
  }

  function SessionInfo(channel: string, chatID: string): string {
    "\n\n## Current Session\nChannel: " + channel + "\nChat ID: " + chatID
  }

  function SummaryInfo(summary: string): string {
    "\n\n## Summary of Previous Conversation\n\n" + summary
  }

  /** The image parts for the media list: one per `data:image/` entry, in order. */
  function ImageParts(media: seq<string>): (r: seq<ContentPart>)
    ensures forall k :: 0 <= k < |r| ==> r[k].ImagePart? && HasPrefix(r[k].image.url, "data:image/") && r[k].image.detail == "auto"
    ensures |r| <= |media|
  {
    if media == [] then []
    else (if HasPrefix(media[0], "data:image/") then [ImagePart(ImageURL(media[0], "auto"))] else []) + ImageParts(media[1..])
  }

  /** Keeps the image entries exactly: the URLs of the parts are the media
      entries that carry the image prefix, in their original order. */
  lemma {:induction false} ImagePartsAreImageMedia(media: seq<string>)
    ensures forall k :: 0 <= k < |ImageParts(media)| ==> ImageParts(media)[k].image.url in media
    ensures (forall k :: 0 <= k < |media| ==> HasPrefix(media[k], "data:image/")) ==> |ImageParts(media)| == |media|
    ensures (forall k :: 0 <= k < |media| ==> !HasPrefix(media[k], "data:image/")) ==> ImageParts(media) == []
  {
    if media != [] {
      ImagePartsAreImageMedia(media[1..]);
      var head := if HasPrefix(media[0], "data:image/") then [ImagePart(ImageURL(media[0], "auto"))] else [];
      assert ImageParts(media) == head + ImageParts(media[1..]);
      forall k | 0 <= k < |ImageParts(media)| ensures ImageParts(media)[k].image.url in media {
        if k >= |head| {
          assert ImageParts(media)[k] == ImageParts(media[1..])[k - |head|];
          assert media[1..] <= media[1..];
        }
      }
    }
  }

  /** The message the user just sent: plain text, or text plus image parts when media came along. */
  function UserMessage(current: string, media: seq<string>): Message {
    Message("user", current, if media == [] then [] else [TextPart(current)] + ImageParts(media), [], "")
  }

  /** `ContextBuilder`: the workspace it serves, the active model name and
      the tool registry (absent, or the list of tool summaries it reports). */
  class ContextBuilder {
    const workspace: string
    var model: string
    var tools: Option<seq<string>>

    constructor (workspace: string)
      ensures this.workspace == workspace && model == "" && tools == None
    {
      this.workspace := workspace;
      model := "";
      tools := None;
    }

    /** `SetToolsRegistry`: replaces the registry, nothing else. */
    method SetToolsRegistry(registry: Option<seq<string>>)
      modifies this`tools
      ensures tools == registry
    {
      tools := registry;
    }

    /** `SetModel`: replaces the model name, nothing else. */
    method SetModel(m: string)
      modifies this`model
      ensures model == m
    {
      model := m;
    }

    /** `buildToolsSection`. */
    method BuildToolsSection() returns (s: string)
      ensures s == ToolsSection(tools)
      ensures s == "" <==> tools.None? || tools.value == []
    {
      if tools.None? {
        return "";
      }
      var summaries := tools.value;
      if |summaries| == 0 {
        return "";
      }
      s := ToolsHeader;
      var lines := seq(|summaries|, k requires 0 <= k < |summaries| => summaries[k] + "\n");
      var k := 0;
      while k < |summaries|
        invariant 0 <= k <= |summaries|
        invariant s == ToolsHeader + Concat(lines[..k])
      {
        ConcatAppend(lines[..k], [lines[k]]);
        assert lines[..k + 1] == lines[..k] + [lines[k]];
        s := s + (summaries[k] + "\n");
        k := k + 1;
      }
      assert lines[..k] == lines;
    }

    /** `LoadBootstrapFiles`: the sections of the bootstrap documents that
        exist, in the fixed order, missing ones skipped. */
    method LoadBootstrapFiles(files: map<string, string>) returns (text: string)
      ensures text == Concat(BootstrapSections(files))
      ensures text == "" <==> forall k :: 0 <= k < |BootstrapFiles| ==> BootstrapFiles[k] !in files
    {
      var sections := BootstrapSections(files);
      text := "";
      var k := 0;
      while k < |BootstrapFiles|
        invariant 0 <= k <= |BootstrapFiles|
        invariant text == Concat(sections[..k])
      {
        ConcatAppend(sections[..k], [sections[k]]);
        assert sections[..k + 1] == sections[..k] + [sections[k]];
        var name := BootstrapFiles[k];
        if name in files {
          text := text + ("## " + name + "\n\n" + files[name] + "\n\n");
        }
        k := k + 1;
      }
      assert sections[..k] == sections;
      BootstrapEmptyIffNoFiles(files);
    }

    /** `BuildSystemPrompt`: identity, bootstrap, skills and memory, in that
        order, empty sections left out, joined by the separator. */
    method BuildSystemPrompt(env: Env) returns (prompt: string)
      ensures prompt == SystemPrompt(env, model, tools)
    {
      var toolsSection := BuildToolsSection();
      var identity := IdentityBlock(env, model, toolsSection);
      var parts := [identity];
      var bootstrap := LoadBootstrapFiles(env.files);
      if bootstrap != "" {
        parts := parts + [bootstrap];
      }
      if env.skillsSummary != "" {
        parts := parts + [SkillsBlock(env.skillsSummary)];
      }
      if env.memoryContext != "" {
        parts := parts + [MemoryBlock(env.memoryContext)];
      }
      prompt := Join(parts, PromptSeparator);
    }

    /** `BuildMessages`: the system message (prompt, then the session footer
        and the summary footer), the sanitised history, and one user message. */
    method BuildMessages(env: Env, history: seq<Message>, summary: string, current: string,
                         media: seq<string>, channel: string, chatID: string)
      returns (messages: seq<Message>)
      ensures messages ==
        [Message("system", WithFooters(SystemPrompt(env, model, tools), channel, chatID, summary), [], [], "")]
        + Sanitized(history) + [UserMessage(current, media)]
    {
      var systemPrompt := BuildSystemPrompt(env);
      if channel != "" && chatID != "" {
        systemPrompt := systemPrompt + SessionInfo(channel, chatID);
      }
      if summary != "" {
        systemPrompt := systemPrompt + SummaryInfo(summary);
      }
      var sanitized := SanitizeHistory(history);
      messages := [Message("system", systemPrompt, [], [], "")] + sanitized;
      var userMsg := BuildUserMessage(current, media);
      messages := messages + [userMsg];
    }
  }

  /** The user message of `BuildMessages`: multimodal when media came along. */
  method BuildUserMessage(current: string, media: seq<string>) returns (userMsg: Message)
    ensures userMsg == UserMessage(current, media)
  {
    userMsg := Message("user", current, [], [], "");
    if |media| > 0 {
      var parts := [TextPart(current)];
      var k := 0;
      while k < |media|
        invariant 0 <= k <= |media|
        invariant parts == [TextPart(current)] + ImageParts(media[..k])
      {
        ImagePartsAppend(media[..k], media[k]);
        assert media[..k + 1] == media[..k] + [media[k]];
        if HasPrefix(media[k], "data:image/") {
          parts := parts + [ImagePart(ImageURL(media[k], "auto"))];
        }
        k := k + 1;
      }
      assert media[..k] == media;
      userMsg := userMsg.(parts := parts);
    }
  }

  lemma {:induction false} ImagePartsAppend(media: seq<string>, m: string)
    ensures ImageParts(media + [m]) ==
      ImageParts(media) + (if HasPrefix(m, "data:image/") then [ImagePart(ImageURL(m, "auto"))] else [])
  {
    if media == [] {
      assert media + [m] == [m];
    } else {
      assert (media + [m])[0] == media[0];
      assert (media + [m])[1..] == media[1..] + [m];
      ImagePartsAppend(media[1..], m);
    }
  }

  /** The prompt always opens with the identity block. */
  lemma {:induction false} PromptStartsWithIdentity(identity: string, bootstrap: string, env: Env)
    ensures HasPrefix(Join(PromptSections(identity, bootstrap, env), PromptSeparator), identity)
  {
    var parts := PromptSections(identity, bootstrap, env);
    if |parts| > 1 {
      assert Join(parts, PromptSeparator) == identity + PromptSeparator + Join(parts[1..], PromptSeparator);
    }
  }

  /** With no bootstrap, skills or memory text, the prompt is the identity block alone. */
  lemma PromptIdentityOnly(identity: string, env: Env)
    requires env.skillsSummary == "" && env.memoryContext == ""
    ensures Join(PromptSections(identity, "", env), PromptSeparator) == identity
  {
  }

  lemma {:induction false} JoinLast(parts: seq<string>, sep: string)
    requires |parts| >= 2
    ensures Join(parts, sep) == Join(parts[..|parts| - 1], sep) + sep + parts[|parts| - 1]
    decreases |parts|
  {
    if |parts| > 2 {
      JoinLast(parts[1..], sep);
      assert parts[1..][..|parts| - 2] == parts[1..|parts| - 1];
      assert parts[..|parts| - 1][1..] == parts[1..|parts| - 1];
    }
  }

  /** When there is memory text, the prompt ends with the memory section. */
  lemma PromptEndsWithMemory(identity: string, bootstrap: string, env: Env)
    requires env.memoryContext != ""
    ensures HasSuffix(Join(PromptSections(identity, bootstrap, env), PromptSeparator),
                      PromptSeparator + MemoryBlock(env.memoryContext))
  {
    var parts := PromptSections(identity, bootstrap, env);
    JoinLast(parts, PromptSeparator);
  }
}
