/** The text side of the Telegram channel (pkg/channels/telegram.go): chunking
    of long replies, HTML escaping, the code-extraction skeleton of the
    Markdown-to-HTML conversion, and the small classifiers used on send and
    receive. Strings are ASCII, so Go's byte lengths are sequence lengths. */
module TelegramText {
  import opened Common

  // =====================================================================
  // splitMessage

  /** Where one chunk ends: the last blank line of the first `maxLen`
      characters when it lies in their second half, else the last line break
      when it lies past the first quarter, else exactly `maxLen`. */
  function SplitPoint(text: string, maxLen: int): (at: nat)
    requires 1 <= maxLen < |text|
    ensures at <= maxLen
    ensures at < maxLen ==> maxLen / 4 <= at && text[at] == '\n'
    ensures at == 0 ==> text[0] == '\n'
    ensures LastIndex(text[..maxLen], "\n\n") >= maxLen / 2 ==> at == LastIndex(text[..maxLen], "\n\n")
  {
    var chunk := text[..maxLen];
    var para := LastIndex(chunk, "\n\n");
    if para >= maxLen / 2 then
      BreakAt(text, maxLen, "\n\n", para);
      para
    else
      var line := LastIndex(chunk, "\n");
      if line < maxLen / 4 then maxLen
      else
        BreakAt(text, maxLen, "\n", line);
        line
  }

  /** An occurrence of a line break pattern inside the window starts with a line break. */
  lemma BreakAt(text: string, maxLen: int, pat: string, i: int)
    requires 0 <= maxLen <= |text| && pat != [] && pat[0] == '\n'
    requires OccursAt(text[..maxLen], pat, i)
    ensures 0 <= i < maxLen && text[i] == '\n'
  {
    assert text[..maxLen][i..i + |pat|][0] == pat[0];
  }

  /** The chunks of the splitting loop for the remaining `text`. */
  function SplitChunks(text: string, maxLen: int): seq<string>
    requires maxLen >= 1
    decreases |text|
  {
    if |text| == 0 then []
    else if |text| <= maxLen then [text]
    else
      var at := SplitPoint(text, maxLen);
      var rest := TrimSpace(text[at..]);
      assert |rest| < |text| by {
        if at == 0 { TrimSpaceShrinks(text); }
      }
      [TrimSpace(text[..at])] + SplitChunks(rest, maxLen)
  }

  /** `splitMessage`: a text that fits is returned as the only chunk. */
  function MessageChunks(text: string, maxLen: int): seq<string>
    requires |text| <= maxLen || maxLen >= 1
  {
    if |text| <= maxLen then [text] else SplitChunks(text, maxLen)
  }

  /** `splitMessage`, as the loop that reassigns the remaining text. */
  method SplitMessage(text: string, maxLen: int) returns (chunks: seq<string>)
    requires |text| <= maxLen || maxLen >= 1
    ensures chunks == MessageChunks(text, maxLen)
  {
    if |text| <= maxLen {
      FitsWhole(text, maxLen);
      return [text];
    }
    chunks := [];
    var rest := text;
    EmptyPrefix(SplitChunks(text, maxLen));
    while |rest| > 0
      invariant chunks + SplitChunks(rest, maxLen) == SplitChunks(text, maxLen)
      decreases |rest|
    {
      if |rest| <= maxLen {
        SplitLast(rest, maxLen);
        chunks := chunks + [rest];
        break;
      }
      var splitAt := FindSplit(rest, maxLen);
      var next := TrimSpace(rest[splitAt..]);
      var head := TrimSpace(rest[..splitAt]);
      SplitStep(rest, maxLen);
      EmitChunk(chunks, SplitChunks(rest, maxLen), head, SplitChunks(next, maxLen), SplitChunks(text, maxLen));
      chunks := chunks + [head];
      rest := next;
    }
  }

  lemma FitsWhole(text: string, maxLen: int)
    requires |text| <= maxLen
    ensures MessageChunks(text, maxLen) == [text]
  {
  }

  lemma EmptyPrefix<T>(s: seq<T>)
    ensures [] + s == s
  {
  }

  /** Moving the next chunk from the pending part to the emitted part. */
  lemma EmitChunk(chunks: seq<string>, pending: seq<string>, head: string, tail: seq<string>, total: seq<string>)
    requires chunks + pending == total && pending == [head] + tail
    ensures (chunks + [head]) + tail == total
  {
    AppendAssoc(chunks, [head], tail);
  }

  lemma SplitLast(text: string, maxLen: int)
    requires 1 <= maxLen && 0 < |text| <= maxLen
    ensures SplitChunks(text, maxLen) == [text]
  {
  }

  lemma SplitStep(text: string, maxLen: int)
    requires 1 <= maxLen < |text|
    ensures |TrimSpace(text[SplitPoint(text, maxLen)..])| < |text|
    ensures SplitChunks(text, maxLen) ==
      [TrimSpace(text[..SplitPoint(text, maxLen)])] + SplitChunks(TrimSpace(text[SplitPoint(text, maxLen)..]), maxLen)
  {
    if SplitPoint(text, maxLen) == 0 { TrimSpaceShrinks(text); }
  }

  /** The split-point computation of one loop iteration. */
  method FindSplit(rest: string, maxLen: int) returns (splitAt: int)
    requires 1 <= maxLen < |rest|
    ensures splitAt == SplitPoint(rest, maxLen)
  {
    var chunk := rest[..maxLen];
    splitAt := LastIndex(chunk, "\n\n");
    if splitAt < maxLen / 2 {
      splitAt := LastIndex(chunk, "\n");
    }
    if splitAt < maxLen / 4 {
      splitAt := maxLen;
    }
  }

  /** Every chunk fits the limit. */
  lemma {:induction false} SplitChunksFit(text: string, maxLen: int)
    requires maxLen >= 1
    ensures forall k :: 0 <= k < |SplitChunks(text, maxLen)| ==> |SplitChunks(text, maxLen)[k]| <= maxLen
    decreases |text|
  {
    if |text| > maxLen {
      var at := SplitPoint(text, maxLen);
      var rest := TrimSpace(text[at..]);
      if at == 0 { TrimSpaceShrinks(text); }
      SplitChunksFit(rest, maxLen);
      var chunks := SplitChunks(text, maxLen);
      assert chunks == [TrimSpace(text[..at])] + SplitChunks(rest, maxLen);
      forall k | 0 <= k < |chunks| ensures |chunks[k]| <= maxLen {
        if k > 0 { assert chunks[k] == SplitChunks(rest, maxLen)[k - 1]; }
      }
    }
  }

  lemma SplitFits(text: string, maxLen: int)
    requires maxLen >= 1
    ensures forall k :: 0 <= k < |MessageChunks(text, maxLen)| ==> |MessageChunks(text, maxLen)[k]| <= maxLen
  {
    SplitChunksFit(text, maxLen);
  }

  /** Splitting only drops whitespace at chunk boundaries: the chunks, glued
      back together, carry the same non-space characters as the text. */
  lemma {:induction false} SplitChunksKeepText(text: string, maxLen: int)
    requires maxLen >= 1
    ensures NonSpace(Concat(SplitChunks(text, maxLen))) == NonSpace(text)
    decreases |text|
  {
    if |text| > maxLen {
      var at := SplitPoint(text, maxLen);
      var rest := TrimSpace(text[at..]);
      SplitStep(text, maxLen);
      SplitChunksKeepText(rest, maxLen);
      TrimSpaceKeepsNonSpace(text[..at]);
      TrimSpaceKeepsNonSpace(text[at..]);
      GlueKeepsText(text, at, TrimSpace(text[..at]), rest, SplitChunks(rest, maxLen));
    } else if |text| > 0 {
      SplitLast(text, maxLen);
      ConcatSingle(text);
    }
  }

  /** One chunk glued in front of the chunks of the trimmed remainder. */
  lemma GlueKeepsText(text: string, at: int, head: string, rest: string, tail: seq<string>)
    requires 0 <= at <= |text|
    requires NonSpace(head) == NonSpace(text[..at]) && NonSpace(rest) == NonSpace(text[at..])
    requires NonSpace(Concat(tail)) == NonSpace(rest)
    ensures NonSpace(Concat([head] + tail)) == NonSpace(text)
  {
    assert ([head] + tail)[0] == head && ([head] + tail)[1..] == tail;
    NonSpaceAppend(head, Concat(tail));
    NonSpaceAppend(text[..at], text[at..]);
    assert text == text[..at] + text[at..];
  }

  lemma SplitKeepsText(text: string, maxLen: int)
    requires maxLen >= 1
    ensures NonSpace(Concat(MessageChunks(text, maxLen))) == NonSpace(text)
  {
    if |text| <= maxLen {
      ConcatSingle(text);
    } else {
      SplitChunksKeepText(text, maxLen);
    }
  }

  /** A long text without line breaks is cut at exactly `maxLen`. */
  lemma SplitHardCut(text: string, maxLen: int)
    requires 1 <= maxLen < |text|
    requires forall i :: 0 <= i < maxLen ==> text[i] != '\n'
    ensures SplitPoint(text, maxLen) == maxLen
  {
  }

  // =====================================================================
  // escapeHTML

  /** `escapeHTML`: `&` first, then `<`, then `>`. */
  function EscapeHTML(text: string): string {
    ReplaceAll(ReplaceAll(ReplaceAll(text, "&", "&amp;"), "<", "&lt;"), ">", "&gt;")
  }

  /** The successive forms a character takes through the three escaping
      passes and back through the three unescaping passes. */
  datatype Stage = Raw | AmpDone | LtDone | Escaped | LtUndone | GtUndone

  function Render(st: Stage, c: char): string {
    match st
    case Raw => [c]
    case AmpDone => if c == '&' then "&amp;" else [c]
    case LtDone => if c == '&' then "&amp;" else if c == '<' then "&lt;" else [c]
    case Escaped => if c == '&' then "&amp;" else if c == '<' then "&lt;" else if c == '>' then "&gt;" else [c]
    case LtUndone => if c == '&' then "&amp;" else if c == '>' then "&gt;" else [c]
    case GtUndone => if c == '&' then "&amp;" else [c]
  }

  /** The text with each character rendered for the given stage. */
  function RenderAll(st: Stage, s: string): string {
    if s == [] then [] else Render(st, s[0]) + RenderAll(st, s[1..])
  }

  lemma {:induction false} RenderRaw(s: string)
    ensures RenderAll(Raw, s) == s
  {
    if s != [] {
      RenderRaw(s[1..]);
      assert s == [s[0]] + s[1..];
    }
  }

  /** One single-character pass: every rendering either is the character
      being replaced, or does not contain it. */
  lemma {:induction false} CharPass(st: Stage, st': Stage, c: char, rep: string, s: string)
    requires Render(st, c) == [c] && Render(st', c) == rep
    requires forall x :: x != c ==> c !in Render(st, x) && Render(st', x) == Render(st, x)
    ensures ReplaceAll(RenderAll(st, s), [c], rep) == RenderAll(st', s)
  {
    if s != [] {
      CharPass(st, st', c, rep, s[1..]);
      var rest := RenderAll(st, s[1..]);
      if s[0] == c {
        ReplaceAllMatch([c], rest, rep);
      } else {
        ReplaceAllSkip(Render(st, s[0]), rest, [c], rep);
      }
    }
  }

  /** One entity pass: every rendering that contains `&` starts with it,
      has no other, and is either the entity being replaced or differs
      from it in its second character. */
  lemma {:induction false} EntityPass(st: Stage, st': Stage, pat: string, rep: string, s: string)
    requires |pat| >= 2 && pat[0] == '&'
    requires forall x :: '&' !in Render(st, x) ==> Render(st', x) == Render(st, x)
    requires forall x :: '&' in Render(st, x) ==>
      var t := Render(st, x);
      |t| >= 2 && t[0] == '&' && '&' !in t[1..]
      && (if t == pat then Render(st', x) == rep else t[1] != pat[1] && Render(st', x) == t)
    ensures ReplaceAll(RenderAll(st, s), pat, rep) == RenderAll(st', s)
  {
    if s != [] {
      EntityPass(st, st', pat, rep, s[1..]);
      var t := Render(st, s[0]);
      var rest := RenderAll(st, s[1..]);
      if '&' !in t {
        ReplaceAllSkip(t, rest, pat, rep);
      } else if t == pat {
        ReplaceAllMatch(pat, rest, rep);
      } else {
        EntityMiss(t, rest, pat, rep);
      }
    }
  }

  /** The scan passes over an entity that differs from the pattern in its
      second character. */
  lemma EntityMiss(t: string, rest: string, pat: string, rep: string)
    requires |pat| >= 2 && pat[0] == '&'
    requires |t| >= 2 && t[0] == '&' && '&' !in t[1..] && t[1] != pat[1]
    ensures ReplaceAll(t + rest, pat, rep) == t + ReplaceAll(rest, pat, rep)
  {
    var whole := t + rest;
    assert whole[1] == t[1];
    assert !HasPrefix(whole, pat) by {
      if |pat| <= |whole| { assert whole[..|pat|][1] != pat[1]; }
    }
    ReplaceAllMiss(whole, pat, rep);
    assert whole[1..] == t[1..] + rest;
    ReplaceAllSkip(t[1..], rest, pat, rep);
    assert [t[0]] + t[1..] == t;
  }

  /** `escapeHTML` replaces each `&`, `<` and `>` by its entity and keeps
      every other character. */
  lemma EscapeIsPerCharacter(s: string)
    ensures EscapeHTML(s) == RenderAll(Escaped, s)
  {
    RenderRaw(s);
    AmpPass(s);
    LtPass(s);
    GtPass(s);
  }

  lemma AmpPass(s: string)
    ensures ReplaceAll(RenderAll(Raw, s), "&", "&amp;") == RenderAll(AmpDone, s)
  {
    CharPass(Raw, AmpDone, '&', "&amp;", s);
  }

  lemma LtPass(s: string)
    ensures ReplaceAll(RenderAll(AmpDone, s), "<", "&lt;") == RenderAll(LtDone, s)
  {
    CharPass(AmpDone, LtDone, '<', "&lt;", s);
  }

  lemma GtPass(s: string)
    ensures ReplaceAll(RenderAll(LtDone, s), ">", "&gt;") == RenderAll(Escaped, s)
  {
    CharPass(LtDone, Escaped, '>', "&gt;", s);
  }

  /** Escaped text contains no angle brackets. */
  lemma {:induction false} EscapedHasNoBrackets(s: string)
    ensures '<' !in EscapeHTML(s) && '>' !in EscapeHTML(s)
  {
    EscapeIsPerCharacter(s);
    NoBracketsRendered(s);
  }

  lemma {:induction false} NoBracketsRendered(s: string)
    ensures '<' !in RenderAll(Escaped, s) && '>' !in RenderAll(Escaped, s)
  {
    if s != [] { NoBracketsRendered(s[1..]); }
  }

  /** The HTML unescaping of the three entities, in the order `&lt;`,
      `&gt;`, `&amp;`. */
  function UnescapeHTML(text: string): string {
    ReplaceAll(ReplaceAll(ReplaceAll(text, "&lt;", "<"), "&gt;", ">"), "&amp;", "&")
  }

  /** Because `&` is escaped first, unescaping gives back the original text. */
  lemma EscapeRoundTrip(s: string)
    ensures UnescapeHTML(EscapeHTML(s)) == s
  {
    EscapeIsPerCharacter(s);
    LtUndo(s);
    GtUndo(s);
    AmpUndo(s);
    RenderRaw(s);
  }

  lemma LtUndo(s: string)
    ensures ReplaceAll(RenderAll(Escaped, s), "&lt;", "<") == RenderAll(LtUndone, s)
  {
    EntityPass(Escaped, LtUndone, "&lt;", "<", s);
  }

  lemma GtUndo(s: string)
    ensures ReplaceAll(RenderAll(LtUndone, s), "&gt;", ">") == RenderAll(GtUndone, s)
  {
    EntityPass(LtUndone, GtUndone, "&gt;", ">", s);
  }

  lemma AmpUndo(s: string)
    ensures ReplaceAll(RenderAll(GtUndone, s), "&amp;", "&") == RenderAll(Raw, s)
  {
    EntityPass(GtUndone, Raw, "&amp;", "&", s);
  }

  // =====================================================================
  // Code extraction (the two code regexes of markdownToTelegramHTML)

  /** RE2's `\w`. */
  predicate IsWordChar(c: char) {
    'a' <= c <= 'z' || 'A' <= c <= 'Z' || '0' <= c <= '9' || c == '_'
  }

  /** The end of the run of word characters that starts at `k`. */
  function WordEnd(s: string, k: nat): (r: nat)
    requires k <= |s|
    ensures k <= r <= |s|
    ensures forall i :: k <= i < r ==> IsWordChar(s[i])
    ensures r == |s| || !IsWordChar(s[r])
    decreases |s| - k
  {
    if k == |s| || !IsWordChar(s[k]) then k else WordEnd(s, k + 1)
  }

  /** The first occurrence of `sub` at or after `k`. */
  function FindFrom(s: string, sub: string, k: nat): (r: Option<nat>)
    ensures r.Some? ==> k <= r.value && OccursAt(s, sub, r.value)
    ensures forall i :: k <= i && (r.None? || i < r.value) ==> !OccursAt(s, sub, i)
    decreases |s| - k
  {
    if k + |sub| > |s| then None
    else if s[k..k + |sub|] == sub then Some(k)
    else FindFrom(s, sub, k + 1)
  }

  const Fence: string := "```"

  /** One regex match: where it starts and ends, and its captured code. */
  datatype Match = Match(start: nat, end: nat, code: string)

  /** The two code patterns: fenced blocks ```` ```[\w]*\n?([\s\S]*?)``` ````
      and inline spans `` `([^`]+)` ``. */
  datatype Kind = CodeBlock | InlineCode

  /** The code-block match starting at `i`, if any. The greedy language tag
      and optional newline are taken first; the lazy body ends at the first
      fence after them. No other choice of the tag or the newline can match
      when this one does not, because neither contains a backtick. */
  function BlockAt(s: string, i: nat): (r: Option<Match>)
    ensures r.Some? ==> var m := r.value;
      m.start == i && OccursAt(s, Fence, i)
      && i + 6 <= m.end <= |s| && OccursAt(s, Fence, m.end - 3)
      && i + 3 + |m.code| <= m.end - 3
      && m.code == s[m.end - 3 - |m.code|..m.end - 3]
      && (forall p :: m.end - 3 - |m.code| <= p < m.end - 3 ==> !OccursAt(s, Fence, p))
    ensures r.None? && OccursAt(s, Fence, i) ==> forall p :: i + 3 <= p ==> !OccursAt(s, Fence, p)
  {
    if !OccursAt(s, Fence, i) then None
    else
      var w := WordEnd(s, i + 3);
      var body := if w < |s| && s[w] == '\n' then w + 1 else w;
      match FindFrom(s, Fence, body)
      case None =>
        assert forall p :: i + 3 <= p < body ==> s[p] != '`';
        FenceStartsWithTick(s);
        None
      case Some(c) => Some(Match(i, c + 3, s[body..c]))
  }

  lemma FenceStartsWithTick(s: string)
    ensures forall p :: OccursAt(s, Fence, p) ==> s[p] == '`'
  {
    forall p | OccursAt(s, Fence, p) ensures s[p] == '`' {
      assert s[p..p + 3][0] == s[p];
    }
  }

  /** The inline-code match starting at `i`, if any: a backtick, at least one
      other character, and the next backtick. */
  function InlineAt(s: string, i: nat): (r: Option<Match>)
    ensures r.Some? ==> var m := r.value;
      m.start == i && i + 2 < m.end <= |s|
      && s[i] == '`' && s[m.end - 1] == '`' && m.code == s[i + 1..m.end - 1]
      && '`' !in m.code
    ensures r.None? ==> !(i < |s| && s[i] == '`' && exists j :: i + 1 < j < |s| && s[j] == '`' && '`' !in s[i + 1..j])
  {
    if i < |s| && s[i] == '`' then
      var j := i + 1 + IndexOfChar(s[i + 1..], '`');
      if i + 1 < j < |s| then
        assert s[i + 1..j] == s[i + 1..][..j - i - 1];
        Some(Match(i, j + 1, s[i + 1..j]))
      else
        assert forall j' :: i + 1 < j' < |s| && s[j'] == '`' ==> '`' in s[i + 1..j'] by {
          forall j' | i + 1 < j' < |s| && s[j'] == '`' ensures '`' in s[i + 1..j'] {
            assert s[i + 1] == s[i + 1..][0] == '`';
            assert s[i + 1..j'][0] == '`';
          }
        }
        None
    else None
  }

  function MatchAt(kind: Kind, s: string, i: nat): (r: Option<Match>)
    ensures r.Some? ==> r.value.start == i && i < r.value.end <= |s|
  {
    match kind
    case CodeBlock => BlockAt(s, i)
    case InlineCode => InlineAt(s, i)
  }

  /** The leftmost match starting at or after `k`. */
  function NextMatch(kind: Kind, s: string, k: nat): (r: Option<Match>)
    requires k <= |s|
    ensures r.Some? ==> k <= r.value.start && MatchAt(kind, s, r.value.start) == r
    ensures r.Some? ==> r.value.start < r.value.end <= |s|
    ensures forall i :: k <= i <= |s| && (r.None? || i < r.value.start) ==> MatchAt(kind, s, i).None?
    decreases |s| - k
  {
    if k == |s| then
      (if MatchAt(kind, s, k).Some? then MatchAt(kind, s, k) else None)
    else if MatchAt(kind, s, k).Some? then MatchAt(kind, s, k)
    else NextMatch(kind, s, k + 1)
  }

  /** `FindAllStringSubmatch`: the successive non-overlapping leftmost matches. */
  function FindAll(kind: Kind, s: string, k: nat): (r: seq<Match>)
    requires k <= |s|
    ensures forall i :: 0 <= i < |r| ==> k <= r[i].start < r[i].end <= |s|
    decreases |s| - k
  {
    match NextMatch(kind, s, k)
    case None => []
    case Some(m) => [m] + FindAll(kind, s, m.end)
  }

  /** The captured codes of all matches, in match order. */
  function Codes(ms: seq<Match>): (r: seq<string>)
    ensures |r| == |ms|
    ensures forall i :: 0 <= i < |ms| ==> r[i] == ms[i].code
  {
    if ms == [] then [] else [ms[0].code] + Codes(ms[1..])
  }

  function Tag(kind: Kind): string {
    match kind
    case CodeBlock => "CB"
    case InlineCode => "IC"
  }

  /** The placeholder for the `n`-th match of a kind: NUL, tag, number, NUL. */
  function Placeholder(kind: Kind, n: nat): (r: string)
    ensures |r| == 4 + |NatToString(n)| && r[0] == '\0' && r[|r| - 1] == '\0'
    ensures r[1..3] == Tag(kind) && r[3..|r| - 1] == NatToString(n)
  {
    "\0" + Tag(kind) + NatToString(n) + "\0"
  }

  /** `ReplaceAllStringFunc` with the counting closure: each match, in
      order, becomes the next numbered placeholder. */
  function ReplaceMatches(kind: Kind, s: string, k: nat, n: nat): string
    requires k <= |s|
    decreases |s| - k
  {
    match NextMatch(kind, s, k)
    case None => s[k..]
    case Some(m) => s[k..m.start] + Placeholder(kind, n) + ReplaceMatches(kind, s, m.end, n + 1)
  }

  /** The result of one extraction: the text with placeholders and the codes. */
  datatype Extraction = Extraction(text: string, codes: seq<string>)

  /** `extractCodeBlocks` / `extractInlineCodes`. */
  function Extract(kind: Kind, s: string): Extraction {
    Extraction(ReplaceMatches(kind, s, 0, 0), Codes(FindAll(kind, s, 0)))
  }

  /** The text between consecutive matches (one more piece than matches). */
  function Gaps(kind: Kind, s: string, k: nat): (r: seq<string>)
    requires k <= |s|
    ensures |r| == |FindAll(kind, s, k)| + 1
    decreases |s| - k
  {
    match NextMatch(kind, s, k)
    case None => [s[k..]]
    case Some(m) => [s[k..m.start]] + Gaps(kind, s, m.end)
  }

  /** The matched text of each match. */
  function Wholes(s: string, ms: seq<Match>): (r: seq<string>)
    requires forall i :: 0 <= i < |ms| ==> ms[i].start <= ms[i].end <= |s|
    ensures |r| == |ms|
  {
    if ms == [] then [] else [s[ms[0].start..ms[0].end]] + Wholes(s, ms[1..])
  }

  /** Consecutive numbered placeholders starting at `n`. */
  function Placeholders(kind: Kind, n: nat, count: nat): (r: seq<string>)
    ensures |r| == count
    ensures forall i :: 0 <= i < count ==> r[i] == Placeholder(kind, n + i)
    decreases count
  {
    if count == 0 then [] else [Placeholder(kind, n)] + Placeholders(kind, n + 1, count - 1)
  }

  /** Gaps and holes interleaved: gap, hole, gap, ..., gap. */
  function Weave(gaps: seq<string>, holes: seq<string>): string
    requires |gaps| == |holes| + 1
    decreases |holes|
  {
    if holes == [] then gaps[0] else gaps[0] + holes[0] + Weave(gaps[1..], holes[1..])
  }

  /** The original text is the gaps woven with the matched texts. */
  lemma {:induction false} TextLayout(kind: Kind, s: string, k: nat)
    requires k <= |s|
    ensures s[k..] == Weave(Gaps(kind, s, k), Wholes(s, FindAll(kind, s, k)))
    decreases |s| - k
  {
    var r := NextMatch(kind, s, k);
    if r.Some? {
      var m := r.value;
      TextLayout(kind, s, m.end);
      var ms := FindAll(kind, s, k);
      assert ms == [m] + FindAll(kind, s, m.end);
      assert ms[1..] == FindAll(kind, s, m.end);
      WeaveStep(s, k, m.start, m.end, Gaps(kind, s, k), Wholes(s, ms), Gaps(kind, s, m.end), Wholes(s, ms[1..]));
    } else {
      assert FindAll(kind, s, k) == [] && Gaps(kind, s, k) == [s[k..]];
    }
  }

  /** A gap and a match in front of a woven remainder. */
  lemma WeaveStep(s: string, k: nat, start: nat, end: nat, gaps: seq<string>, wholes: seq<string>,
                  restGaps: seq<string>, restWholes: seq<string>)
    requires k <= start <= end <= |s|
    requires |restGaps| == |restWholes| + 1
    requires gaps == [s[k..start]] + restGaps && wholes == [s[start..end]] + restWholes
    requires s[end..] == Weave(restGaps, restWholes)
    ensures |gaps| == |wholes| + 1
    ensures s[k..] == Weave(gaps, wholes)
  {
    assert gaps[1..] == restGaps && wholes[1..] == restWholes;
    assert s[start..] == s[start..end] + s[end..];
    assert s[k..] == s[k..start] + s[start..];
  }

  /** The extracted text is the same gaps woven with placeholders numbered
      from `n` in match order, so the i-th placeholder stands exactly where
      the i-th match was. */
  lemma {:induction false} ExtractedLayout(kind: Kind, s: string, k: nat, n: nat)
    requires k <= |s|
    ensures ReplaceMatches(kind, s, k, n) == Weave(Gaps(kind, s, k), Placeholders(kind, n, |FindAll(kind, s, k)|))
    decreases |s| - k
  {
    var r := NextMatch(kind, s, k);
    if r.Some? {
      var m := r.value;
      ExtractedLayout(kind, s, m.end, n + 1);
      var ms := FindAll(kind, s, k);
      var gaps := Gaps(kind, s, k);
      assert ms == [m] + FindAll(kind, s, m.end);
      assert gaps == [s[k..m.start]] + Gaps(kind, s, m.end);
      assert gaps[1..] == Gaps(kind, s, m.end);
      var holes := Placeholders(kind, n, |ms|);
      assert holes[0] == Placeholder(kind, n);
      assert holes[1..] == Placeholders(kind, n + 1, |ms| - 1);
    }
  }

  /** The scan misses nothing: wherever the pattern matches, a found match
      covers that position. */
  lemma {:induction false} ScanCoversMatches(kind: Kind, s: string, k: nat, i: nat)
    requires k <= i <= |s| && MatchAt(kind, s, i).Some?
    ensures Covered(FindAll(kind, s, k), i)
    decreases |s| - k
  {
    var m := NextMatch(kind, s, k).value;
    var ms := FindAll(kind, s, k);
    assert ms == [m] + FindAll(kind, s, m.end);
    if i >= m.end {
      ScanCoversMatches(kind, s, m.end, i);
      CoveredLater(m, FindAll(kind, s, m.end), i);
    } else {
      assert ms[0].start <= i < ms[0].end;
    }
  }

  /** Some match of the list spans position `i`. */
  predicate Covered(ms: seq<Match>, i: int) {
    exists j :: 0 <= j < |ms| && ms[j].start <= i < ms[j].end
  }

  lemma CoveredLater(m: Match, rest: seq<Match>, i: int)
    requires Covered(rest, i)
    ensures Covered([m] + rest, i)
  {
    var j :| 0 <= j < |rest| && rest[j].start <= i < rest[j].end;
    assert ([m] + rest)[j + 1] == rest[j];
  }

  // =====================================================================
  // markdownToTelegramHTML

  /** The regex rewrites of the conversion, each abstracted as a function on
      text, applied in the order of the source: heading and blockquote
      before escaping, link, bold, underscore bold, italic, strike-through
      and list items after it. */
  datatype Rewrites = Rewrites(
    heading: string -> string,
    blockquote: string -> string,
    link: string -> string,
    bold: string -> string,
    underBold: string -> string,
    italic: string -> string,
    strike: string -> string,
    listItem: string -> string)

  /** The formatted text between extraction and code reinsertion. */
  function Format(rw: Rewrites, text: string): string {
    var escaped := EscapeHTML(rw.blockquote(rw.heading(text)));
    rw.listItem(rw.strike(rw.italic(rw.underBold(rw.bold(rw.link(escaped))))))
  }

  /** The HTML that stands in for the code of a match. */
  function CodeHTML(kind: Kind, code: string): string {
    match kind
    case CodeBlock => "<pre><code>" + EscapeHTML(code) + "</code></pre>"
    case InlineCode => "<code>" + EscapeHTML(code) + "</code>"
  }

  /** Replacing placeholders `i`, `i+1`, ... one after the other, each with
      `strings.ReplaceAll` over the whole text. */
  function Reinsert(text: string, kind: Kind, codes: seq<string>, i: nat): string
    requires i <= |codes|
    decreases |codes| - i
  {
    if i == |codes| then text
    else Reinsert(ReplaceAll(text, Placeholder(kind, i), CodeHTML(kind, codes[i])), kind, codes, i + 1)
  }

  /** `markdownToTelegramHTML`. */
  function ToHTML(rw: Rewrites, text: string): string {
    if text == "" then ""
    else
      var blocks := Extract(CodeBlock, text);
      var inlines := Extract(InlineCode, blocks.text);
      var formatted := Format(rw, inlines.text);
      Reinsert(Reinsert(formatted, InlineCode, inlines.codes, 0), CodeBlock, blocks.codes, 0)
  }

  /** `markdownToTelegramHTML`, with its two reinsertion loops. */
  method MarkdownToTelegramHTML(rw: Rewrites, text: string) returns (html: string)
    ensures html == ToHTML(rw, text)
    ensures text == "" ==> html == ""
  {
    if text == "" {
      return "";
    }
    var blocks := Extract(CodeBlock, text);
    var inlines := Extract(InlineCode, blocks.text);
    html := Format(rw, inlines.text);
    var i := 0;
    while i < |inlines.codes|
      invariant 0 <= i <= |inlines.codes|
      invariant Reinsert(html, InlineCode, inlines.codes, i) == Reinsert(Format(rw, inlines.text), InlineCode, inlines.codes, 0)
    {
      html := ReplaceAll(html, Placeholder(InlineCode, i), CodeHTML(InlineCode, inlines.codes[i]));
      i := i + 1;
    }
    var j := 0;
    while j < |blocks.codes|
      invariant 0 <= j <= |blocks.codes|
      invariant Reinsert(html, CodeBlock, blocks.codes, j) == ToHTML(rw, text)
    {
      html := ReplaceAll(html, Placeholder(CodeBlock, j), CodeHTML(CodeBlock, blocks.codes[j]));
      j := j + 1;
    }
  }

  // ---------------------------------------------------------------------
  // Placeholder collision and a single-pass reinsertion

  /** The first of placeholders `i`, ..., `n - 1` that starts the text. */
  function FirstPlaceholder(t: string, kind: Kind, i: nat, n: nat): (r: Option<nat>)
    ensures r.Some? ==> i <= r.value < n && HasPrefix(t, Placeholder(kind, r.value))
    ensures r.None? ==> forall j :: i <= j < n ==> !HasPrefix(t, Placeholder(kind, j))
    decreases n - i
  {
    if i >= n then None
    else if HasPrefix(t, Placeholder(kind, i)) then Some(i)
    else FirstPlaceholder(t, kind, i + 1, n)
  }

  /** Reinsertion in one left-to-right pass, as `strings.NewReplacer` with
      all placeholder pairs of a kind would do it: a placeholder found at the
      scan position is replaced by its HTML, which is never scanned again; a
      NUL-delimited token that is not one (a placeholder of the other kind)
      is copied whole; anything else is copied one character at a time. */
  function Expand(t: string, kind: Kind, htmls: seq<string>): string
    decreases |t|
  {
    if t == [] then []
    else match FirstPlaceholder(t, kind, 0, |htmls|)
      case Some(i) => htmls[i] + Expand(t[|Placeholder(kind, i)|..], kind, htmls)
      case None =>
        var w := TokenLength(t);
        t[..w] + Expand(t[w..], kind, htmls)
  }

  /** The length of the token at the start of `t`: from a NUL up to and
      including the next NUL, otherwise one character. */
  function TokenLength(t: string): (w: nat)
    requires t != []
    ensures 1 <= w <= |t|
    ensures t[0] != '\0' ==> w == 1
  {
    var close := 1 + IndexOfChar(t[1..], '\0');
    if t[0] == '\0' && close < |t| then close + 1 else 1
  }

  /** Text without NUL is copied unchanged. */
  lemma {:induction false} ExpandSkip(u: string, rest: string, kind: Kind, htmls: seq<string>)
    requires '\0' !in u
    ensures Expand(u + rest, kind, htmls) == u + Expand(rest, kind, htmls)
  {
    if u == [] {
      assert u + rest == rest;
    } else {
      assert u == [u[0]] + u[1..];
      AppendAssoc([u[0]], u[1..], rest);
      ExpandChar(u[0], u[1..] + rest, kind, htmls);
      ExpandSkip(u[1..], rest, kind, htmls);
      AppendAssoc([u[0]], u[1..], Expand(rest, kind, htmls));
    }
  }

  /** A character other than NUL is copied. */
  lemma ExpandChar(c: char, rest: string, kind: Kind, htmls: seq<string>)
    requires c != '\0'
    ensures Expand([c] + rest, kind, htmls) == [c] + Expand(rest, kind, htmls)
  {
    var t := [c] + rest;
    assert t[0] == c;
    assert FirstPlaceholder(t, kind, 0, |htmls|).None?;
    assert t[..1] == [c] && t[1..] == rest;
  }

  /** The end of the run of decimal digits that starts at `k`. */
  function DigitEnd(t: string, k: nat): (r: nat)
    requires k <= |t|
    ensures k <= r <= |t|
    ensures forall i :: k <= i < r ==> IsDigit(t[i])
    ensures r == |t| || !IsDigit(t[r])
    decreases |t| - k
  {
    if k == |t| || !IsDigit(t[k]) then k else DigitEnd(t, k + 1)
  }

  /** The number of a placeholder is the whole digit run after its tag. */
  lemma PlaceholderDigits(kind: Kind, i: nat, rest: string)
    ensures DigitEnd(Placeholder(kind, i) + rest, 3) == 3 + |NatToString(i)|
  {
    var p := Placeholder(kind, i);
    var t := p + rest;
    var d := NatToString(i);
    assert t[3 + |d|] == p[|p| - 1] == '\0';
    forall x | 3 <= x < 3 + |d| ensures IsDigit(t[x]) {
      assert t[x] == p[x] == p[3..|p| - 1][x - 3] == d[x - 3];
    }
  }

  /** A text that starts with one placeholder starts with no other. */
  lemma PlaceholderUnique(kind: Kind, i: nat, j: nat, rest: string)
    requires HasPrefix(Placeholder(kind, i) + rest, Placeholder(kind, j))
    ensures i == j
  {
    var t := Placeholder(kind, i) + rest;
    var pj := Placeholder(kind, j);
    var di, dj := NatToString(i), NatToString(j);
    assert t == pj + t[|pj|..];
    PlaceholderDigits(kind, i, rest);
    PlaceholderDigits(kind, j, t[|pj|..]);
    assert |di| == |dj|;
    assert t[3..3 + |di|] == Placeholder(kind, i)[3..3 + |di|] == di;
    assert t[3..3 + |dj|] == pj[3..3 + |dj|] == dj;
    NatToStringInjective(i, j);
  }

  /** A placeholder whose number has HTML is replaced by that HTML. */
  lemma ExpandPlaceholder(kind: Kind, m: nat, rest: string, htmls: seq<string>)
    requires m < |htmls|
    ensures Expand(Placeholder(kind, m) + rest, kind, htmls) == htmls[m] + Expand(rest, kind, htmls)
  {
    var p := Placeholder(kind, m);
    var t := p + rest;
    assert t[..|p|] == p;
    var r := FirstPlaceholder(t, kind, 0, |htmls|);
    assert r.Some?;
    PlaceholderUnique(kind, m, r.value, rest);
    assert t[|p|..] == rest;
  }

  /** The HTML for a list of codes. */
  function CodeHTMLs(kind: Kind, codes: seq<string>): (r: seq<string>)
    ensures |r| == |codes|
    ensures forall i :: 0 <= i < |codes| ==> r[i] == CodeHTML(kind, codes[i])
  {
    if codes == [] then [] else [CodeHTML(kind, codes[0])] + CodeHTMLs(kind, codes[1..])
  }

  predicate NulFree(parts: seq<string>) {
    forall k :: 0 <= k < |parts| ==> '\0' !in parts[k]
  }

  /** The single pass puts the HTML of the `i`-th code exactly where the
      `i`-th placeholder was, as long as the text around the placeholders
      has no NUL. */
  lemma {:induction false} ExpandRestores(gaps: seq<string>, holes: seq<string>, hs: seq<string>,
                                          kind: Kind, m: nat, htmls: seq<string>)
    requires |gaps| == |holes| + 1 && |hs| == |holes| && m + |holes| <= |htmls| && NulFree(gaps)
    requires forall i :: 0 <= i < |holes| ==> holes[i] == Placeholder(kind, m + i)
    requires forall i :: 0 <= i < |hs| ==> hs[i] == htmls[m + i]
    ensures Expand(Weave(gaps, holes), kind, htmls) == Weave(gaps, hs)
    decreases |holes|
  {
    if holes == [] {
      ExpandSkip(gaps[0], [], kind, htmls);
      assert gaps[0] + [] == gaps[0];
    } else {
      assert NulFree(gaps[1..]) by {
        forall k | 0 <= k < |gaps| - 1 ensures '\0' !in gaps[1..][k] { assert gaps[1..][k] == gaps[k + 1]; }
      }
      forall i | 0 <= i < |holes| - 1 ensures holes[1..][i] == Placeholder(kind, m + 1 + i) {
        assert holes[1..][i] == holes[i + 1];
      }
      forall i | 0 <= i < |hs| - 1 ensures hs[1..][i] == htmls[m + 1 + i] {
        assert hs[1..][i] == hs[i + 1];
      }
      ExpandRestores(gaps[1..], holes[1..], hs[1..], kind, m + 1, htmls);
      assert '\0' !in gaps[0];
      ExpandWeaveStep(gaps, holes, hs, kind, m, htmls);
    }
  }

  /** The inductive step of `ExpandRestores`, over opaque parts. */
  lemma ExpandWeaveStep(gaps: seq<string>, holes: seq<string>, hs: seq<string>, kind: Kind, m: nat, htmls: seq<string>)
    requires |gaps| >= 2 && |holes| == |gaps| - 1 && |hs| == |gaps| - 1
    requires holes[0] == Placeholder(kind, m) && m < |htmls| && hs[0] == htmls[m] && '\0' !in gaps[0]
    requires Expand(Weave(gaps[1..], holes[1..]), kind, htmls) == Weave(gaps[1..], hs[1..])
    ensures Expand(Weave(gaps, holes), kind, htmls) == Weave(gaps, hs)
  {
    WeaveCons(gaps, holes);
    WeaveCons(gaps, hs);
    ExpandStep(gaps[0], kind, m, Weave(gaps[1..], holes[1..]), htmls, Weave(gaps[1..], hs[1..]));
  }

  lemma WeaveCons(gaps: seq<string>, holes: seq<string>)
    requires |holes| >= 1 && |gaps| == |holes| + 1
    ensures Weave(gaps, holes) == gaps[0] + holes[0] + Weave(gaps[1..], holes[1..])
  {
  }

  /** One gap and one placeholder in front of a remainder. */
  lemma ExpandStep(gap: string, kind: Kind, m: nat, tail: string, htmls: seq<string>, expanded: string)
    requires '\0' !in gap && m < |htmls|
    requires Expand(tail, kind, htmls) == expanded
    ensures Expand(gap + Placeholder(kind, m) + tail, kind, htmls) == gap + htmls[m] + expanded
  {
    AppendAssoc(gap, Placeholder(kind, m), tail);
    ExpandSkip(gap, Placeholder(kind, m) + tail, kind, htmls);
    ExpandPlaceholder(kind, m, tail, htmls);
    AppendAssoc(gap, htmls[m], expanded);
  }

  /** Text between matches is cut from the input, so it has no NUL when the
      input has none. */
  lemma {:induction false} GapsNulFree(kind: Kind, s: string, k: nat)
    requires k <= |s| && '\0' !in s
    ensures NulFree(Gaps(kind, s, k))
    decreases |s| - k
  {
    match NextMatch(kind, s, k)
    case None =>
      assert Gaps(kind, s, k) == [s[k..]];
    case Some(m) =>
      GapsNulFree(kind, s, m.end);
      GapsCons(s[k..m.start], Gaps(kind, s, m.end), Gaps(kind, s, k));
  }

  lemma GapsCons(head: string, rest: seq<string>, gaps: seq<string>)
    requires gaps == [head] + rest && '\0' !in head && NulFree(rest)
    ensures NulFree(gaps)
  {
    forall k | 0 <= k < |gaps| ensures '\0' !in gaps[k] {
      if k > 0 { assert gaps[k] == rest[k - 1]; }
    }
  }

  /** For input without NUL, the single pass puts the `i`-th HTML exactly
      where the `i`-th match was and keeps the text between matches. */
  lemma ExtractThenExpand(kind: Kind, s: string, htmls: seq<string>)
    requires '\0' !in s && |htmls| == |FindAll(kind, s, 0)|
    ensures Expand(Extract(kind, s).text, kind, htmls) == Weave(Gaps(kind, s, 0), htmls)
  {
    var n := |FindAll(kind, s, 0)|;
    ExtractedLayout(kind, s, 0, 0);
    GapsNulFree(kind, s, 0);
    ExpandRestores(Gaps(kind, s, 0), Placeholders(kind, 0, n), htmls, kind, 0, htmls);
  }

  /** Extraction followed by single-pass reinsertion of the matched texts
      gives back the input. */
  lemma ExtractRoundTrip(kind: Kind, s: string)
    requires '\0' !in s
    ensures Expand(Extract(kind, s).text, kind, Wholes(s, FindAll(kind, s, 0))) == s
  {
    ExtractThenExpand(kind, s, Wholes(s, FindAll(kind, s, 0)));
    TextLayout(kind, s, 0);
    assert s[0..] == s;
  }

  /** With no HTML to put back, the single pass copies the text. */
  lemma {:induction false} ExpandNothing(t: string, kind: Kind)
    ensures Expand(t, kind, []) == t
    decreases |t|
  {
    if t != [] {
      assert FirstPlaceholder(t, kind, 0, 0).None?;
      var w := TokenLength(t);
      ExpandNothing(t[w..], kind);
      assert t[..w] + t[w..] == t;
    }
  }

  /** `markdownToTelegramHTML` with each reinsertion loop replaced by a
      single pass over the text, inline code first as in the source. This is
      the fix; the channel's `Send` converts with `ToHTML`, as written. */
  function ToHTMLFixed(rw: Rewrites, text: string): string {
    if text == "" then ""
    else
      var blocks := Extract(CodeBlock, text);
      var inlines := Extract(InlineCode, blocks.text);
      var formatted := Format(rw, inlines.text);
      var withInline := Expand(formatted, InlineCode, CodeHTMLs(InlineCode, inlines.codes));
      Expand(withInline, CodeBlock, CodeHTMLs(CodeBlock, blocks.codes))
  }

  // =====================================================================
  // isImageURL, containsCode

  const ImageExtensions: seq<string> := [".jpg", ".jpeg", ".png", ".gif", ".webp"]

  /** The lower-cased URL ends with the extension, or has it right before a query. */
  predicate HasImageExtension(lower: string, ext: string) {
    HasSuffix(lower, ext) || Contains(lower, ext + "?")
  }

  /** What `isImageURL` accepts: a `data:image/` URI (matched
      case-sensitively), or a known image extension at the end of the URL or
      right before a query (matched case-insensitively). */
  predicate ImageURL(u: string) {
    HasPrefix(u, "data:image/")
    || exists k :: 0 <= k < |ImageExtensions| && HasImageExtension(ToLower(u), ImageExtensions[k])
  }

  /** `isImageURL`, with its loop over the extensions. */
  method IsImageURL(u: string) returns (b: bool)
    ensures b <==> ImageURL(u)
  {
    if HasPrefix(u, "data:image/") {
      return true;
    }
    var lower := ToLower(u);
    var exts := ImageExtensions;
    var k := 0;
    while k < |exts|
      invariant 0 <= k <= |exts|
      invariant forall i :: 0 <= i < k ==> !HasImageExtension(lower, exts[i])
    {
      if HasSuffix(lower, exts[k]) || Contains(lower, exts[k] + "?") {
        return true;
      }
      k := k + 1;
    }
    return false;
  }

  /** Only the case of the letters matters for the extension test. */
  lemma ImageURLCaseInsensitive(u: string, v: string)
    requires ToLower(u) == ToLower(v)
    requires !HasPrefix(u, "data:image/") && !HasPrefix(v, "data:image/")
    ensures ImageURL(u) <==> ImageURL(v)
  {
  }

  /** Text without a question mark has no extension-before-query in it. */
  lemma NoQueryMark(s: string, ext: string)
    requires '?' !in s
    ensures !Contains(s, ext + "?")
  {
    forall i | 0 <= i && i + |ext| + 1 <= |s|
      ensures !OccursAt(s, ext + "?", i)
    {
      assert s[i + |ext|] != '?';
      assert s[i..i + |ext| + 1][|ext|] == s[i + |ext|];
    }
  }

  /** An upper-case extension is recognised. */
  lemma UpperCaseExtension()
    ensures ImageURL("x.PNG")
  {
    assert ToLower("x.PNG") == "x.png";
    assert HasImageExtension("x.png", ImageExtensions[2]);
  }

  /** An extension followed by a query string is recognised. */
  lemma ExtensionBeforeQuery()
    ensures ImageURL("a.jpg?w=1")
  {
    assert ToLower("a.jpg?w=1") == "a.jpg?w=1";
    assert OccursAt("a.jpg?w=1", ".jpg?", 1);
    assert HasImageExtension("a.jpg?w=1", ImageExtensions[0]);
  }

  /** Other extensions are not. */
  lemma OtherExtension()
    ensures !ImageURL("a.txt")
  {
    assert ToLower("a.txt") == "a.txt";
    forall k | 0 <= k < |ImageExtensions| ensures !HasImageExtension("a.txt", ImageExtensions[k]) {
      var e := ImageExtensions[k];
      assert !HasSuffix("a.txt", e) by {
        if |e| <= 5 { assert "a.txt"[5 - |e|..] != e; }
      }
      NoQueryMark("a.txt", e);
    }
  }

  /** The inline-code pattern matches somewhere: two backticks with at least
      one other character between them and no backtick in between. */
  predicate HasInlineSpan(s: string) {
    exists i, j :: 0 <= i && i + 1 < j < |s| && s[i] == '`' && s[j] == '`' && '`' !in s[i + 1..j]
  }

  /** `containsCode`: a fence anywhere, or an inline-code match anywhere. */
  function ContainsCode(text: string): bool {
    Contains(text, Fence) || NextMatch(InlineCode, text, 0).Some?
  }

  /** The scanner finds an inline span exactly when one exists. */
  lemma InlineScanComplete(s: string)
    ensures NextMatch(InlineCode, s, 0).Some? <==> HasInlineSpan(s)
  {
    var r := NextMatch(InlineCode, s, 0);
    if r.Some? {
      var m := r.value;
      assert InlineAt(s, m.start) == r;
      assert s[m.start + 1..m.end - 1] == m.code;
    } else {
      forall i, j | 0 <= i && i + 1 < j < |s|
        ensures !(s[i] == '`' && s[j] == '`' && '`' !in s[i + 1..j])
      {
        assert MatchAt(InlineCode, s, i).None?;
      }
    }
  }

  lemma ContainsCodeIff(text: string)
    ensures ContainsCode(text) <==> (exists i :: OccursAt(text, Fence, i)) || HasInlineSpan(text)
  {
    InlineScanComplete(text);
  }

  // =====================================================================
  // extractPDFText

  const PdfLimit: nat := 15000
  const PdfTruncationNote: string := "\n\n[... texto truncado, PDF muy largo ...]"

  /** The text kept from a PDF: empty when extraction failed, else the
      trimmed output, cut at the limit with a note when longer. */
  function PdfExcerpt(output: Option<string>): (r: string)
    ensures output.None? ==> r == ""
    ensures output.Some? && |TrimSpace(output.value)| <= PdfLimit ==> r == TrimSpace(output.value)
    ensures output.Some? && |TrimSpace(output.value)| > PdfLimit ==>
      r == TrimSpace(output.value)[..PdfLimit] + PdfTruncationNote
    ensures |r| <= PdfLimit + |PdfTruncationNote|
  {
    match output
    case None => ""
    case Some(raw) =>
      var text := TrimSpace(raw);
      if |text| > PdfLimit then text[..PdfLimit] + PdfTruncationNote else text
  }
}
