/** A code-block placeholder that appears across two others.

    Placeholders open and close with the same NUL character, so two adjacent
    placeholders with the text `CB0` after them leave `NUL CB0 NUL` across
    the boundary: the closing NUL of one, the user's `CB0`, and the opening
    NUL of the next. The reinsertion by successive `strings.ReplaceAll`
    calls replaces that occurrence as well. */
module TelegramCollision {
  import opened Common
  import opened TelegramText

  const BlockA: string := "```\na```"
  const BlockB: string := "```\nb```"
  const BlockC: string := "```\nc```"

  /** Three fenced blocks, with the letters `CB0` between the second and the third. */
  const CollisionInput: string := BlockA + BlockB + "CB0" + BlockC

  /** Rewrites that leave the text alone, which is what the real heading,
      quote, link, bold, italic, strike-through and list patterns do on a
      text without `#`, `>`, `[`, `*`, `_`, `~` and `-`. */
  const Unchanged: Rewrites := Rewrites(t => t, t => t, t => t, t => t, t => t, t => t, t => t, t => t)

  /** The HTML of the three blocks. */
  const HtmlA: string := CodeHTML(CodeBlock, "a")
  const HtmlB: string := CodeHTML(CodeBlock, "b")
  const HtmlC: string := CodeHTML(CodeBlock, "c")

  /** The text after code-block extraction. */
  const Extracted: string :=
    Placeholder(CodeBlock, 0) + Placeholder(CodeBlock, 1) + "CB0" + Placeholder(CodeBlock, 2)

  // ---------------------------------------------------------------------
  // Extraction of the three blocks

  lemma Digits()
    ensures NatToString(0) == "0" && NatToString(1) == "1" && NatToString(2) == "2"
  {
    assert DigitChar(0) == '0' && DigitChar(1) == '1' && DigitChar(2) == '2';
  }

  lemma PlaceholderTexts()
    ensures Placeholder(CodeBlock, 0) == "\0CB0\0"
    ensures Placeholder(CodeBlock, 1) == "\0CB1\0"
    ensures Placeholder(CodeBlock, 2) == "\0CB2\0"
  {
    Digits();
  }

  /** A fenced block `` ```\nx``` `` after `pre` is matched with code `x`. */
  lemma BlockMatch(pre: string, x: char, post: string)
    requires x != '`'
    ensures var s := pre + ("```\n" + [x] + "```") + post;
      BlockAt(s, |pre|) == Some(Match(|pre|, |pre| + 8, [x]))
  {
    var s := pre + ("```\n" + [x] + "```") + post;
    var i := |pre|;
    assert s[i..i + 3] == Fence;
    assert s[i + 3] == '\n' && !IsWordChar(s[i + 3]);
    assert WordEnd(s, i + 3) == i + 3;
    assert s[i + 4..i + 7] != Fence by { assert s[i + 4..i + 7][0] == x; }
    assert s[i + 5..i + 8] == Fence;
    assert FindFrom(s, Fence, i + 4) == Some(i + 5);
    assert s[i + 4..i + 5] == [x];
  }

  /** No block starts at a character other than a backtick. */
  lemma NotAFence(s: string, i: nat)
    requires i < |s| && s[i] != '`'
    ensures BlockAt(s, i).None?
  {
    if i + 3 <= |s| { assert s[i..i + 3][0] == s[i]; }
  }

  lemma FirstBlock()
    ensures NextMatch(CodeBlock, CollisionInput, 0) == Some(Match(0, 8, "a"))
  {
    var post := BlockB + "CB0" + BlockC;
    assert CollisionInput == [] + ("```\n" + ['a'] + "```") + post;
    BlockMatch([], 'a', post);
  }

  lemma SecondBlock()
    ensures NextMatch(CodeBlock, CollisionInput, 8) == Some(Match(8, 16, "b"))
  {
    var post := "CB0" + BlockC;
    assert CollisionInput == BlockA + ("```\n" + ['b'] + "```") + post;
    BlockMatch(BlockA, 'b', post);
  }

  lemma LastBlock()
    ensures NextMatch(CodeBlock, CollisionInput, 19) == Some(Match(19, 27, "c"))
  {
    var pre := BlockA + BlockB + "CB0";
    assert CollisionInput == pre + ("```\n" + ['c'] + "```") + [];
    BlockMatch(pre, 'c', []);
  }

  /** The letters between the second and third block start no block. */
  lemma LettersSkipped()
    ensures NextMatch(CodeBlock, CollisionInput, 16) == Some(Match(19, 27, "c"))
  {
    LastBlock();
    LetterAt(16);
    LetterAt(17);
    LetterAt(18);
  }

  lemma LetterAt(k: nat)
    requires 16 <= k < 19
    ensures BlockAt(CollisionInput, k).None?
  {
    assert CollisionInput[k] == "CB0"[k - 16];
    NotAFence(CollisionInput, k);
  }

  lemma NoMoreBlocks()
    ensures NextMatch(CodeBlock, CollisionInput, 27) == None
  {
    assert |CollisionInput| == 27;
    assert BlockAt(CollisionInput, 27).None?;
  }

  /** Extracting the blocks numbers them 0, 1, 2 and leaves `CB0` between
      the second and the third placeholder. */
  lemma ExtractedInput()
    ensures Extract(CodeBlock, CollisionInput) == Extraction(Extracted, ["a", "b", "c"])
  {
    var s := CollisionInput;
    FirstBlock();
    SecondBlock();
    LettersSkipped();
    NoMoreBlocks();
    var p0, p1, p2 := Placeholder(CodeBlock, 0), Placeholder(CodeBlock, 1), Placeholder(CodeBlock, 2);
    assert ReplaceMatches(CodeBlock, s, 27, 3) == [];
    assert s[16..19] == "CB0";
    var tail := ReplaceMatches(CodeBlock, s, 16, 2);
    assert tail == "CB0" + p2 + [];
    var r8 := ReplaceMatches(CodeBlock, s, 8, 1);
    assert r8 == [] + p1 + tail;
    assert ReplaceMatches(CodeBlock, s, 0, 0) == [] + p0 + r8;
    Glue(p0, p1, "CB0", p2);
    var ms := FindAll(CodeBlock, s, 0);
    var f16 := FindAll(CodeBlock, s, 16);
    var f8 := FindAll(CodeBlock, s, 8);
    assert FindAll(CodeBlock, s, 27) == [];
    assert f16 == [Match(19, 27, "c")] + [];
    assert f8 == [Match(8, 16, "b")] + f16;
    assert ms == [Match(0, 8, "a")] + f8;
    Triple(Match(0, 8, "a"), Match(8, 16, "b"), Match(19, 27, "c"), f8, f16, ms);
    assert Codes(ms) == ["a", "b", "c"];
  }

  lemma Glue(a: string, b: string, c: string, d: string)
    ensures [] + a + ([] + b + (c + d + [])) == a + b + c + d
  {
  }

  lemma Triple<T>(x: T, y: T, z: T, yz: seq<T>, zs: seq<T>, all: seq<T>)
    requires zs == [z] + [] && yz == [y] + zs && all == [x] + yz
    ensures all == [x, y, z]
  {
  }

  // ---------------------------------------------------------------------
  // The conversion as written

  /** Text without `&`, `<` and `>` is its own escape. */
  lemma {:induction false} EscapePlain(s: string)
    requires '&' !in s && '<' !in s && '>' !in s
    ensures EscapeHTML(s) == s
  {
    EscapeIsPerCharacter(s);
    RenderPlain(s);
  }

  lemma {:induction false} RenderPlain(s: string)
    requires '&' !in s && '<' !in s && '>' !in s
    ensures RenderAll(Escaped, s) == s
  {
    if s != [] {
      RenderPlain(s[1..]);
      assert s == [s[0]] + s[1..];
    }
  }

  /** Block `a`'s HTML starts with `<` and has no NUL. */
  lemma HtmlAShape()
    ensures HtmlA != [] && HtmlA[0] == '<' && '\0' !in HtmlA
  {
    EscapePlain("a");
  }

  /** Text without a backtick has no inline code. */
  lemma NoInlineCode(t: string)
    requires '`' !in t
    ensures Extract(InlineCode, t) == Extraction(t, [])
  {
    assert forall i: nat :: InlineAt(t, i).None?;
    assert NextMatch(InlineCode, t, 0).None?;
    assert t[0..] == t;
  }

  /** The extracted text has no backtick, so no inline code is extracted,
      and no `&`, `<` or `>`, so formatting keeps it. */
  lemma FormattedInput()
    ensures Extract(InlineCode, Extracted) == Extraction(Extracted, [])
    ensures Format(Unchanged, Extracted) == Extracted
  {
    var t := Extracted;
    assert '`' !in t && '&' !in t && '<' !in t && '>' !in t by {
      ExtractedText();
    }
    NoInlineCode(t);
    EscapePlain(t);
  }

  /** The extracted text, character by character. */
  lemma ExtractedText()
    ensures Extracted == "\0CB0\0" + ("\0CB1" + "\0CB0\0" + "CB2\0")
  {
    PlaceholderTexts();
  }

  /** The first `ReplaceAll`, for placeholder 0, replaces both the real
      placeholder and the one that straddles placeholders 1 and 2. */
  lemma FirstPass(h: string)
    ensures ReplaceAll(Extracted, "\0CB0\0", h) == h + ("\0CB1" + h + "CB2\0")
  {
    ExtractedText();
    ReplaceAllMatch("\0CB0\0", "\0CB1" + "\0CB0\0" + "CB2\0", h);
    FirstMiddle(h);
  }

  lemma FirstMiddle(h: string)
    ensures ReplaceAll("\0CB1" + "\0CB0\0" + "CB2\0", "\0CB0\0", h) == "\0CB1" + h + "CB2\0"
  {
    var p := "\0CB0\0";
    var rest := "\0CB1" + p + "CB2\0";
    assert rest[..5][3] == '1';
    ReplaceAllMiss(rest, p, h);
    assert rest[1..] == "CB1" + (p + "CB2\0");
    FirstTail(h);
  }

  lemma FirstTail(h: string)
    ensures ReplaceAll("CB1" + ("\0CB0\0" + "CB2\0"), "\0CB0\0", h) == "CB1" + (h + "CB2\0")
  {
    var p := "\0CB0\0";
    ReplaceAllSkip("CB1", p + "CB2\0", p, h);
    ReplaceAllMatch(p, "CB2\0", h);
    assert ReplaceAll("CB2\0", p, h) == "CB2\0";
  }

  /** Placeholders 1 and 2 have lost their NULs and are no longer found. */
  lemma LaterPass(h: string, p: string, rep: string)
    requires h != [] && h[0] == '<' && '\0' !in h
    requires |p| == 5 && p[0] == '\0' && p[4] == '\0'
    ensures ReplaceAll(h + ("\0CB1" + h + "CB2\0"), p, rep) == h + ("\0CB1" + h + "CB2\0")
  {
    var rest := "\0CB1" + h + "CB2\0";
    ReplaceAllSkip(h, rest, p, rep);
    LaterMiddle(h, p, rep);
  }

  lemma LaterMiddle(h: string, p: string, rep: string)
    requires h != [] && h[0] == '<' && '\0' !in h
    requires |p| == 5 && p[0] == '\0' && p[4] == '\0'
    ensures ReplaceAll("\0CB1" + h + "CB2\0", p, rep) == "\0CB1" + h + "CB2\0"
  {
    var rest := "\0CB1" + h + "CB2\0";
    assert rest[..5][4] == '<';
    ReplaceAllMiss(rest, p, rep);
    assert rest[1..] == "CB1" + h + "CB2\0";
    LaterTail(h, p, rep);
  }

  lemma LaterTail(h: string, p: string, rep: string)
    requires '\0' !in h && |p| == 5 && p[0] == '\0'
    ensures ReplaceAll("CB1" + h + "CB2\0", p, rep) == "CB1" + h + "CB2\0"
  {
    assert "CB1" + h + "CB2\0" == ("CB1" + h + "CB2") + "\0";
    ReplaceAllSkip("CB1" + h + "CB2", "\0", p, rep);
  }

  /** Nothing happens before the code blocks are reinserted. */
  lemma AsWrittenReinsert()
    ensures ToHTML(Unchanged, CollisionInput) == Reinsert(Extracted, CodeBlock, ["a", "b", "c"], 0)
  {
    ExtractedInput();
    FormattedInput();
    assert Reinsert(Extracted, InlineCode, [], 0) == Extracted;
  }

  /** The three successive `ReplaceAll` calls for the code blocks. */
  lemma AsWrittenPasses()
    ensures Reinsert(Extracted, CodeBlock, ["a", "b", "c"], 0) == HtmlA + ("\0CB1" + HtmlA + "CB2\0")
  {
    var codes := ["a", "b", "c"];
    var once := HtmlA + ("\0CB1" + HtmlA + "CB2\0");
    PlaceholderTexts();
    FirstPass(HtmlA);
    HtmlAShape();
    LaterPass(HtmlA, "\0CB1\0", HtmlB);
    LaterPass(HtmlA, "\0CB2\0", HtmlC);
    assert Reinsert(once, CodeBlock, codes, 3) == once;
    assert Reinsert(once, CodeBlock, codes, 2) == once;
    assert Reinsert(once, CodeBlock, codes, 1) == once;
  }

  /** As written, the conversion of the input leaks a NUL and the text
      `\0CB1`, shows block `a` twice, and loses blocks `b` and `c`. */
  lemma CollisionAsWritten()
    ensures ToHTML(Unchanged, CollisionInput) == HtmlA + ("\0CB1" + HtmlA + "CB2\0")
    ensures '\0' in ToHTML(Unchanged, CollisionInput)
  {
    AsWrittenReinsert();
    AsWrittenPasses();
    var once := HtmlA + ("\0CB1" + HtmlA + "CB2\0");
    assert once[|HtmlA|] == '\0';
  }

  // ---------------------------------------------------------------------
  // The conversion with single-pass reinsertion

  /** The text between the blocks: nothing, nothing, `CB0`, nothing. */
  lemma InputGaps()
    ensures Gaps(CodeBlock, CollisionInput, 0) == ["", "", "CB0", ""]
  {
    var s := CollisionInput;
    LaterGaps();
    FirstBlock();
    SecondBlock();
    var g16 := Gaps(CodeBlock, s, 16);
    var g8 := Gaps(CodeBlock, s, 8);
    assert s[8..8] == [] && s[0..0] == [];
    assert g8 == [s[8..8]] + g16;
    assert Gaps(CodeBlock, s, 0) == [s[0..0]] + g8;
    TwoEmpty(Gaps(CodeBlock, s, 0), g8, g16);
  }

  lemma TwoEmpty(all: seq<string>, rest: seq<string>, tail: seq<string>)
    requires tail == ["CB0", ""] && rest == [[]] + tail && all == [[]] + rest
    ensures all == ["", "", "CB0", ""]
  {
  }

  lemma LaterGaps()
    ensures Gaps(CodeBlock, CollisionInput, 16) == ["CB0", ""]
  {
    var s := CollisionInput;
    LettersSkipped();
    NoMoreBlocks();
    var g27 := Gaps(CodeBlock, s, 27);
    assert g27 == [s[27..]] && s[27..] == [];
    assert s[16..19] == "CB0";
    assert Gaps(CodeBlock, s, 16) == [s[16..19]] + g27;
  }

  lemma NoNul()
    ensures '\0' !in CollisionInput
  {
  }

  /** Nothing happens before the code blocks are put back. */
  lemma FixedReinsert()
    ensures ToHTMLFixed(Unchanged, CollisionInput) == Expand(Extracted, CodeBlock, CodeHTMLs(CodeBlock, ["a", "b", "c"]))
  {
    ExtractedInput();
    FormattedInput();
    ExpandNothing(Extracted, InlineCode);
    assert CodeHTMLs(InlineCode, []) == [];
  }

  /** The single pass fills the holes between the gaps. */
  lemma FixedPass(htmls: seq<string>)
    requires |htmls| == 3
    ensures Expand(Extracted, CodeBlock, htmls) == Weave(["", "", "CB0", ""], htmls)
  {
    ExtractedInput();
    NoNul();
    InputGaps();
    ExtractThenExpand(CodeBlock, CollisionInput, htmls);
  }

  /** With single-pass reinsertion every block is back in its place, once,
      and the letters `CB0` between the second and third block are kept. */
  lemma CollisionFixed()
    ensures ToHTMLFixed(Unchanged, CollisionInput) == HtmlA + HtmlB + "CB0" + HtmlC
  {
    var htmls := CodeHTMLs(CodeBlock, ["a", "b", "c"]);
    FixedReinsert();
    FixedPass(htmls);
    WeaveThree(["", "", "CB0", ""], htmls);
  }

  lemma WeaveThree(gaps: seq<string>, holes: seq<string>)
    requires |gaps| == 4 && |holes| == 3 && gaps[0] == [] && gaps[1] == [] && gaps[3] == []
    ensures Weave(gaps, holes) == holes[0] + holes[1] + gaps[2] + holes[2]
  {
    var g1, h1 := gaps[1..], holes[1..];
    var g2, h2 := g1[1..], h1[1..];
    WeaveCons(gaps, holes);
    WeaveCons(g1, h1);
    WeaveCons(g2, h2);
    assert Weave(g2[1..], h2[1..]) == g2[1..][0] == gaps[3];
    assert g1[0] == gaps[1] && g2[0] == gaps[2] && h1[0] == holes[1] && h2[0] == holes[2];
  }
}
