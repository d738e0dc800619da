/**
 A concrete tokenizer: words with their leading space, and runs of newlines. It gives every text back and meets all
 that the chunkers' size bounds assume of a tokenizer, so those bounds speak of something.
 */
module WordTokens {
  import opened Text

  /** A token begins between these two characters. */
  predicate Cut(before: char, c: char) {
    (before == '\n') != (c == '\n') || (c == ' ' && before != ' ' && before != '\n')
  }

  function Split(s: string): seq<string> {
    if s == "" then []
    else
      var n := |s| - 1;
      var init := Split(s[..n]);
      if n == 0 || init == [] || Cut(s[n - 1], s[n]) then init + [[s[n]]]
      else init[..|init| - 1] + [init[|init| - 1] + [s[n]]]
  }

  function Glue(parts: seq<string>): string {
    if parts == [] then "" else Glue(parts[..|parts| - 1]) + parts[|parts| - 1]
  }

  lemma GlueAppend(parts: seq<string>, part: string)
    ensures Glue(parts + [part]) == Glue(parts) + part
  {
    assert (parts + [part])[..|parts|] == parts;
  }

  /** Extending the last part extends the text. */
  lemma GlueExtend(parts: seq<string>, more: string)
    requires parts != []
    ensures Glue(parts[..|parts| - 1] + [parts[|parts| - 1] + more]) == Glue(parts) + more
  {
    GlueAppend(parts[..|parts| - 1], parts[|parts| - 1] + more);
  }

  lemma {:induction false} SplitGlues(s: string)
    ensures Glue(Split(s)) == s
  {
    if s != "" {
      var n := |s| - 1;
      var init := Split(s[..n]);
      SplitGlues(s[..n]);
      GlueAppend(init, [s[n]]);
      if init != [] { GlueExtend(init, [s[n]]); }
      hide Glue;
      assert s == s[..n] + [s[n]];
    }
  }

  // ---------------------------------------------------------------- the number of tokens

  function Cuts(s: string): nat {
    if |s| < 2 then 0
    else Cuts(s[..|s| - 1]) + if Cut(s[|s| - 2], s[|s| - 1]) then 1 else 0
  }

  lemma {:induction false} SplitCount(s: string)
    ensures |Split(s)| == if s == "" then 0 else 1 + Cuts(s)
  {
    if |s| == 1 {
      assert s[..0] == "" && Split("") == [];
    } else if s != "" {
      SplitCount(s[..|s| - 1]);
    }
  }

  /** Between two texts there is at most one more cut, decided by the characters that meet. */
  lemma {:induction false} CutsAppend(a: string, b: string)
    requires a != "" && b != ""
    ensures Cuts(a + b) == Cuts(a) + Cuts(b) + if Cut(a[|a| - 1], b[0]) then 1 else 0
  {
    var ab, n := a + b, |b| - 1;
    if n == 0 {
      assert ab[..|ab| - 1] == a;
    } else {
      CutsAppend(a, b[..n]);
      assert ab[..|ab| - 1] == a + b[..n];
    }
  }

  function Tokens(s: string): nat { |Split(s)| }

  lemma TokensAppend(a: string, b: string)
    requires a != "" && b != ""
    ensures Tokens(a + b) == Tokens(a) + Tokens(b) - if Cut(a[|a| - 1], b[0]) then 0 else 1
  {
    SplitCount(a);
    SplitCount(b);
    SplitCount(a + b);
    CutsAppend(a, b);
  }

  lemma TokensAtMost(a: string, b: string)
    ensures Tokens(a + b) <= Tokens(a) + Tokens(b)
  {
    if a == "" { assert a + b == b; } else if b == "" { assert a + b == a; } else { TokensAppend(a, b); }
  }

  // ---------------------------------------------------------------- tokens as numbers

  const RADIX := 0x11_0000

  function Code(s: string): nat {
    if s == "" then 0 else Code(s[..|s| - 1]) * RADIX + (s[|s| - 1] as int) + 1
  }

  function CharOf(m: nat): char {
    if m < 0xD800 || 0xE000 <= m < RADIX then m as char else 'x'
  }

  function Spell(n: nat): string {
    if n == 0 then "" else Spell((n - 1) / RADIX) + [CharOf((n - 1) % RADIX)]
  }

  lemma {:induction false} SpellCode(s: string)
    ensures Spell(Code(s)) == s
  {
    if s != "" {
      var init, c := s[..|s| - 1], s[|s| - 1];
      SpellCode(init);
      assert (Code(s) - 1) / RADIX == Code(init) && (Code(s) - 1) % RADIX == c as int;
      assert s == init + [c];
    }
  }

  /** The text of a token id; ids that are no token of this tokenizer read as `x`. */
  function Word(id: nat): (w: string)
    ensures Tokens(w) == 1
  {
    if Tokens(Spell(id)) == 1 then Spell(id) else assert Split("x"[..0]) == []; "x"
  }

  function CodeAll(parts: seq<string>): seq<nat> {
    if parts == [] then [] else CodeAll(parts[..|parts| - 1]) + [Code(parts[|parts| - 1])]
  }

  function Encode(s: string): seq<nat> { CodeAll(Split(s)) }

  function Decode(ids: seq<nat>): string {
    if ids == [] then "" else Decode(ids[..|ids| - 1]) + Word(ids[|ids| - 1])
  }

  const WORDS := Tokenizer(s => Encode(s), ids => Decode(ids))

  // ---------------------------------------------------------------- it gives every text back

  lemma OneCharacter(c: char)
    ensures Split([c]) == [[c]] && Tokens([c]) == 1
  {
    assert [c][..0] == "" && Split("") == [];
  }

  predicate AllTokens(parts: seq<string>) {
    forall i | 0 <= i < |parts| :: Tokens(parts[i]) == 1
  }

  lemma LongerToken(word: string, c: char)
    requires word != "" && Tokens(word) == 1 && !Cut(word[|word| - 1], c)
    ensures Tokens(word + [c]) == 1
  {
    hide Tokens;
    OneCharacter(c);
    TokensAppend(word, [c]);
  }

  predicate EndsLike(parts: seq<string>, s: string)
    requires s != ""
  {
    parts != [] && var last := parts[|parts| - 1]; last != "" && last[|last| - 1] == s[|s| - 1]
  }

  lemma TokensSnoc(parts: seq<string>, part: string)
    ensures AllTokens(parts) && Tokens(part) == 1 ==> AllTokens(parts + [part])
  {
    hide Tokens;
  }

  lemma TokensFront(parts: seq<string>)
    requires AllTokens(parts) && parts != []
    ensures AllTokens(parts[..|parts| - 1]) && Tokens(parts[|parts| - 1]) == 1
  {
    hide Tokens;
  }

  /** One more character, as a new token or as part of the last one. */
  lemma TakeCharacter(s: string)
    requires |s| > 1
    ensures var n := |s| - 1; var init := Split(s[..n]);
            && (Cut(s[n - 1], s[n]) ==> Split(s) == init + [[s[n]]])
            && (!Cut(s[n - 1], s[n]) && init != [] ==>
                  Split(s) == init[..|init| - 1] + [init[|init| - 1] + [s[n]]])
  {
    hide Cut;
  }

  /** Every part is one token, and the last part ends where the text ends. */
  lemma {:induction false} SplitIntoTokens(s: string)
    ensures AllTokens(Split(s)) && (s != "" ==> EndsLike(Split(s), s))
  {
    if |s| == 1 {
      OneCharacter(s[0]);
      assert s == [s[0]];
    } else if s != "" {
      hide AllTokens, Tokens, Split;
      var n := |s| - 1;
      var init, c := Split(s[..n]), s[n];
      SplitIntoTokens(s[..n]);
      TakeCharacter(s);
      OneCharacter(c);
      if Cut(s[n - 1], c) {
        TokensSnoc(init, [c]);
      } else {
        TokensFront(init);
        LongerToken(init[|init| - 1], c);
        TokensSnoc(init[..|init| - 1], init[|init| - 1] + [c]);
      }
    }
  }

  lemma {:induction false} DecodeParts(parts: seq<string>)
    requires AllTokens(parts)
    ensures Decode(CodeAll(parts)) == Glue(parts) && |CodeAll(parts)| == |parts|
  {
    if parts != [] {
      var init, last := parts[..|parts| - 1], parts[|parts| - 1];
      DecodeParts(init);
      SpellCode(last);
      assert Word(Code(last)) == last;
      hide Word, Code, Tokens;
      assert CodeAll(parts)[..|init|] == CodeAll(init);
    }
  }

  lemma WordsRoundTrip(s: string)
    ensures WORDS.decode(WORDS.encode(s)) == s && WORDS.Count(s) == Tokens(s)
  {
    SplitIntoTokens(s);
    DecodeParts(Split(s));
    SplitGlues(s);
  }

  lemma DecodeSnoc(ids: seq<nat>, id: nat)
    ensures Decode(ids + [id]) == Decode(ids) + Word(id)
  {
    hide Word;
    assert (ids + [id])[..|ids|] == ids;
  }

  lemma DecodeNothing()
    ensures Decode([]) == ""
  {}

  lemma {:induction false} DecodeAppend(a: seq<nat>, b: seq<nat>)
    ensures Decode(a + b) == Decode(a) + Decode(b)
  {
    hide Decode, Word, Tokens, Spell;
    if b == [] {
      DecodeNothing();
      assert a + b == a && Decode(a) + "" == Decode(a);
    } else {
      var init, last := b[..|b| - 1], b[|b| - 1];
      DecodeAppend(a, init);
      DecodeSnoc(init, last);
      DecodeSnoc(a + init, last);
      assert b == init + [last] && a + b == (a + init) + [last];
      Associative(Decode(a), Decode(init), Word(last));
    }
  }

  // ---------------------------------------------------------------- and measures as assumed

  lemma BreakIsOneToken()
    ensures Tokens("\n\n") == 1 && Tokens(" ") == 1
  {
    OneCharacter('\n');
    OneCharacter(' ');
    assert "\n\n" == ['\n'] + ['\n'];
    TokensAppend(['\n'], ['\n']);
  }

  lemma ParagraphJoin(a: string, b: string)
    requires a != "" && Solid(b)
    ensures Tokens(a + "\n\n" + b) <= Tokens(a) + 1 + Tokens(b)
    ensures Solid(a) ==> Tokens(a + "\n\n" + b) == Tokens(a) + 1 + Tokens(b)
  {
    BreakIsOneToken();
    TokensAppend(a, "\n\n");
    TokensAppend(a + "\n\n", b);
    hide Tokens;
  }

  lemma SentenceJoin(a: string, b: string)
    requires Solid(a) && Solid(b)
    ensures Tokens(a + " " + b) == Tokens(a) + Tokens(b)
  {
    BreakIsOneToken();
    TokensAppend(a, " ");
    TokensAppend(a + " ", b);
    hide Tokens;
  }

  lemma {:induction false} WindowFits(ids: seq<nat>)
    requires ids != []
    ensures Decode(ids) != "" && Tokens(Decode(ids)) <= |ids|
  {
    var init, last := ids[..|ids| - 1], ids[|ids| - 1];
    assert Word(last) != "";
    if init == [] {
      assert Decode(init) == "" && Decode(ids) == Word(last);
    } else {
      WindowFits(init);
      TokensAtMost(Decode(init), Word(last));
    }
  }

  lemma WordsJoinParagraphs()
    ensures WORDS.ParagraphJoinCostsOne() && WORDS.ParagraphJoinCostsAtMostOne()
  {
    hide Tokens, Encode, Decode;
    forall a, b | a != "" && Solid(b)
      ensures WORDS.Count(a + "\n\n" + b) <= WORDS.Count(a) + 1 + WORDS.Count(b)
      ensures Solid(a) ==> WORDS.Count(a + "\n\n" + b) == WORDS.Count(a) + 1 + WORDS.Count(b)
    {
      hide Solid;
      ParagraphJoin(a, b);
      WordsRoundTrip(a);
      WordsRoundTrip(b);
      WordsRoundTrip(a + "\n\n" + b);
    }
  }

  lemma WordsJoinSentences()
    ensures WORDS.SentenceJoinIsFree()
  {
    hide Tokens, Encode, Decode, Solid;
    forall a, b | Solid(a) && Solid(b) ensures WORDS.Count(a + " " + b) <= WORDS.Count(a) + WORDS.Count(b) {
      SentenceJoin(a, b);
      WordsRoundTrip(a);
      WordsRoundTrip(b);
      WordsRoundTrip(a + " " + b);
    }
  }

  lemma WordsWindows()
    ensures WORDS.WindowsAreStable()
  {
    hide Tokens, Encode, Decode;
    forall ids | ids != [] ensures WORDS.decode(ids) != "" && WORDS.Count(WORDS.decode(ids)) <= |ids| {
      WindowFits(ids);
      WordsRoundTrip(Decode(ids));
    }
  }

  /** The tokenizer gives every text back and meets all four assumptions. */
  lemma MeasuredIsConsistent()
    ensures WORDS.Measured() && forall s :: WORDS.decode(WORDS.encode(s)) == s
  {
    WordsJoinParagraphs();
    WordsJoinSentences();
    WordsWindows();
    hide Encode, Decode, Tokenizer.Count;
    forall s ensures WORDS.decode(WORDS.encode(s)) == s { WordsRoundTrip(s); }
  }

  /** `n` one-token words. */
  function Say(n: nat): (s: string)
    requires n > 0
    ensures Solid(s) && forall i | 0 <= i < |s| :: s[i] == 'a' || s[i] == ' '
  {
    if n == 1 then "a" else Say(n - 1) + " a"
  }

  lemma {:induction false} SayTokens(n: nat)
    requires n > 0
    ensures Tokens(Say(n)) == n
  {
    OneCharacter('a');
    hide Tokens;
    if n > 1 {
      SayTokens(n - 1);
      assert Say(n) == Say(n - 1) + " " + "a";
      SentenceJoin(Say(n - 1), "a");
    }
  }

  /** Texts of every size, so that every branch of the chunkers is reached. */
  lemma SaySize(n: nat)
    requires n > 0
    ensures WORDS.Count(Say(n)) == n
  {
    hide Tokens, Encode, Say;
    SayTokens(n);
    WordsRoundTrip(Say(n));
  }
}
