/** Text as the chunkers see it: stripping, joining, and an oracle tokenizer. */
module Text {

  /** Python's `str.isspace`, which both `strip` and the regex class `\s` use. */
  predicate Space(c: char) {
    var n := c as int;
    || 0x09 <= n <= 0x0D || 0x1C <= n <= 0x20 || n == 0x85 || n == 0xA0 || n == 0x1680
    || 0x2000 <= n <= 0x200A || n == 0x2028 || n == 0x2029 || n == 0x202F || n == 0x205F || n == 0x3000
  }

  function StripLeft(s: string): string {
    if s != [] && Space(s[0]) then StripLeft(s[1..]) else s
  }

  function StripRight(s: string): string {
    if s != [] && Space(s[|s| - 1]) then StripRight(s[..|s| - 1]) else s
  }

  function Strip(s: string): string {
    StripRight(StripLeft(s))
  }

  /** Non-empty, with no whitespace at either end. */
  predicate Solid(s: string) {
    s != "" && !Space(s[0]) && !Space(s[|s| - 1])
  }

  predicate AllSolid(parts: seq<string>) {
    forall i | 0 <= i < |parts| :: Solid(parts[i])
  }

  function Join(sep: string, parts: seq<string>): string {
    if |parts| == 0 then ""
    else if |parts| == 1 then parts[0]
    else Join(sep, parts[..|parts| - 1]) + sep + parts[|parts| - 1]
  }

  lemma {:induction false} StripRightSolid(s: string)
    ensures StripRight(s) == "" || !Space(StripRight(s)[|StripRight(s)| - 1])
    ensures StripRight(s) <= s
  {
    if s != [] && Space(s[|s| - 1]) { StripRightSolid(s[..|s| - 1]); }
  }

  lemma {:induction false} StripLeftSolid(s: string)
    ensures StripLeft(s) == "" || !Space(StripLeft(s)[0])
  {
    if s != [] && Space(s[0]) { StripLeftSolid(s[1..]); }
  }

  /** Stripping leaves nothing or a solid text. */
  lemma StripIsSolid(s: string)
    ensures Strip(s) == "" || Solid(Strip(s))
  {
    StripLeftSolid(s);
    StripRightSolid(StripLeft(s));
  }

  lemma StripSolid(s: string)
    ensures Solid(s) ==> Strip(s) == s && s != ""
  {}

  predicate AllSpace(s: string) { forall i | 0 <= i < |s| :: Space(s[i]) }

  lemma {:induction false} StripLeftBlank(s: string)
    ensures StripLeft(s) == "" <==> AllSpace(s)
  {
    if s != [] && Space(s[0]) {
      StripLeftBlank(s[1..]);
      assert forall i | 1 <= i < |s| :: s[i] == s[1..][i - 1];
    }
  }

  lemma {:induction false} StripRightBlank(s: string)
    ensures StripRight(s) == "" <==> AllSpace(s)
  {
    if s != [] && Space(s[|s| - 1]) {
      StripRightBlank(s[..|s| - 1]);
      assert forall i | 0 <= i < |s| - 1 :: s[i] == s[..|s| - 1][i];
    }
  }

  lemma StripBlank(s: string)
    ensures Strip(s) == "" <==> AllSpace(s)
  {
    StripLeftBlank(s);
    StripRightBlank(StripLeft(s));
    StripLeftSolid(s);
  }

  lemma Associative(a: string, b: string, c: string)
    ensures a + (b + c) == (a + b) + c
  {}

  lemma {:induction false} JoinSolid(sep: string, parts: seq<string>)
    requires parts != [] && AllSolid(parts)
    ensures Solid(Join(sep, parts))
  {
    if |parts| > 1 { JoinSolid(sep, parts[..|parts| - 1]); }
  }

  lemma {:induction false} JoinAppend(sep: string, a: seq<string>, b: seq<string>)
    requires a != [] && b != []
    ensures Join(sep, a + b) == Join(sep, a) + sep + Join(sep, b)
  {
    var ab, n := a + b, |b| - 1;
    if n == 0 {
      assert ab[..|ab| - 1] == a;
    } else {
      JoinAppend(sep, a, b[..n]);
      assert ab[..|ab| - 1] == a + b[..n];
    }
  }

  // ---------------------------------------------------------------- tokens

  /** The tokenizer is foreign code: any pair of functions. */
  datatype Tokenizer = Tokenizer(encode: string -> seq<nat>, decode: seq<nat> -> string)
  {
    function Count(s: string): nat { |encode(s)| }

    function Sum(parts: seq<string>): nat {
      if parts == [] then 0 else Sum(parts[..|parts| - 1]) + Count(parts[|parts| - 1])
    }

    /** Joining paragraphs costs exactly one token, the constant the chunker budgets for it. */
    ghost predicate ParagraphJoinCostsOne() {
      forall a, b | Solid(a) && Solid(b) :: Count(a + "\n\n" + b) == Count(a) + 1 + Count(b)
    }

    /** Joining a paragraph to any text costs at most that. */
    ghost predicate ParagraphJoinCostsAtMostOne() {
      forall a, b | a != "" && Solid(b) :: Count(a + "\n\n" + b) <= Count(a) + 1 + Count(b)
    }

    /** Joining sentences with a space costs nothing. */
    ghost predicate SentenceJoinIsFree() {
      forall a, b | Solid(a) && Solid(b) :: Count(a + " " + b) <= Count(a) + Count(b)
    }

    /** Tokens decode to some text, and re-encoding that text takes no more tokens. */
    ghost predicate WindowsAreStable() {
      forall ids | ids != [] :: decode(ids) != "" && Count(decode(ids)) <= |ids|
    }

    ghost predicate Measured() {
      ParagraphJoinCostsOne() && ParagraphJoinCostsAtMostOne() && SentenceJoinIsFree() && WindowsAreStable()
    }
  }

  lemma {:induction false} SumAppend(tk: Tokenizer, a: seq<string>, b: seq<string>)
    ensures tk.Sum(a + b) == tk.Sum(a) + tk.Sum(b)
  {
    if b == [] {
      assert a + b == a;
    } else {
      SumAppend(tk, a, b[..|b| - 1]);
      assert (a + b)[..|a + b| - 1] == a + b[..|b| - 1];
    }
  }

  lemma {:induction false} ParagraphCount(tk: Tokenizer, parts: seq<string>)
    requires tk.ParagraphJoinCostsOne() && parts != [] && AllSolid(parts)
    ensures tk.Count(Join("\n\n", parts)) == tk.Sum(parts) + |parts| - 1
  {
    if |parts| == 1 {
      assert parts[..0] == [];
    } else {
      ParagraphCount(tk, parts[..|parts| - 1]);
      JoinSolid("\n\n", parts[..|parts| - 1]);
    }
  }

  lemma {:induction false} SentenceCount(tk: Tokenizer, parts: seq<string>)
    requires tk.SentenceJoinIsFree() && parts != [] && AllSolid(parts)
    ensures tk.Count(Join(" ", parts)) <= tk.Sum(parts)
  {
    if |parts| > 1 {
      SentenceCount(tk, parts[..|parts| - 1]);
      JoinSolid(" ", parts[..|parts| - 1]);
    } else {
      assert parts[..0] == [];
    }
  }
}
