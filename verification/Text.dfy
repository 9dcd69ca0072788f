/** The string operations the client's tolerant matching is made of, on ASCII:
    str.lower, str.strip, and "_".join(s.split()). */
module Text {
  function LowerChar(c: char): char {
    if 'A' <= c <= 'Z' then c + ' ' else c
  }

  function Lower(s: string): (r: string)
    ensures |r| == |s| && forall i :: 0 <= i < |s| ==> r[i] == LowerChar(s[i])
  {
    seq(|s|, i requires 0 <= i < |s| => LowerChar(s[i]))
  }

  predicate IsSpace(c: char) {
    c == ' ' || '\t' <= c <= '\r' || '\U{1c}' <= c <= '\U{1f}'
  }

  function StripLeft(s: string): (r: string)
    ensures |r| <= |s| && (r != [] ==> !IsSpace(r[0]))
  {
    if s != [] && IsSpace(s[0]) then StripLeft(s[1..]) else s
  }

  function StripRight(s: string): string {
    if s != [] && IsSpace(s[|s| - 1]) then StripRight(s[..|s| - 1]) else s
  }

  function Strip(s: string): string {
    StripRight(StripLeft(s))
  }

  /** Runs of whitespace between words become one underscore. */
  function Joined(s: string): string
    decreases |s|
  {
    var t := StripLeft(s);
    if t == [] then [] else
      var n := WordLength(t);
      var rest := StripLeft(t[n..]);
      if rest == [] then t[..n] else t[..n] + "_" + Joined(rest)
  }

  function WordLength(s: string): (n: nat)
    ensures n <= |s| && (s != [] && !IsSpace(s[0]) ==> n > 0)
  {
    if s == [] || IsSpace(s[0]) then 0 else 1 + WordLength(s[1..])
  }

  /** Nothing to strip at either end. */
  predicate Trim(s: string) {
    s != [] ==> !IsSpace(s[0]) && !IsSpace(s[|s| - 1])
  }

  lemma {:induction false} StripRightTrims(s: string)
    ensures var r := StripRight(s); r <= s && (r != [] ==> !IsSpace(r[|r| - 1]))
  {
    if s != [] && IsSpace(s[|s| - 1]) { StripRightTrims(s[..|s| - 1]); }
  }

  lemma StripTrims(s: string)
    ensures Trim(Strip(s))
  {
    StripRightTrims(StripLeft(s));
  }

  /** One lower-case word: every operation leaves it as it is. */
  predicate PlainWord(s: string) {
    s != [] && forall i :: 0 <= i < |s| ==> !IsSpace(s[i]) && !('A' <= s[i] <= 'Z')
  }

  lemma {:induction false} OneWord(s: string)
    requires forall i :: 0 <= i < |s| ==> !IsSpace(s[i])
    ensures WordLength(s) == |s|
  {
    if s != [] { OneWord(s[1..]); }
  }

  lemma PlainWordStays(s: string)
    requires PlainWord(s)
    ensures Strip(s) == s && Lower(s) == s && Joined(s) == s
  {
    OneWord(s);
    assert Lower(s) == s;
    assert s[..|s|] == s;
  }

  /** A stripped and lower-cased string stays as it is when done again. */
  lemma StripLowerOnce(s: string)
    ensures var t := Lower(Strip(s)); Lower(Strip(t)) == t
  {
    StripTrims(s);
    var t := Lower(Strip(s));
    assert Trim(t);
    assert Strip(t) == t;
    assert Lower(t) == t;
  }

  /** Words further apart are joined by one underscore. */
  lemma TwoWords(a: string, gap: string, b: string)
    requires PlainWord(a) && PlainWord(b) && gap != [] && forall i :: 0 <= i < |gap| ==> IsSpace(gap[i])
    ensures Joined(a + gap + b) == a + "_" + b
  {
    var s := a + gap + b;
    WordThen(a, gap + b);
    assert a + (gap + b) == s && s[|a|..] == gap + b;
    BlankThen(gap, b);
    OneWord(b);
    assert s[..|a|] == a && b[..|b|] == b;
  }

  lemma {:induction false} WordThen(a: string, rest: string)
    requires rest != [] && IsSpace(rest[0]) && forall i :: 0 <= i < |a| ==> !IsSpace(a[i])
    ensures WordLength(a + rest) == |a|
  {
    if a != [] {
      assert (a + rest)[1..] == a[1..] + rest;
      WordThen(a[1..], rest);
    }
  }

  // ----- Letter case and surrounding space -----

  /** The word, in any letter case. */
  predicate Spells(w: string, word: string) {
    |w| == |word| &&
    forall i :: 0 <= i < |w| ==>
      w[i] == word[i] || ('a' <= word[i] <= 'z' && w[i] as int == word[i] as int - 32)
  }

  predicate NoCapitals(word: string) {
    forall i :: 0 <= i < |word| ==> !('A' <= word[i] <= 'Z')
  }

  lemma LowerSpells(w: string, word: string)
    requires NoCapitals(word)
    ensures Lower(w) == word <==> Spells(w, word)
  {
    if Lower(w) == word {
      forall i | 0 <= i < |w| ensures w[i] == word[i] || ('a' <= word[i] <= 'z' && w[i] as int == word[i] as int - 32) {
        assert LowerChar(w[i]) == word[i];
      }
    }
    if Spells(w, word) {
      forall i | 0 <= i < |w| ensures Lower(w)[i] == word[i] { assert LowerChar(w[i]) == word[i]; }
    }
  }

  predicate Blank(s: string) {
    forall i :: 0 <= i < |s| ==> IsSpace(s[i])
  }

  lemma {:induction false} BlankThen(gap: string, b: string)
    requires Blank(gap) && b != [] && !IsSpace(b[0])
    ensures StripLeft(gap + b) == b
  {
    if gap != [] {
      assert (gap + b)[1..] == gap[1..] + b;
      BlankThen(gap[1..], b);
    } else {
      assert gap + b == b;
    }
  }

  lemma {:induction false} ThenBlank(b: string, gap: string)
    requires Blank(gap) && b != [] && !IsSpace(b[|b| - 1])
    ensures StripRight(b + gap) == b
  {
    if gap != [] {
      assert (b + gap)[..|b + gap| - 1] == b + gap[..|gap| - 1];
      ThenBlank(b, gap[..|gap| - 1]);
    } else {
      assert b + gap == b;
    }
  }

  /** Space around is stripped, whatever stands between. */
  lemma Stripped(lead: string, w: string, trail: string)
    requires Blank(lead) && Blank(trail) && w != [] && !IsSpace(w[0]) && !IsSpace(w[|w| - 1])
    ensures Strip(lead + w + trail) == w
  {
    assert lead + w + trail == lead + (w + trail);
    BlankThen(lead, w + trail);
    ThenBlank(w, trail);
  }

  /** A letter of a word in another case is no space either. */
  lemma SpelledSolid(w: string, word: string)
    requires Spells(w, word) && PlainWord(word)
    ensures w != [] && !IsSpace(w[0]) && !IsSpace(w[|w| - 1])
  {
  }
}
