/**
 Splitting a reply into balloons (apps/core/src/conversation/humanize.ts:2-18). The text is a sequence of
 UTF-16 code units, as JavaScript measures and matches it.
 */
module Humanize {
  import opened Prelude
  import opened SendConfig

  type Text = seq<CodeUnit>

  const SHORT := 140
  const BLANK: CodeUnit := 0x20

  /** `.`, `!` or `?`. */
  predicate Ends(c: CodeUnit) {
    c == 0x2E || c == 0x21 || c == 0x3F
  }

  /** What `trim` strips and `\S` excludes: white space and line terminators of ECMA-262, sections 12.2 and 12.3. */
  predicate Space(c: CodeUnit) {
    || 0x09 <= c <= 0x0D || c == 0x20 || c == 0xA0 || c == 0x1680 || 0x2000 <= c <= 0x200A
    || c == 0x2028 || c == 0x2029 || c == 0x202F || c == 0x205F || c == 0x3000 || c == 0xFEFF
  }

  /** The three marks, and the white space among the characters of ASCII. */
  lemma MarksAndBlanks(c: char)
    requires c as int < 0x80
    ensures Ends(c as int) <==> c in ".!?"
    ensures Space(c as int) <==> c in " \t\n\r\U{0B}\U{0C}"
  {
    assert ".!?" == ['.', '!', '?'];
    assert " \t\n\r\U{0B}\U{0C}" == [' ', '\t', '\n', '\r', '\U{0B}', '\U{0C}'];
  }

  function TrimStart(s: Text): Text {
    if s != [] && Space(s[0]) then TrimStart(s[1..]) else s
  }

  function TrimEnd(s: Text): Text {
    if s != [] && Space(s[|s| - 1]) then TrimEnd(s[..|s| - 1]) else s
  }

  function Trim(s: Text): Text {
    TrimEnd(TrimStart(s))
  }

  // ---------------------------------------------------------------- sentences

  /** How many code units at the front of `s` end a sentence (`ends`), or do not. */
  function Leading(s: Text, ends: bool): (n: nat)
    ensures n <= |s|
    ensures forall i :: 0 <= i < n ==> Ends(s[i]) == ends
    ensures n < |s| ==> Ends(s[n]) != ends
  {
    if s == [] || Ends(s[0]) != ends then 0 else 1 + Leading(s[1..], ends)
  }

  /**
   The length of the match of `[^.!?]+[.!?]+|\S[^.!?]*$` at the front of `s`, 0 for none: a sentence with its
   marks, or else everything to the end of the text when no mark follows the first code unit.
   */
  function Match(s: Text): (n: nat)
    ensures n <= |s|
  {
    var run := Leading(s, false);
    if 0 < run < |s| then run + Leading(s[run..], true)
    else if s != [] && !Space(s[0]) && Leading(s[1..], false) == |s| - 1 then |s|
    else 0
  }

  /** All matches, left to right; a code unit at which nothing matches is passed over. */
  function Matches(s: Text): seq<Text>
    decreases |s|
  {
    if s == [] then []
    else if Match(s) > 0 then [s[..Match(s)]] + Matches(s[Match(s)..])
    else Matches(s[1..])
  }

  function TrimmedOnes(ms: seq<Text>): seq<Text> {
    if ms == [] then []
    else (if Trim(ms[0]) == [] then [] else [Trim(ms[0])]) + TrimmedOnes(ms[1..])
  }

  function Sentences(t: Text): seq<Text> {
    if Matches(t) == [] then [t] else TrimmedOnes(Matches(t))
  }

  // ---------------------------------------------------------------- balloons

  function Join(ss: seq<Text>): Text {
    if ss == [] then [] else if |ss| == 1 then ss[0] else ss[0] + [BLANK] + Join(ss[1..])
  }

  function CeilDiv(n: nat, k: nat): nat
    requires 0 < k
  {
    (n + k - 1) / k
  }

  /** Sentences in blocks of `size`, joined by blanks. */
  function Blocks(ss: seq<Text>, size: nat): seq<Text>
    requires 0 < size
  {
    if ss == [] then []
    else
      var n := if size < |ss| then size else |ss|;
      [Join(ss[..n])] + Blocks(ss[n..], size)
  }

  function Take<T>(s: seq<T>, n: nat): seq<T> {
    if n < |s| then s[..n] else s
  }

  function Split(text: Text, maxParts: nat): seq<Text>
    requires 0 < maxParts
  {
    var t := Trim(text);
    if |t| <= SHORT || |Sentences(t)| <= 1 then [t]
    else Take(Blocks(Sentences(t), CeilDiv(|Sentences(t)|, maxParts)), maxParts)
  }

  lemma Product(a: nat, b: nat, c: nat)
    requires c <= b
    ensures a * c <= a * b
  {
  }

  /** A quotient is what brackets the dividend. */
  lemma QuotientIs(n: nat, size: nat, q: nat)
    requires 0 < size && size * q <= n < size * q + size
    ensures n / size == q
  {
    var q', r' := n / size, n % size;
    assert n == size * q' + r' && r' < size;
    assert size * (q + 1) == size * q + size;
    assert size * (q' + 1) == size * q' + size;
    if q' > q {
      Product(size, q', q + 1);
    } else if q' < q {
      Product(size, q, q' + 1);
    }
  }

  lemma QuotientBrackets(n: nat, size: nat)
    requires 0 < size
    ensures size * (n / size) <= n < size * (n / size) + size
  {
    assert n == size * (n / size) + n % size;
  }

  lemma OneMore(n: nat, size: nat)
    requires 0 < size
    ensures (n + size) / size == n / size + 1
  {
    QuotientBrackets(n, size);
    assert size * (n / size + 1) == size * (n / size) + size;
    QuotientIs(n + size, size, n / size + 1);
  }

  /** Rounding up twice stays within the bound: blocks of `ceil(n / k)` are at most `k`. */
  lemma CeilTwice(n: nat, k: nat)
    requires 0 < n && 0 < k
    ensures 0 < CeilDiv(n, k) && CeilDiv(n, CeilDiv(n, k)) <= k
  {
    var size := CeilDiv(n, k);
    OneMore(n - 1, k);
    QuotientBrackets(n + k - 1, k);
    assert n <= k * size;
    QuotientBrackets(n + size - 1, size);
    var blocks := CeilDiv(n, size);
    assert size * blocks < size * k + size;
    assert size * (k + 1) == size * k + size;
    if blocks > k {
      Product(size, blocks, k + 1);
    }
  }

  lemma CeilStep(n: nat, size: nat)
    requires 0 < n && 0 < size
    ensures CeilDiv(n, size) == if size < n then 1 + CeilDiv(n - size, size) else 1
  {
    OneMore(n - 1, size);
    if size < n {
      assert (n - size) + size - 1 == n - 1;
    } else {
      assert size * 0 == 0;
      QuotientIs(n - 1, size, 0);
    }
  }

  lemma {:induction false} BlocksAreFew(ss: seq<Text>, size: nat)
    requires 0 < size
    ensures |Blocks(ss, size)| == CeilDiv(|ss|, size)
  {
    if ss == [] {
      assert size * 0 == 0;
      QuotientIs(size - 1, size, 0);
    } else {
      CeilStep(|ss|, size);
      if size < |ss| {
        BlocksAreFew(ss[size..], size);
      }
    }
  }

  // ---------------------------------------------------------------- what trimming and matching leave

  /** `a` and `b` bracket what trimming leaves: white space outside, none at its ends. */
  ghost predicate Trimmed(s: Text, a: nat, b: nat) {
    && a <= b <= |s|
    && (forall i :: 0 <= i < a || b <= i < |s| ==> Space(s[i]))
    && (a < b ==> !Space(s[a]) && !Space(s[b - 1]))
  }

  lemma {:induction false} TrimStartLeaves(s: Text)
    ensures var a := |s| - |TrimStart(s)|;
      && 0 <= a && TrimStart(s) == s[a..] && (forall i :: 0 <= i < a ==> Space(s[i])) && (a < |s| ==> !Space(s[a]))
  {
    if s != [] && Space(s[0]) {
      TrimStartLeaves(s[1..]);
      assert forall i :: 0 < i < |s| ==> s[i] == s[1..][i - 1];
    }
  }

  lemma {:induction false} TrimEndLeaves(s: Text)
    ensures var b := |TrimEnd(s)|;
      && b <= |s| && TrimEnd(s) == s[..b] && (forall i :: b <= i < |s| ==> Space(s[i])) && (b > 0 ==> !Space(s[b - 1]))
  {
    if s != [] && Space(s[|s| - 1]) {
      TrimEndLeaves(s[..|s| - 1]);
      assert forall i :: 0 <= i < |s| - 1 ==> s[i] == s[..|s| - 1][i];
    }
  }

  /** Trimming takes white space off both ends, all of it and nothing else. */
  lemma TrimExactly(s: Text)
    ensures exists a: nat, b: nat :: Trimmed(s, a, b) && Trim(s) == s[a..b]
  {
    TrimStartLeaves(s);
    var a := |s| - |TrimStart(s)|;
    TrimEndLeaves(s[a..]);
    var b := a + |Trim(s)|;
    assert forall i :: a <= i < |s| ==> s[i] == s[a..][i - a];
    assert Trimmed(s, a, b);
  }

  /** Some text without a mark, then marks to the end: once a mark has come, only marks follow. */
  ghost predicate EndsInMarks(m: Text) {
    && m != [] && !Ends(m[0]) && Ends(m[|m| - 1])
    && forall i, k :: 0 <= i <= k < |m| && Ends(m[i]) ==> Ends(m[k])
  }

  /** A text that begins visibly and goes on without a mark. */
  ghost predicate Unfinished(m: Text) {
    m != [] && !Space(m[0]) && forall i :: 0 < i < |m| ==> !Ends(m[i])
  }

  lemma MatchIsASentence(s: Text)
    requires Match(s) > 0
    ensures var m := s[..Match(s)]; EndsInMarks(m) || (m == s && Unfinished(m))
  {
    var m, run := s[..Match(s)], Leading(s, false);
    if 0 < run < |s| {
      assert forall i :: run <= i < |s| ==> s[i] == s[run..][i - run];
    } else {
      assert forall i :: 0 < i < |s| ==> s[i] == s[1..][i - 1];
    }
  }

  /** `m` is how `s` ends. */
  predicate EndOf(s: Text, m: Text) {
    |m| <= |s| && s[|s| - |m|..] == m
  }

  lemma EndOfRest(s: Text, n: nat, m: Text)
    requires n <= |s| && EndOf(s[n..], m)
    ensures EndOf(s, m)
  {
    assert s[n..][|s| - n - |m|..] == s[|s| - |m|..];
  }

  ghost predicate SentenceOf(s: Text, m: Text, last: bool) {
    EndsInMarks(m) || (last && Unfinished(m) && EndOf(s, m))
  }

  ghost predicate SentenceAt(s: Text, ms: seq<Text>, j: nat) {
    j < |ms| && SentenceOf(s, ms[j], j == |ms| - 1)
  }

  /** A sentence of what follows is one of the whole text. */
  lemma SentenceOfRest(s: Text, n: nat, ms: seq<Text>, head: seq<Text>, rest: seq<Text>, j: nat)
    requires n <= |s| && ms == head + rest && |head| <= j && SentenceAt(s[n..], rest, j - |head|)
    ensures SentenceAt(s, ms, j)
  {
    assert ms[j] == rest[j - |head|];
    if !EndsInMarks(ms[j]) {
      EndOfRest(s, n, ms[j]);
    }
  }

  lemma NothingAfterTheEnd(s: Text)
    requires Match(s) == |s| > 0
    ensures Matches(s) == [s]
  {
    assert s[..|s|] == s && s[|s|..] == [];
  }

  /** How far the search moves on from the front of `s`. */
  function Stride(s: Text): (n: nat)
    requires s != []
    ensures 0 < n <= |s|
  {
    if Match(s) == 0 then 1 else Match(s)
  }

  function FirstMatch(s: Text): seq<Text>
    requires s != []
  {
    if Match(s) == 0 then [] else [s[..Match(s)]]
  }

  lemma MatchesGoOn(s: Text)
    requires s != []
    ensures Matches(s) == FirstMatch(s) + Matches(s[Stride(s)..])
  {
  }

  lemma LaterMatch(s: Text, head: seq<Text>, s': Text, j: nat)
    requires Matches(s) == head + Matches(s') && |head| <= j < |Matches(s)|
    ensures 0 <= j - |head| < |Matches(s')|
  {
  }

  lemma FirstMatchIsASentence(s: Text)
    requires s != [] && FirstMatch(s) != []
    ensures SentenceAt(s, Matches(s), 0)
  {
    MatchIsASentence(s);
    if Match(s) == |s| {
      NothingAfterTheEnd(s);
    }
  }

  /**
   Where sentences end: every match is some text without a mark followed by marks to its end; only the last can be
   without marks behind it, and then the text ends with it.
   */
  lemma {:induction false} MatchesAreSentences(s: Text, j: nat)
    requires j < |Matches(s)|
    ensures SentenceAt(s, Matches(s), j)
    decreases |s|
  {
    MatchesGoOn(s);
    var head, n := FirstMatch(s), Stride(s);
    if j < |head| {
      FirstMatchIsASentence(s);
    } else {
      LaterMatch(s, head, s[n..], j);
      MatchesAreSentences(s[n..], j - |head|);
      SentenceOfRest(s, n, Matches(s), head, Matches(s[n..]), j);
    }
  }

  /** Joining is associative over a single blank. */
  lemma {:induction false} JoinConcat(a: seq<Text>, b: seq<Text>)
    requires a != [] && b != []
    ensures Join(a + b) == Join(a) + [0x20] + Join(b)
  {
    if |a| == 1 {
      assert (a + b)[1..] == b;
    } else {
      assert (a + b)[1..] == a[1..] + b;
      JoinConcat(a[1..], b);
    }
  }

  /**
   How many balloons: a short text and a single sentence stay whole; a long text of `n` sentences, two or more, is
   split into as many as blocks of `ceil(n / maxParts)` sentences give.
   */
  lemma BalloonsExactly(text: Text, maxParts: nat)
    requires 0 < maxParts
    ensures var t := Trim(text); var n := |Sentences(t)|;
      if |t| <= 140 || n <= 1 then Split(text, maxParts) == [t]
      else |Split(text, maxParts)| == CeilDiv(n, CeilDiv(n, maxParts))
  {
    var ss := Sentences(Trim(text));
    if |ss| > 1 {
      CeilTwice(|ss|, maxParts);
      BlocksAreFew(ss, CeilDiv(|ss|, maxParts));
    }
  }

  // ---------------------------------------------------------------- nothing is lost

  /** The text without its white space. */
  function Ink(s: Text): Text {
    if s == [] then [] else (if Space(s[0]) then [] else [s[0]]) + Ink(s[1..])
  }

  function InkOf(parts: seq<Text>): Text {
    if parts == [] then [] else Ink(parts[0]) + InkOf(parts[1..])
  }

  lemma {:induction false} InkConcat(a: Text, b: Text)
    ensures Ink(a + b) == Ink(a) + Ink(b)
  {
    if a == [] {
      assert a + b == b;
    } else {
      assert (a + b)[1..] == a[1..] + b;
      InkConcat(a[1..], b);
    }
  }

  lemma {:induction false} TrimKeepsInk(s: Text)
    ensures Ink(TrimStart(s)) == Ink(s) && Ink(TrimEnd(s)) == Ink(s)
  {
    if s != [] {
      TrimKeepsInk(s[1..]);
      var n := |s| - 1;
      TrimKeepsInk(s[..n]);
      InkConcat(s[..n], s[n..]);
      assert s == s[..n] + s[n..];
      assert s[n..] == [s[n]] && s[n..][1..] == [];
    }
  }

  lemma {:induction false} SentencesKeepInk(ms: seq<Text>)
    ensures InkOf(TrimmedOnes(ms)) == InkOf(ms)
  {
    if ms != [] {
      var m := ms[0];
      TrimKeepsInk(m);
      TrimKeepsInk(TrimStart(m));
      SentencesKeepInk(ms[1..]);
      var rest := TrimmedOnes(ms[1..]);
      if Trim(m) == [] {
        assert TrimmedOnes(ms) == rest;
      } else {
        assert TrimmedOnes(ms)[1..] == rest;
      }
    }
  }

  lemma BlankHasNoInk(s: Text, rest: Text)
    ensures Ink(s + [BLANK] + rest) == Ink(s) + Ink(rest)
  {
    var tail := [BLANK] + rest;
    assert s + [BLANK] + rest == s + tail;
    assert tail[1..] == rest;
    InkConcat(s, tail);
  }

  lemma {:induction false} InkOfConcat(a: seq<Text>, b: seq<Text>)
    ensures InkOf(a + b) == InkOf(a) + InkOf(b)
  {
    if a == [] {
      assert a + b == b;
    } else {
      assert (a + b)[1..] == a[1..] + b;
      InkOfConcat(a[1..], b);
    }
  }

  lemma InkOfCons(m: Text, ms: seq<Text>)
    ensures InkOf([m] + ms) == Ink(m) + InkOf(ms)
  {
    assert ([m] + ms)[1..] == ms;
  }

  lemma InkOfOne(m: Text)
    ensures InkOf([m]) == Ink(m)
  {
    InkOfCons(m, []);
    assert [m] + [] == [m];
  }

  lemma {:induction false} JoinKeepsInk(ss: seq<Text>)
    ensures Ink(Join(ss)) == InkOf(ss)
  {
    if |ss| == 1 {
      InkOfOne(ss[0]);
      assert ss == [ss[0]];
    } else if ss != [] {
      JoinKeepsInk(ss[1..]);
      BlankHasNoInk(ss[0], Join(ss[1..]));
    }
  }

  lemma {:induction false} BlocksKeepInk(ss: seq<Text>, size: nat)
    requires 0 < size
    ensures InkOf(Blocks(ss, size)) == InkOf(ss)
  {
    if ss != [] {
      var n := if size < |ss| then size else |ss|;
      BlocksKeepInk(ss[n..], size);
      JoinKeepsInk(ss[..n]);
      InkOfConcat(ss[..n], ss[n..]);
      assert ss == ss[..n] + ss[n..];
      assert Blocks(ss, size)[1..] == Blocks(ss[n..], size);
    }
  }

  lemma InkAtCut(s: Text, head: Text, tail: Text)
    requires s == head + tail
    ensures Ink(s) == Ink(head) + Ink(tail)
  {
    InkConcat(head, tail);
  }

  lemma MatchShowsItsInk(s: Text)
    requires Match(s) > 0
    ensures InkOf(Matches(s)) == Ink(s[..Match(s)]) + InkOf(Matches(s[Match(s)..]))
  {
    InkOfCons(s[..Match(s)], Matches(s[Match(s)..]));
  }

  /** Where nothing matches and no mark stands, only white space is passed over. */
  lemma PassedOverIsSpace(s: Text)
    requires s != [] && !Ends(s[0]) && Match(s) == 0
    ensures Space(s[0]) && (|s| > 1 ==> !Ends(s[1]))
  {
    assert Leading(s, false) == |s|;
    assert forall i :: 0 <= i < |s| ==> !Ends(s[i]);
    var rest := s[1..];
    assert forall i :: 0 <= i < |rest| ==> rest[i] == s[i + 1];
    assert Leading(rest, false) == |rest|;
  }

  /** After a match the text is at its end, or past the marks of a sentence. */
  lemma MatchEndsASentence(s: Text)
    requires Match(s) > 0
    ensures Match(s) < |s| ==> !Ends(s[Match(s)])
  {
    var run := Leading(s, false);
    if 0 < run < |s| {
      var marks := Leading(s[run..], true);
      assert run + marks < |s| ==> s[run..][marks] == s[run + marks];
    }
  }

  /** From a place that does not end a sentence, the matches pass over white space only. */
  lemma {:induction false} MatchesKeepInk(s: Text)
    requires s != [] ==> !Ends(s[0])
    ensures InkOf(Matches(s)) == Ink(s)
    decreases |s|
  {
    if s != [] {
      var n := Match(s);
      if n > 0 {
        MatchEndsASentence(s);
        MatchesKeepInk(s[n..]);
        assert s == s[..n] + s[n..];
        InkAtCut(s, s[..n], s[n..]);
        MatchShowsItsInk(s);
      } else {
        PassedOverIsSpace(s);
        MatchesKeepInk(s[1..]);
      }
    }
  }

  /** Matches never show more ink than the text has. */
  lemma {:induction false} MatchesNeverAdd(s: Text)
    ensures |InkOf(Matches(s))| <= |Ink(s)|
    decreases |s|
  {
    if s != [] {
      var n := Match(s);
      if n > 0 {
        MatchesNeverAdd(s[n..]);
        assert s == s[..n] + s[n..];
        InkAtCut(s, s[..n], s[n..]);
        MatchShowsItsInk(s);
      } else {
        MatchesNeverAdd(s[1..]);
      }
    }
  }

  /** The texts that lose their leading marks: long, beginning with a mark, and more than one sentence after it. */
  predicate LosesMarks(text: Text) {
    var t := Trim(text);
    |t| > SHORT && Ends(t[0]) && |Sentences(t)| > 1
  }

  lemma SplitInk(text: Text, maxParts: nat)
    requires 0 < maxParts
    ensures |Split(text, maxParts)| <= maxParts
    ensures var t := Trim(text);
      InkOf(Split(text, maxParts)) == if |t| <= SHORT || |Sentences(t)| <= 1 then Ink(text) else InkOf(Matches(t))
  {
    var t := Trim(text);
    TrimKeepsInk(text);
    TrimKeepsInk(TrimStart(text));
    if |t| <= SHORT || |Sentences(t)| <= 1 {
      InkOfOne(t);
    } else {
      var ss := Sentences(t);
      var size := CeilDiv(|ss|, maxParts);
      CeilTwice(|ss|, maxParts);
      BlocksAreFew(ss, size);
      BlocksKeepInk(ss, size);
      SentencesKeepInk(Matches(t));
    }
  }

  /** Where leading marks are lost, ink is: the first of them matches nothing. */
  lemma LeadingMarksAreLost(t: Text)
    requires t != [] && Ends(t[0]) && |Sentences(t)| > 1
    ensures InkOf(Matches(t)) != Ink(t)
  {
    var n := Match(t);
    if n > 0 {
      WholeMatchIsOneSentence(t);
    } else {
      MatchesNeverAdd(t[1..]);
      assert !Space(t[0]);
    }
  }

  lemma WholeMatchIsOneSentence(t: Text)
    requires t != [] && Ends(t[0]) && Match(t) > 0
    ensures |Sentences(t)| == 1
  {
    var n := Match(t);
    assert n == |t| && t[..n] == t && t[n..] == [];
    var ms := Matches(t);
    assert ms == [t[..n]] + Matches(t[n..]);
    assert Matches(t[n..]) == [];
    assert ms[1..] == [];
    assert TrimmedOnes(ms[1..]) == [];
    TrimKeepsInk(t);
    TrimKeepsInk(TrimStart(t));
    assert Ink(t) != [];
  }

  /**
   Splitting gives at most `maxParts` balloons, and they hold every non-blank code unit of the text in order
   exactly when the text is not one that loses its leading marks.
   */
  lemma SplitLosesNothingExactly(text: Text, maxParts: nat)
    requires 0 < maxParts
    ensures |Split(text, maxParts)| <= maxParts
    ensures InkOf(Split(text, maxParts)) == Ink(text) <==> !LosesMarks(text)
  {
    var t := Trim(text);
    SplitInk(text, maxParts);
    TrimKeepsInk(text);
    TrimKeepsInk(TrimStart(text));
    if |t| > SHORT && |Sentences(t)| > 1 {
      if Ends(t[0]) {
        LeadingMarksAreLost(t);
      } else {
        MatchesKeepInk(t);
      }
    }
  }

  function Slice<T>(s: seq<T>, i: nat, size: nat): seq<T>
    requires i <= |s|
  {
    if i + size < |s| then s[i..i + size] else s[i..]
  }

  /** The blocks from sentence `i` on. */
  function BlocksFrom(ss: seq<Text>, i: nat, size: nat): seq<Text>
    requires 0 < size
  {
    if i < |ss| then Blocks(ss[i..], size) else []
  }

  lemma NextBlock(ss: seq<Text>, i: nat, size: nat)
    requires 0 < size && i < |ss|
    ensures BlocksFrom(ss, i, size) == [Join(Slice(ss, i, size))] + BlocksFrom(ss, i + size, size)
  {
    var rest := ss[i..];
    var n := if size < |rest| then size else |rest|;
    var tail := rest[n..];
    assert Blocks(rest, size) == [Join(rest[..n])] + Blocks(tail, size);
    assert rest[..n] == Slice(ss, i, size);
    if i + size < |ss| {
      assert tail == ss[i + size..];
    } else {
      assert tail == [];
    }
  }

  lemma Regroup(parts: seq<Text>, part: Text, rest: seq<Text>)
    ensures parts + ([part] + rest) == (parts + [part]) + rest
  {
  }

  /** The source's loop over blocks. */
  method Group(sentences: seq<Text>, perPart: nat) returns (parts: seq<Text>)
    requires 0 < perPart
    ensures parts == Blocks(sentences, perPart)
  {
    parts := [];
    var i: nat := 0;
    assert sentences[0..] == sentences;
    while i < |sentences|
      invariant parts + BlocksFrom(sentences, i, perPart) == Blocks(sentences, perPart)
      decreases |sentences| - i
    {
      NextBlock(sentences, i, perPart);
      var part := Join(Slice(sentences, i, perPart));
      Regroup(parts, part, BlocksFrom(sentences, i + perPart, perPart));
      parts := parts + [part];
      i := i + perPart;
    }
  }

  method SplitMessage(text: Text, maxParts: nat := 3) returns (parts: seq<Text>)
    requires 0 < maxParts
    ensures parts == Split(text, maxParts)
    ensures |parts| <= maxParts
    ensures InkOf(parts) == Ink(text) <==> !LosesMarks(text)
    ensures var t := Trim(text); var n := |Sentences(t)|;
      if |t| <= 140 || n <= 1 then parts == [t] else |parts| == CeilDiv(n, CeilDiv(n, maxParts))
  {
    SplitLosesNothingExactly(text, maxParts);
    BalloonsExactly(text, maxParts);
    var t := Trim(text);
    if |t| <= SHORT {
      return [t];
    }
    var sentences := Sentences(t);
    if |sentences| <= 1 {
      return [t];
    }
    CeilTwice(|sentences|, maxParts);
    parts := Group(sentences, CeilDiv(|sentences|, maxParts));
    parts := Take(parts, maxParts);
  }
}
