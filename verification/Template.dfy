/**
 Message templates (apps/core/src/common/template.ts:1-42): placeholders `{key}` and `{key|fallback}`, found
 left to right by one regular expression.
 */
module Template {
  import opened Prelude

  /** A template is literal characters and placeholders. */
  datatype Token = Text(c: char) | Var(key: string, fallback: Option<string>)

  predicate KeyChar(c: char) {
    'a' <= c <= 'z' || 'A' <= c <= 'Z' || '0' <= c <= '9' || c == '_'
  }

  /** What a token looks like in the template: `{key}` or `{key|fallback}`, or itself. */
  function Source(t: Token): string {
    match t
    case Text(c) => [c]
    case Var(key, fallback) => "{" + (key + Tail(fallback))
  }

  function Tail(fallback: Option<string>): string {
    match fallback
    case None => "}"
    case Some(text) => "|" + text + "}"
  }

  /** The placeholders of the regular expression's language. */
  predicate IsPlaceholder(t: Token) {
    && t.Var?
    && t.key != ""
    && (forall c :: c in t.key ==> KeyChar(c))
    && ClosedFallback(t.fallback)
  }

  predicate ClosedFallback(fallback: Option<string>) {
    fallback.Some? ==> '}' !in fallback.value
  }

  // ---------------------------------------------------------------- the scanner

  /** The length of the run of characters at the front of `s` that satisfy `p`. */
  function RunLength(s: string, p: char -> bool): (n: nat)
    ensures n <= |s|
    ensures forall i :: 0 <= i < n ==> p(s[i])
    ensures n < |s| ==> !p(s[n])
  {
    if s == "" || !p(s[0]) then 0 else 1 + RunLength(s[1..], p)
  }

  predicate NotBrace(c: char) { c != '}' }

  /** The optional fallback and the closing brace, if they are at the front of `s`. */
  function ScanTail(s: string): Option<Option<string>> {
    if s == "" then None
    else if s[0] == '}' then Some(None)
    else if s[0] == '|' then
      var f := RunLength(s[1..], NotBrace);
      if f < |s| - 1 then Some(Some(s[1..][..f])) else None
    else None
  }

  /** What follows the opening brace: a non-empty key, then the tail. */
  function ScanBody(body: string): Option<Token> {
    var k := RunLength(body, KeyChar);
    var tail := ScanTail(body[k..]);
    if k == 0 || tail.None? then None else Some(Var(body[..k], tail.value))
  }

  /** The match of the expression at the front of `s`. */
  function Scan(s: string): Option<Token> {
    if s == "" || s[0] != '{' then None else ScanBody(s[1..])
  }

  lemma RunIsUnique(s: string, p: char -> bool, n: nat)
    requires n <= |s| && (forall i :: 0 <= i < n ==> p(s[i])) && (n < |s| ==> !p(s[n]))
    ensures RunLength(s, p) == n
  {
  }

  lemma RunSatisfies(s: string, p: char -> bool, c: char)
    requires c in s[..RunLength(s, p)]
    ensures p(c)
  {
    var i: nat :| i < RunLength(s, p) && s[..RunLength(s, p)][i] == c;
    assert p(s[i]);
  }

  /** A run of `a` characters before one that is not such is where the scanner stops. */
  lemma RunOf(a: string, b: string, p: char -> bool)
    requires (forall c :: c in a ==> p(c)) && b != "" && !p(b[0])
    ensures RunLength(a + b, p) == |a|
  {
    forall i | 0 <= i < |a| ensures p((a + b)[i]) {
      assert (a + b)[i] == a[i];
    }
    assert (a + b)[|a|] == b[0];
    RunIsUnique(a + b, p, |a|);
  }

  lemma TailIsAPrefix(s: string)
    requires ScanTail(s).Some?
    ensures ClosedFallback(ScanTail(s).value) && Tail(ScanTail(s).value) <= s
  {
    if s[0] == '|' {
      var rest := s[1..];
      var f := RunLength(rest, NotBrace);
      if '}' in rest[..f] {
        RunSatisfies(rest, NotBrace, '}');
      }
      assert rest[f] == '}' && rest == rest[..f] + "}" + rest[f + 1..];
      assert s == "|" + rest;
      assert s == Tail(Some(rest[..f])) + rest[f + 1..];
    }
  }

  lemma TailIsScanned(fallback: Option<string>, rest: string)
    requires ClosedFallback(fallback)
    ensures ScanTail(Tail(fallback) + rest) == Some(fallback)
  {
    if fallback.Some? {
      var text, s := fallback.value, Tail(fallback) + rest;
      assert s[1..] == text + ("}" + rest);
      RunOf(text, "}" + rest, NotBrace);
      assert s[1..][..|text|] == text;
    }
  }

  lemma Halves(a: string, b: string)
    ensures (a + b)[..|a|] == a && (a + b)[|a|..] == b
  {
  }

  lemma PrefixOfRest(head: string, p: string, rest: string)
    requires p <= rest
    ensures head + p <= head + rest
  {
    var after := rest[|p|..];
    assert rest == p + after;
    assert head + rest == (head + p) + after;
  }

  lemma BodyIsAPrefix(body: string)
    requires ScanBody(body).Some?
    ensures var t := ScanBody(body).value; IsPlaceholder(t) && t.key + Tail(t.fallback) <= body
  {
    var t := ScanBody(body).value;
    var k := RunLength(body, KeyChar);
    TailIsAPrefix(body[k..]);
    PrefixOfRest(t.key, Tail(t.fallback), body[k..]);
    assert body == t.key + body[k..];
    forall c | c in t.key ensures KeyChar(c) {
      RunSatisfies(body, KeyChar, c);
    }
  }

  lemma ScanIsAPrefix(s: string)
    requires Scan(s).Some?
    ensures IsPlaceholder(Scan(s).value) && Source(Scan(s).value) <= s
  {
    var t := Scan(s).value;
    BodyIsAPrefix(s[1..]);
    PrefixOfRest("{", t.key + Tail(t.fallback), s[1..]);
    assert s == "{" + s[1..];
  }

  lemma BodyIsScanned(key: string, fallback: Option<string>, tail: string)
    requires IsPlaceholder(Var(key, fallback))
    requires tail != "" && !KeyChar(tail[0]) && ScanTail(tail) == Some(fallback)
    ensures ScanBody(key + tail) == Some(Var(key, fallback))
  {
    RunOf(key, tail, KeyChar);
    Halves(key, tail);
  }

  lemma PlaceholderIsScanned(t: Token, rest: string)
    requires IsPlaceholder(t)
    ensures Scan(Source(t) + rest) == Some(t)
  {
    var tail := Tail(t.fallback);
    TailIsScanned(t.fallback, rest);
    BodyIsScanned(t.key, t.fallback, tail + rest);
    ThreeParts("{", t.key, tail, rest);
    Halves("{", t.key + (tail + rest));
  }

  lemma ThreeParts(a: string, b: string, c: string, d: string)
    ensures (a + (b + c)) + d == a + (b + (c + d))
  {
  }

  /** The scanner against the language: it finds a placeholder exactly when one is at the front, and that one. */
  lemma ScanExactly(s: string, t: Token)
    ensures Scan(s) == Some(t) <==> IsPlaceholder(t) && Source(t) <= s
  {
    if Scan(s) == Some(t) {
      ScanIsAPrefix(s);
    } else if IsPlaceholder(t) && Source(t) <= s {
      var rest := s[|Source(t)|..];
      assert s == Source(t) + rest;
      PlaceholderIsScanned(t, rest);
    }
  }

  /** No placeholder begins at the front of `s`. */
  ghost predicate Literal(s: string) {
    forall t :: IsPlaceholder(t) ==> !(Source(t) <= s)
  }

  lemma LiteralExactly(s: string)
    ensures Literal(s) <==> Scan(s).None?
  {
    forall t ensures Scan(s) == Some(t) <==> IsPlaceholder(t) && Source(t) <= s {
      ScanExactly(s, t);
    }
  }

  // ---------------------------------------------------------------- the lexer

  /** The template as `replace` and `matchAll` see it. */
  function Lex(s: string): seq<Token>
    decreases |s|
  {
    if s == "" then []
    else if Scan(s).Some? then
      var t := Scan(s).value;
      ScanIsAPrefix(s);
      [t] + Lex(s[|Source(t)|..])
    else [Text(s[0])] + Lex(s[1..])
  }

  function Sources(ts: seq<Token>): string {
    if ts == [] then "" else Source(ts[0]) + Sources(ts[1..])
  }

  /** Every placeholder is one of the language, and no literal character is where one begins. */
  ghost predicate Leftmost(ts: seq<Token>) {
    ts == [] ||
    (&& (ts[0].Var? ==> IsPlaceholder(ts[0]))
     && (ts[0].Text? ==> Literal(Sources(ts)))
     && Leftmost(ts[1..]))
  }

  /** Lexing is lossless, and leaves no placeholder among the literals. */
  lemma {:induction false} LexIsLossless(s: string)
    ensures Sources(Lex(s)) == s && Leftmost(Lex(s))
    decreases |s|
  {
    if s != "" {
      var t := if Scan(s).Some? then Scan(s).value else Text(s[0]);
      if Scan(s).Some? {
        ScanIsAPrefix(s);
      } else {
        LiteralExactly(s);
      }
      var rest := s[|Source(t)|..];
      LexIsLossless(rest);
      assert s == Source(t) + rest;
      ReadingStarts(t, Lex(rest));
    }
  }

  lemma ReadingStarts(t: Token, ts: seq<Token>)
    ensures Sources([t] + ts) == Source(t) + Sources(ts)
    ensures Leftmost([t] + ts) <==>
      (t.Var? ==> IsPlaceholder(t)) && (t.Text? ==> Literal(Source(t) + Sources(ts))) && Leftmost(ts)
  {
    assert ([t] + ts)[1..] == ts;
  }

  lemma LexStarts(t: Token, rest: string)
    requires if t.Var? then IsPlaceholder(t) else Literal(Source(t) + rest)
    ensures Lex(Source(t) + rest) == [t] + Lex(rest)
  {
    Halves(Source(t), rest);
    if t.Var? {
      PlaceholderIsScanned(t, rest);
    } else {
      LiteralExactly(Source(t) + rest);
    }
  }

  /** There is no other way to read a template: any leftmost reading of it is what the lexer gives. */
  lemma {:induction false} LexIsUnique(ts: seq<Token>)
    requires Leftmost(ts)
    ensures Lex(Sources(ts)) == ts
  {
    if ts != [] {
      LexIsUnique(ts[1..]);
      LexStarts(ts[0], Sources(ts[1..]));
      assert ts == [ts[0]] + ts[1..];
    }
  }

  // ---------------------------------------------------------------- rendering

  /** Values by key; a key without a value (undefined or null) is absent. */
  type Context = map<string, string>

  predicate HasValue(ctx: Context, key: string) {
    key in ctx && ctx[key] != ""
  }

  function Substitute(t: Token, ctx: Context): string {
    match t
    case Text(c) => [c]
    case Var(key, fallback) => if HasValue(ctx, key) then ctx[key] else fallback.GetOr("")
  }

  function Render(ts: seq<Token>, ctx: Context): string {
    if ts == [] then "" else Substitute(ts[0], ctx) + Render(ts[1..], ctx)
  }

  function RenderTemplate(template: string, ctx: Context): string {
    Render(Lex(template), ctx)
  }

  lemma RenderStarts(t: Token, ts: seq<Token>, ctx: Context)
    ensures Render([t] + ts, ctx) == Substitute(t, ctx) + Render(ts, ctx)
  {
    assert ([t] + ts)[1..] == ts;
  }

  /** The keys of the language, and the fallbacks: word characters, and anything up to the closing brace. */
  predicate Writable(key: string, fallback: string) {
    && key != "" && '}' !in fallback
    && forall c :: c in key ==> 'a' <= c <= 'z' || 'A' <= c <= 'Z' || '0' <= c <= '9' || c == '_'
  }

  /**
   What a placeholder at the front of a template turns into, whatever follows it: the value of its key where that
   is not empty; otherwise its fallback, or nothing when it has none.
   */
  lemma PlaceholderRenders(key: string, fallback: string, rest: string, ctx: Context)
    requires Writable(key, fallback)
    ensures RenderTemplate("{" + (key + "}") + rest, ctx)
            == (if key in ctx then ctx[key] else "") + RenderTemplate(rest, ctx)
    ensures RenderTemplate("{" + (key + ("|" + fallback + "}")) + rest, ctx)
            == (if key in ctx && ctx[key] != "" then ctx[key] else fallback) + RenderTemplate(rest, ctx)
  {
    var bare, full := Var(key, None), Var(key, Some(fallback));
    LexStarts(bare, rest);
    LexStarts(full, rest);
    RenderStarts(bare, Lex(rest), ctx);
    RenderStarts(full, Lex(rest), ctx);
  }

  /** A character at which no placeholder begins, an opening brace among them, stays as it is. */
  lemma LiteralRenders(s: string, ctx: Context)
    requires s != "" && Literal(s)
    ensures RenderTemplate(s, ctx) == [s[0]] + RenderTemplate(s[1..], ctx)
  {
    LiteralExactly(s);
    RenderStarts(Text(s[0]), Lex(s[1..]), ctx);
  }

  /** The keys of the placeholders that satisfy `p`, each where it first occurs. */
  function Keys(ts: seq<Token>, p: Token -> bool): seq<string> {
    if ts == [] then []
    else
      var t, before := ts[|ts| - 1], Keys(ts[..|ts| - 1], p);
      if t.Var? && p(t) && t.key !in before then before + [t.key] else before
  }

  function Variables(template: string): seq<string> {
    Keys(Lex(template), (t: Token) => true)
  }

  function Lacks(ctx: Context): Token -> bool {
    (t: Token) => t.Var? && t.fallback.None? && !HasValue(ctx, t.key)
  }

  lemma {:induction false} KeysExactly(ts: seq<Token>, p: Token -> bool)
    ensures forall key :: key in Keys(ts, p) <==> exists t :: t in ts && t.Var? && p(t) && t.key == key
    ensures forall i, j :: 0 <= i < j < |Keys(ts, p)| ==> Keys(ts, p)[i] != Keys(ts, p)[j]
  {
    if ts != [] {
      var n := |ts| - 1;
      var before := Keys(ts[..n], p);
      KeysExactly(ts[..n], p);
      assert ts == ts[..n] + [ts[n]];
      forall key ensures key in Keys(ts, p) <==> exists t :: t in ts && t.Var? && p(t) && t.key == key {
        if key in before {
          var t :| t in ts[..n] && t.Var? && p(t) && t.key == key;
          assert t in ts;
        }
      }
    }
  }

  /** A key is listed behind those whose first occurrence comes before its own. */
  lemma {:induction false} KeysInOrder(ts: seq<Token>, p: Token -> bool, i: nat)
    requires i < |ts| && ts[i].Var? && p(ts[i]) && ts[i].key !in Keys(ts[..i], p)
    ensures Keys(ts[..i], p) + [ts[i].key] <= Keys(ts, p)
  {
    var n := |ts| - 1;
    if i < n {
      assert ts[..n][..i] == ts[..i];
      KeysInOrder(ts[..n], p, i);
    }
  }

  lemma {:induction false} RenderAgrees(ts: seq<Token>, ctx: Context, ctx': Context)
    requires forall t :: t in ts && t.Var? ==> Substitute(t, ctx) == Substitute(t, ctx')
    ensures Render(ts, ctx) == Render(ts, ctx')
  {
    if ts != [] {
      assert ts[0] in ts && forall t :: t in ts[1..] ==> t in ts;
      RenderAgrees(ts[1..], ctx, ctx');
    }
  }

  /** Rendering depends on the context only at the variables `extractVariables` lists. */
  lemma RenderUsesOnlyItsVariables(template: string, ctx: Context, ctx': Context)
    requires forall key :: key in Variables(template) ==>
      HasValue(ctx, key) == HasValue(ctx', key) && (HasValue(ctx, key) ==> ctx[key] == ctx'[key])
    ensures RenderTemplate(template, ctx) == RenderTemplate(template, ctx')
  {
    var ts := Lex(template);
    KeysExactly(ts, (t: Token) => true);
    forall t | t in ts && t.Var? ensures Substitute(t, ctx) == Substitute(t, ctx') {
      assert t.key in Variables(template);
    }
    RenderAgrees(ts, ctx, ctx');
  }

  lemma {:induction false} RenderToSources(ts: seq<Token>, ctx: Context)
    requires forall t :: t in ts ==> Substitute(t, ctx) == Source(t)
    ensures Render(ts, ctx) == Sources(ts)
  {
    if ts != [] {
      assert ts[0] in ts && forall t :: t in ts[1..] ==> t in ts;
      RenderToSources(ts[1..], ctx);
    }
  }

  /** Binding every key to its own placeholder renders a template without fallbacks to itself. */
  lemma RenderingPlaceholdersIsIdentity(template: string, ctx: Context)
    requires forall t :: t in Lex(template) && t.Var? ==> t.fallback.None?
    requires forall key :: key in Variables(template) ==> key in ctx && ctx[key] == "{" + key + "}"
    ensures RenderTemplate(template, ctx) == template
  {
    var ts := Lex(template);
    KeysExactly(ts, (t: Token) => true);
    forall t | t in ts ensures Substitute(t, ctx) == Source(t) {
      assert t.Var? ==> t.key in Variables(template);
    }
    RenderToSources(ts, ctx);
    LexIsLossless(template);
  }

  /** Nothing is missing exactly when every placeholder without a fallback renders to something. */
  lemma NothingMissingExactly(template: string, ctx: Context)
    ensures Keys(Lex(template), Lacks(ctx)) == [] <==>
      forall t :: t in Lex(template) && t.Var? && t.fallback.None? ==> Substitute(t, ctx) != ""
  {
    var ts := Lex(template);
    KeysExactly(ts, Lacks(ctx));
    if Keys(ts, Lacks(ctx)) != [] {
      assert Keys(ts, Lacks(ctx))[0] in Keys(ts, Lacks(ctx));
    }
    forall t | t in ts && Lacks(ctx)(t) ensures t.key in Keys(ts, Lacks(ctx)) {}
  }

  // ---------------------------------------------------------------- the loops

  /** `extractVariables`. */
  method ExtractVariables(template: string) returns (found: seq<string>)
    ensures found == Variables(template)
    ensures forall key :: key in found <==> exists t :: t in Lex(template) && t.Var? && t.key == key
    ensures forall i, j :: 0 <= i < j < |found| ==> found[i] != found[j]
  {
    var ts := Lex(template);
    found := CollectKeys(ts, (t: Token) => true);
    KeysExactly(ts, (t: Token) => true);
  }

  /** `missingVariables`. */
  method MissingVariables(template: string, ctx: Context) returns (missing: seq<string>)
    ensures missing == Keys(Lex(template), Lacks(ctx))
    ensures missing == [] <==> forall t :: t in Lex(template) && t.Var? && t.fallback.None? ==> Substitute(t, ctx) != ""
  {
    missing := CollectKeys(Lex(template), Lacks(ctx));
    NothingMissingExactly(template, ctx);
  }

  /** A JavaScript Set filled in order keeps the order of first insertion. */
  method CollectKeys(ts: seq<Token>, p: Token -> bool) returns (found: seq<string>)
    ensures found == Keys(ts, p)
  {
    found := [];
    var i := 0;
    while i < |ts|
      invariant i <= |ts| && found == Keys(ts[..i], p)
    {
      assert ts[..i + 1][..i] == ts[..i];
      if ts[i].Var? && p(ts[i]) && ts[i].key !in found {
        found := found + [ts[i].key];
      }
      i := i + 1;
    }
    assert ts[..i] == ts;
  }
}
