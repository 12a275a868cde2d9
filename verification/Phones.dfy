/** The two spellings of a Brazilian mobile number (apps/core/src/conversation/conversation.service.ts:51-64). */
module Phones {

  predicate AllDigits(s: string) {
    forall c :: c in s ==> '0' <= c <= '9'
  }

  /** `+55`, a two-digit area code and at least one more digit. */
  predicate IsBr(e164: string) {
    |e164| > 5 && e164[..3] == "+55" && AllDigits(e164[3..])
  }

  function BrVariants(e164: string): set<string> {
    if !IsBr(e164) then {e164}
    else
      var prefix, rest := e164[..5], e164[5..];
      if |rest| == 9 && rest[0] == '9' then {e164, prefix + rest[1..]}
      else if |rest| == 8 then {e164, prefix + "9" + rest}
      else {e164}
  }

  lemma DigitsConcat(x: string, y: string)
    ensures AllDigits(x + y) <==> AllDigits(x) && AllDigits(y)
  {
    if AllDigits(x + y) {
      forall c | c in x ensures '0' <= c <= '9' { assert c in x + y; }
      forall c | c in y ensures '0' <= c <= '9' { assert c in x + y; }
    }
  }

  /** `+55` and an area code before a local number: what the pattern takes apart. */
  lemma BrParts(area: string, local: string)
    requires |area| == 2 && local != "" && AllDigits(area) && AllDigits(local)
    ensures var s := "+55" + area + local; IsBr(s) && s[..5] == "+55" + area && s[5..] == local
  {
    var s := "+55" + area + local;
    DigitsConcat(area, local);
    assert s[..3] == "+55" && s[3..] == area + local;
  }

  /** With or without the ninth digit: both spellings have exactly both spellings as variants. */
  lemma BothSpellings(area: string, local: string)
    requires |area| == 2 && |local| == 8 && AllDigits(area) && AllDigits(local)
    ensures var short, long := "+55" + area + local, "+55" + area + ("9" + local);
      BrVariants(short) == {short, long} && BrVariants(long) == {short, long}
  {
    var prefix, longer := "+55" + area, "9" + local;
    DigitsConcat("9", local);
    BrParts(area, local);
    BrParts(area, longer);
    assert longer[1..] == local;
    assert prefix + "9" + local == prefix + longer;
  }

  /** Being a spelling of the same number is an equivalence: every variant has the same variants. */
  lemma VariantsAgree(a: string, b: string)
    requires b in BrVariants(a)
    ensures BrVariants(b) == BrVariants(a)
  {
    if b != a {
      var area, rest := a[3..5], a[5..];
      var local := if |rest| == 9 then rest[1..] else rest;
      assert a[3..] == area + rest;
      DigitsConcat(area, rest);
      if |rest| == 9 {
        assert rest == "9" + local;
        DigitsConcat("9", local);
      }
      assert a[..5] == "+55" + area;
      assert a == a[..5] + rest;
      assert a[..5] + "9" + local == a[..5] + ("9" + local);
      BothSpellings(area, local);
    }
  }
}
