/**
 Choosing a chip and an opening (apps/core/src/scheduler/scheduler.service.ts:284-327, 350-374): both draws
 subtract weights from a random real until it is no longer positive.
 */
module Draw {
  import opened Prelude
  import opened Shared

  /** The sum of the first `n` weights. */
  function Prefix(weights: seq<int>, n: nat): int
    requires n <= |weights|
  {
    if n == 0 then 0 else Prefix(weights, n - 1) + weights[n - 1]
  }

  function Total(weights: seq<int>): int {
    Prefix(weights, |weights|)
  }

  predicate Positive(weights: seq<int>) {
    forall i :: 0 <= i < |weights| ==> 1 <= weights[i]
  }

  /** Candidate `i` owns the draws in `(prefix(i), prefix(i + 1)]`, and the first one 0 as well. */
  predicate Owns(weights: seq<int>, i: nat, r: real)
    requires i < |weights|
  {
    && (Prefix(weights, i) as real < r || (i == 0 && r == 0.0))
    && r <= Prefix(weights, i + 1) as real
  }

  lemma {:induction false} PrefixIsMonotone(weights: seq<int>, i: nat, j: nat)
    requires Positive(weights) && i <= j <= |weights|
    ensures Prefix(weights, i) + (j - i) <= Prefix(weights, j)
  {
    if i < j {
      PrefixIsMonotone(weights, i, j - 1);
    }
  }

  /** No draw has two owners. */
  lemma OwnerIsUnique(weights: seq<int>, i: nat, j: nat, r: real)
    requires Positive(weights) && i < |weights| && j < |weights|
    requires Owns(weights, i, r) && Owns(weights, j, r)
    ensures i == j
  {
    if i < j {
      PrefixIsMonotone(weights, i + 1, j);
    } else if j < i {
      PrefixIsMonotone(weights, j + 1, i);
    }
  }

  /**
   The subtracting loop. It returns the owner of the draw; the fallback behind the loop, taken only when no
   candidate is left, is never reached.
   */
  method DrawIndex(weights: seq<int>, draw: real) returns (index: int)
    requires weights != [] && Positive(weights) && 0.0 <= draw < Total(weights) as real
    ensures 0 <= index < |weights| && Owns(weights, index, draw)
  {
    var r := draw;
    var i := 0;
    while i < |weights|
      invariant i <= |weights|
      invariant r == draw - Prefix(weights, i) as real
      invariant i > 0 ==> r > 0.0
    {
      r := r - weights[i] as real;
      if r <= 0.0 {
        return i;
      }
      i := i + 1;
    }
    assert false;
    index := 0;
  }

  /** `Math.random` scaled to the sum of the weights. */
  function Scaled(u: real, total: int): real {
    u * total as real
  }

  /** The candidate that owns the draw for `u` of `Math.random`. */
  predicate DrawnBy(weights: seq<int>, i: int, u: real) {
    0 <= i < |weights| && Owns(weights, i, Scaled(u, Total(weights)))
  }

  /** A draw for `u` of `Math.random`, scaled to the sum of the weights. */
  method DrawBy(weights: seq<int>, u: real) returns (index: int)
    requires weights != [] && Positive(weights) && 0.0 <= u < 1.0
    ensures DrawnBy(weights, index, u)
  {
    var total := 0;
    var i := 0;
    while i < |weights|
      invariant i <= |weights| && total == Prefix(weights, i)
    {
      total := total + weights[i];
      i := i + 1;
    }
    assert total == Total(weights);
    PrefixIsMonotone(weights, 0, |weights|);
    DrawInRange(u, total);
    index := DrawIndex(weights, Scaled(u, total));
  }

  lemma DrawInRange(u: real, total: int)
    requires 0.0 <= u < 1.0 && 1 <= total
    ensures 0.0 <= Scaled(u, total) < total as real
  {
    assert (1.0 - u) * total as real > 0.0;
    assert u * total as real >= 0.0;
  }

  // ---------------------------------------------------------------- which chips may be drawn

  /** `window` of a flow, and the clock in the scheduler's time zone. */
  datatype Window = Window(start: Option<int>, end: Option<int>)

  datatype Candidate = Candidate(id: ChipId, chip: Chip, windowStart: int, windowEnd: int, restDays: set<int>, due: bool)

  predicate CanSend(c: Candidate, w: Window, hour: int, weekday: int) {
    && (c.chip.status == Active || c.chip.status == Warming)
    && c.chip.score >= COOLDOWN_THRESHOLD
    && c.chip.sent < c.chip.cap
    && w.start.GetOr(c.windowStart) <= hour < w.end.GetOr(c.windowEnd)
    && weekday !in c.restDays
  }

  predicate Eligible(c: Candidate, w: Window, hour: int, weekday: int) {
    CanSend(c, w, hour, weekday) && c.due
  }

  function EligibleOnly(cs: seq<Candidate>, w: Window, hour: int, weekday: int): seq<Candidate> {
    if cs == [] then []
    else
      var n := |cs| - 1;
      EligibleOnly(cs[..n], w, hour, weekday) + (if Eligible(cs[n], w, hour, weekday) then [cs[n]] else [])
  }

  lemma {:induction false} EligibleOnlyHoldsAll(cs: seq<Candidate>, w: Window, hour: int, weekday: int)
    ensures forall c :: c in EligibleOnly(cs, w, hour, weekday) <==> c in cs && Eligible(c, w, hour, weekday)
  {
    if cs != [] {
      var n := |cs| - 1;
      EligibleOnlyHoldsAll(cs[..n], w, hour, weekday);
      assert cs == cs[..n] + [cs[n]];
    }
  }

  /** Who is passed over: a chip that rests, has less than 50 points, has used up its cap, is off its hours or not due. */
  lemma PassedOverExactly(c: Candidate, w: Window, hour: int, weekday: int)
    ensures !Eligible(c, w, hour, weekday) <==>
      || c.chip.status == New || c.chip.status == Paused || c.chip.status == Cooldown || c.chip.status == Retired
      || c.chip.score < 50.0 || c.chip.cap <= c.chip.sent
      || hour < (match w.start case Some(start) => start case None => c.windowStart)
      || hour >= (match w.end case Some(end) => end case None => c.windowEnd)
      || weekday in c.restDays || !c.due
  {
  }

  /** Free capacity is the weight. */
  function Capacities(cs: seq<Candidate>): seq<int> {
    seq(|cs|, i requires 0 <= i < |cs| =>
      if cs[i].chip.cap - cs[i].chip.sent < 1 then 1 else cs[i].chip.cap - cs[i].chip.sent)
  }

  /**
   `pickEligibleChip` for the draw `u` of `Math.random`: a chip exactly when one is eligible, and the one that
   owns the draw in proportion to free capacity.
   */
  method PickEligibleChip(cs: seq<Candidate>, w: Window, hour: int, weekday: int, u: real)
    returns (picked: Option<Candidate>)
    requires 0.0 <= u < 1.0
    ensures picked.Some? <==> exists c :: c in cs && Eligible(c, w, hour, weekday)
    ensures picked.Some? ==>
      var c := picked.value;
      && (c.chip.status == Active || c.chip.status == Warming) && c.chip.score >= 50.0 && c.chip.sent < c.chip.cap
      && (match w.start case Some(start) => start <= hour case None => c.windowStart <= hour)
      && (match w.end case Some(end) => hour < end case None => hour < c.windowEnd)
      && weekday !in c.restDays && c.due
    ensures picked.Some? ==>
      && picked.value in cs && Eligible(picked.value, w, hour, weekday)
      && var pool := EligibleOnly(cs, w, hour, weekday);
         var weights := Capacities(pool);
         exists i :: DrawnBy(weights, i, u) && pool[i] == picked.value
                     && weights[i] == picked.value.chip.cap - picked.value.chip.sent
  {
    var pool: seq<Candidate> := [];
    var k := 0;
    while k < |cs|
      invariant k <= |cs| && pool == EligibleOnly(cs[..k], w, hour, weekday)
    {
      if CanSend(cs[k], w, hour, weekday) && cs[k].due {
        pool := pool + [cs[k]];
      }
      assert cs[..k + 1][..k] == cs[..k];
      k := k + 1;
    }
    assert cs[..k] == cs;
    EligibleOnlyHoldsAll(cs, w, hour, weekday);
    if pool == [] {
      return None;
    }
    assert pool[0] in pool;
    var weights := Capacities(pool);
    var i := DrawBy(weights, u);
    assert pool[i] in pool;
    picked := Some(pool[i]);
    assert pool == EligibleOnly(cs, w, hour, weekday) && weights == Capacities(pool);
    assert DrawnBy(weights, i, u) && weights[i] == pool[i].chip.cap - pool[i].chip.sent;
  }

  // ---------------------------------------------------------------- openings, without recent repeats

  datatype Template = Template(id: string, weight: int)

  const RECENT := 5

  function Unused(pool: seq<Template>, recent: seq<string>): seq<Template> {
    if pool == [] then []
    else
      var n := |pool| - 1;
      Unused(pool[..n], recent) + (if pool[n].id in recent then [] else [pool[n]])
  }

  /** `lpush` and `ltrim`: the newest first, five of them. */
  function Remember(recent: seq<string>, id: string): seq<string> {
    var all := [id] + recent;
    if |all| <= RECENT then all else all[..RECENT]
  }

  function Weights(pool: seq<Template>): seq<int> {
    seq(|pool|, i requires 0 <= i < |pool| => if pool[i].weight < 1 then 1 else pool[i].weight)
  }

  /** The share of each opening in the draw is its weight, or one where that is less. */
  ghost predicate SharesByWeight(weights: seq<int>, pool: seq<Template>) {
    && |weights| == |pool|
    && forall i :: 0 <= i < |pool| ==>
         Prefix(weights, i + 1) == Prefix(weights, i) + if pool[i].weight > 1 then pool[i].weight else 1
  }

  lemma WeightsAreShares(pool: seq<Template>)
    ensures SharesByWeight(Weights(pool), pool)
  {
  }

  lemma {:induction false} UnusedExactly(pool: seq<Template>, recent: seq<string>)
    ensures forall t :: t in Unused(pool, recent) <==> t in pool && t.id !in recent
  {
    if pool != [] {
      var n := |pool| - 1;
      UnusedExactly(pool[..n], recent);
      assert pool == pool[..n] + [pool[n]];
    }
  }

  /** What may be drawn: the openings not used lately, or all of them when that leaves none. */
  function Pool(openings: seq<Template>, recent: seq<string>): seq<Template> {
    if Unused(openings, recent) == [] then openings else Unused(openings, recent)
  }

  lemma PoolAvoidsRecent(openings: seq<Template>, recent: seq<string>)
    requires openings != []
    ensures Pool(openings, recent) != []
    ensures forall t :: t in Pool(openings, recent) ==>
      t in openings && ((exists o :: o in openings && o.id !in recent) ==> t.id !in recent)
  {
    UnusedExactly(openings, recent);
  }

  /** `pickOpening` on what the recent list leaves. */
  method PickFrom(openings: seq<Template>, recent: seq<string>, u: real) returns (picked: Template)
    requires openings != [] && 0.0 <= u < 1.0
    ensures picked in Pool(openings, recent)
    ensures exists i :: DrawnBy(Weights(Pool(openings, recent)), i, u) && Pool(openings, recent)[i] == picked
    ensures SharesByWeight(Weights(Pool(openings, recent)), Pool(openings, recent))
  {
    var pool: seq<Template> := [];
    var k := 0;
    while k < |openings|
      invariant k <= |openings| && pool == Unused(openings[..k], recent)
    {
      if openings[k].id !in recent {
        pool := pool + [openings[k]];
      }
      assert openings[..k + 1][..k] == openings[..k];
      k := k + 1;
    }
    assert openings[..k] == openings;
    if pool == [] {
      pool := openings;
    }
    assert pool == Pool(openings, recent);
    var i := DrawBy(Weights(pool), u);
    picked := pool[i];
    assert picked in pool;
    WeightsAreShares(pool);
  }

  /** `recent` holds the latest five of `drawn`, newest first. */
  predicate Latest(recent: seq<string>, drawn: seq<string>) {
    && |recent| == (if |drawn| < RECENT then |drawn| else RECENT)
    && forall i :: 0 <= i < |recent| ==> recent[i] == drawn[|drawn| - 1 - i]
  }

  lemma RememberKeepsLatest(recent: seq<string>, drawn: seq<string>, id: string)
    requires Latest(recent, drawn)
    ensures Latest(Remember(recent, id), drawn + [id])
  {
    var recent', drawn' := Remember(recent, id), drawn + [id];
    forall i | 0 <= i < |recent'| ensures recent'[i] == drawn'[|drawn'| - 1 - i] {
      if i > 0 {
        assert recent'[i] == recent[i - 1];
      }
    }
  }

  function LastFive(drawn: seq<string>): seq<string> {
    if |drawn| <= 5 then drawn else drawn[|drawn| - 5..]
  }

  /** On the list are the last five draws and no others. */
  lemma LatestAreLastFive(recent: seq<string>, drawn: seq<string>, id: string)
    requires Latest(recent, drawn)
    ensures id in recent <==> id in LastFive(drawn)
  {
    var last := LastFive(drawn);
    assert |last| == |recent|;
    forall i | 0 <= i < |last| ensures last[i] == recent[|last| - 1 - i] {}
    if id in recent {
      var i: nat :| i < |recent| && recent[i] == id;
      assert last[|last| - 1 - i] == id;
    }
  }

  lemma AvoidsLastFive(openings: seq<Template>, recent: seq<string>, drawn: seq<string>, t: Template)
    requires openings != [] && Latest(recent, drawn) && t in Pool(openings, recent)
    ensures t in openings
    ensures (exists o :: o in openings && o.id !in recent) ==> t.id !in recent
    ensures (exists o :: o in openings && o.id !in LastFive(drawn)) ==> t.id !in LastFive(drawn)
  {
    PoolAvoidsRecent(openings, recent);
    LatestAreLastFive(recent, drawn, t.id);
    if o :| o in openings && o.id !in LastFive(drawn) {
      LatestAreLastFive(recent, drawn, o.id);
    }
  }

  /** The recent list of one chip, and the openings it drew, oldest first. */
  class OpeningPicker {
    var recent: seq<string>
    ghost var drawn: seq<string>

    ghost predicate Valid()
      reads this
    {
      Latest(recent, drawn)
    }

    constructor ()
      ensures Valid() && drawn == []
    {
      recent, drawn := [], [];
    }

    /**
     `pickOpeningForChip`: repeats one of the chip's latest five openings only when every active one is
     among them, and then draws by weight.
     */
    method PickOpeningForChip(openings: seq<Template>, u: real) returns (picked: Template)
      requires Valid() && openings != [] && 0.0 <= u < 1.0
      modifies this
      ensures Valid() && drawn == old(drawn) + [picked.id] && recent == Remember(old(recent), picked.id)
      ensures picked in openings
      ensures (exists o :: o in openings && o.id !in old(recent)) ==> picked.id !in old(recent)
      ensures (exists o :: o in openings && o.id !in LastFive(old(drawn))) ==> picked.id !in LastFive(old(drawn))
    {
      picked := PickFrom(openings, recent, u);
      AvoidsLastFive(openings, recent, drawn, picked);
      RememberKeepsLatest(recent, drawn, picked.id);
      var all := [picked.id] + recent;
      recent := if |all| <= RECENT then all else all[..RECENT];
      drawn := drawn + [picked.id];
    }
  }
}
