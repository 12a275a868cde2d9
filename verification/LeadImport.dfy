/**
 Importing a list of leads (apps/core/src/leads/lead-import.service.ts): steps 1 to 6 of `import` on rows
 whose columns are already known, with `normalizeE164` as any partial function, and chunked look-ups.
 */
module LeadImport {
  import opened Prelude

  type Phone = string

  /** A parsed row: the raw phone cell, and what is kept beside it. */
  datatype Row = Row(raw: string, name: Option<string>, meta: map<string, string>)

  datatype Clean = Clean(phone: Phone, name: Option<string>, meta: map<string, string>)

  datatype LeadStatus = Pending | Suppressed

  datatype Lead = Lead(phone: Phone, name: Option<string>, meta: map<string, string>, status: LeadStatus, suppressed: bool)

  /** The leads of the flow by phone, and every slug in use; both are unique in the schema. */
  datatype Table = Table(leads: map<Phone, Lead>, slugs: set<string>)

  datatype Counts = Counts(
    total: nat,
    valid: nat,
    duplicates: nat,
    invalid: nat,
    suppressed: nat,
    inserted: nat,
    skipped: int)

  datatype Result = Imported(counts: Counts) | EmptyFile

  type Normalizer = string -> Option<Phone>

  const DB_PARAM_CHUNK := 5000

  // ---------------------------------------------------------------- chunks

  function Flatten<T>(parts: seq<seq<T>>): seq<T> {
    if parts == [] then [] else Flatten(parts[..|parts| - 1]) + parts[|parts| - 1]
  }

  /** `chunk`: pieces of the given size, none empty, that make up the whole in order. */
  method Chunk<T>(items: seq<T>, size: nat) returns (parts: seq<seq<T>>)
    requires 0 < size
    ensures Flatten(parts) == items
    ensures forall i :: 0 <= i < |parts| ==> 0 < |parts[i]| <= size && (i < |parts| - 1 ==> |parts[i]| == size)
  {
    parts := [];
    var i := 0;
    while i < |items|
      invariant Flatten(parts) == items[..if i <= |items| then i else |items|]
      invariant forall k :: 0 <= k < |parts| ==> 0 < |parts[k]| <= size && (k < |parts| - 1 ==> |parts[k]| == size)
      invariant parts != [] && i < |items| ==> |parts[|parts| - 1]| == size
      decreases |items| - i
    {
      var end := if i + size <= |items| then i + size else |items|;
      ghost var was := parts;
      parts := parts + [items[i..end]];
      assert parts[..|parts| - 1] == was;
      assert items[..end] == items[..i] + items[i..end];
      i := i + size;
    }
    assert items[..|items|] == items;
  }

  function Known(phones: seq<Phone>, table: set<Phone>): set<Phone> {
    set p | p in phones && p in table
  }

  /** `collectPhones`: asking chunk by chunk finds what one query for everything would find. */
  method CollectPhones(phones: seq<Phone>, table: set<Phone>) returns (found: set<Phone>)
    ensures found == Known(phones, table)
  {
    found := {};
    var parts := Chunk(phones, DB_PARAM_CHUNK);
    var i := 0;
    while i < |parts|
      invariant i <= |parts|
      invariant found == Known(Flatten(parts[..i]), table)
    {
      var rows := Known(parts[i], table);
      found := found + rows;
      assert parts[..i + 1][..i] == parts[..i];
      i := i + 1;
    }
    assert parts[..i] == parts;
  }

  // ---------------------------------------------------------------- cleaning

  function CleanRows(rows: seq<Row>, normalize: Normalizer): seq<Clean> {
    if rows == [] then []
    else
      var row, before := rows[|rows| - 1], CleanRows(rows[..|rows| - 1], normalize);
      var phone := normalize(row.raw);
      if phone.Some? then before + [Clean(phone.value, row.name, row.meta)] else before
  }

  function PhoneSet(cs: seq<Clean>): set<Phone> {
    if cs == [] then {} else PhoneSet(cs[..|cs| - 1]) + {cs[|cs| - 1].phone}
  }

  /** The first row of every phone, in file order. */
  function Firsts(cs: seq<Clean>): seq<Clean> {
    if cs == [] then []
    else
      var c, before := cs[|cs| - 1], Firsts(cs[..|cs| - 1]);
      if c.phone in PhoneSet(cs[..|cs| - 1]) then before else before + [c]
  }

  function Phones(cs: seq<Clean>): seq<Phone> {
    seq(|cs|, i requires 0 <= i < |cs| => cs[i].phone)
  }

  function LeadOf(c: Clean, optOut: set<Phone>): Lead {
    Lead(c.phone, c.name, c.meta, if c.phone in optOut then Suppressed else Pending, c.phone in optOut)
  }

  /** What an import adds to the leads of the flow: the first row of every phone it does not have yet. */
  function Merge(leads: map<Phone, Lead>, cs: seq<Clean>, optOut: set<Phone>): map<Phone, Lead> {
    if cs == [] then leads
    else
      var c, before := cs[|cs| - 1], Merge(leads, cs[..|cs| - 1], optOut);
      if c.phone in before then before else before[c.phone := LeadOf(c, optOut)]
  }

  /** How many rows find their phone taken, by the table or by an earlier row. */
  function Repeats(leads: map<Phone, Lead>, cs: seq<Clean>, optOut: set<Phone>): nat {
    if cs == [] then 0
    else
      var c, n := cs[|cs| - 1], |cs| - 1;
      Repeats(leads, cs[..n], optOut) + (if c.phone in Merge(leads, cs[..n], optOut) then 1 else 0)
  }

  // ---------------------------------------------------------------- the laws of merging

  lemma {:induction false} MergeConcat(leads: map<Phone, Lead>, a: seq<Clean>, b: seq<Clean>, optOut: set<Phone>)
    ensures Merge(leads, a + b, optOut) == Merge(Merge(leads, a, optOut), b, optOut)
    ensures Repeats(leads, a + b, optOut) == Repeats(leads, a, optOut) + Repeats(Merge(leads, a, optOut), b, optOut)
  {
    if b == [] {
      assert a + b == a;
    } else {
      var n := |b| - 1;
      assert (a + b)[..|a| + n] == a + b[..n];
      MergeConcat(leads, a, b[..n], optOut);
    }
  }

  lemma {:induction false} MergeHas(leads: map<Phone, Lead>, cs: seq<Clean>, optOut: set<Phone>, p: Phone)
    ensures p in Merge(leads, cs, optOut) <==> p in leads || p in PhoneSet(cs)
    ensures p in leads ==> Merge(leads, cs, optOut)[p] == leads[p]
  {
    if cs != [] {
      MergeHas(leads, cs[..|cs| - 1], optOut, p);
    }
  }

  lemma {:induction false} MergeSize(leads: map<Phone, Lead>, cs: seq<Clean>, optOut: set<Phone>)
    ensures |leads| <= |Merge(leads, cs, optOut)|
    ensures |Merge(leads, cs, optOut)| + Repeats(leads, cs, optOut) == |leads| + |cs|
  {
    if cs != [] {
      MergeSize(leads, cs[..|cs| - 1], optOut);
    }
  }

  /** Merging a second time changes nothing and finds every row taken. */
  lemma {:induction false} MergeAgain(leads: map<Phone, Lead>, cs: seq<Clean>, optOut: set<Phone>)
    requires forall p :: p in PhoneSet(cs) ==> p in leads
    ensures Merge(leads, cs, optOut) == leads && Repeats(leads, cs, optOut) == |cs|
  {
    if cs != [] {
      MergeAgain(leads, cs[..|cs| - 1], optOut);
    }
  }

  lemma {:induction false} CleanConcat(a: seq<Row>, b: seq<Row>, normalize: Normalizer)
    ensures CleanRows(a + b, normalize) == CleanRows(a, normalize) + CleanRows(b, normalize)
  {
    if b == [] {
      assert a + b == a;
    } else {
      var n := |b| - 1;
      assert (a + b)[..|a| + n] == a + b[..n];
      CleanConcat(a, b[..n], normalize);
    }
  }

  lemma {:induction false} CleanSize(rows: seq<Row>, normalize: Normalizer)
    ensures |CleanRows(rows, normalize)| <= |rows|
  {
    if rows != [] {
      CleanSize(rows[..|rows| - 1], normalize);
    }
  }

  // ---------------------------------------------------------------- import, as a whole

  /** What an import leaves in the table and answers when the slugs it draws are all new. */
  function Import(leads: map<Phone, Lead>, rows: seq<Row>, normalize: Normalizer, optOut: set<Phone>): map<Phone, Lead> {
    Merge(leads, CleanRows(rows, normalize), optOut)
  }

  function Duplicates(leads: map<Phone, Lead>, rows: seq<Row>, normalize: Normalizer, optOut: set<Phone>): nat {
    Repeats(leads, CleanRows(rows, normalize), optOut)
  }

  function Invalid(rows: seq<Row>, normalize: Normalizer): int {
    |rows| - |CleanRows(rows, normalize)|
  }

  function Inserted(leads: map<Phone, Lead>, rows: seq<Row>, normalize: Normalizer, optOut: set<Phone>): int {
    |Import(leads, rows, normalize, optOut)| - |leads|
  }

  /**
   Importing two files one after the other leaves the same leads as importing them as one, and the counts of
   invalid, duplicate and inserted rows add up.
   */
  lemma ImportIsAHomomorphism(leads: map<Phone, Lead>, a: seq<Row>, b: seq<Row>, normalize: Normalizer, optOut: set<Phone>)
    ensures var mid := Import(leads, a, normalize, optOut);
      && Import(leads, a + b, normalize, optOut) == Import(mid, b, normalize, optOut)
      && Invalid(a + b, normalize) == Invalid(a, normalize) + Invalid(b, normalize)
      && Duplicates(leads, a + b, normalize, optOut)
         == Duplicates(leads, a, normalize, optOut) + Duplicates(mid, b, normalize, optOut)
      && Inserted(leads, a + b, normalize, optOut)
         == Inserted(leads, a, normalize, optOut) + Inserted(mid, b, normalize, optOut)
  {
    CleanConcat(a, b, normalize);
    MergeConcat(leads, CleanRows(a, normalize), CleanRows(b, normalize), optOut);
  }

  /** Every row is invalid, a duplicate or inserted, and no lead is lost or overwritten. */
  lemma ImportPartitions(leads: map<Phone, Lead>, rows: seq<Row>, normalize: Normalizer, optOut: set<Phone>)
    ensures |rows| == Invalid(rows, normalize) + Duplicates(leads, rows, normalize, optOut)
                      + Inserted(leads, rows, normalize, optOut)
    ensures 0 <= Invalid(rows, normalize) && 0 <= Inserted(leads, rows, normalize, optOut)
    ensures var leads' := Import(leads, rows, normalize, optOut);
      forall p :: p in leads ==> p in leads' && leads'[p] == leads[p]
  {
    CleanSize(rows, normalize);
    MergeSize(leads, CleanRows(rows, normalize), optOut);
    var leads' := Import(leads, rows, normalize, optOut);
    forall p ensures p in leads ==> p in leads' && leads'[p] == leads[p] {
      MergeHas(leads, CleanRows(rows, normalize), optOut, p);
    }
  }

  /** Importing a file again inserts nothing and leaves every lead as it is. */
  lemma ReimportIsIdempotent(leads: map<Phone, Lead>, rows: seq<Row>, normalize: Normalizer, optOut: set<Phone>)
    ensures var once := Import(leads, rows, normalize, optOut);
      && Import(once, rows, normalize, optOut) == once
      && Inserted(once, rows, normalize, optOut) == 0
      && Duplicates(once, rows, normalize, optOut) == |rows| - Invalid(rows, normalize)
  {
    var cs := CleanRows(rows, normalize);
    forall p | p in PhoneSet(cs) ensures p in Merge(leads, cs, optOut) {
      MergeHas(leads, cs, optOut, p);
    }
    MergeAgain(Merge(leads, cs, optOut), cs, optOut);
  }

  // ---------------------------------------------------------------- which rows survive, row by row

  function Valid(rows: seq<Row>, normalize: Normalizer): nat {
    Count(rows, (row: Row) => normalize(row.raw).Some?)
  }

  /**
   Cleaning, row by row: as many rows are kept as have a phone that normalises, and each of them stands behind
   those before it in the file, with its own phone, name and other columns.
   */
  lemma {:induction false} CleanKeepsExactly(rows: seq<Row>, normalize: Normalizer)
    ensures |CleanRows(rows, normalize)| == Valid(rows, normalize)
    ensures forall i :: 0 <= i < |rows| ==> KeptAt(rows, normalize, i)
  {
    if rows != [] {
      var n := |rows| - 1;
      CleanKeepsExactly(rows[..n], normalize);
      forall i | 0 <= i < |rows| ensures KeptAt(rows, normalize, i) {
        if i < n {
          assert KeptAt(rows[..n], normalize, i);
          assert rows[..n][..i] == rows[..i];
        }
      }
    }
  }

  ghost predicate KeptAt(rows: seq<Row>, normalize: Normalizer, i: nat)
    requires i < |rows|
  {
    normalize(rows[i].raw).Some? ==>
      var at, cs := Valid(rows[..i], normalize), CleanRows(rows, normalize);
      at < |cs| && cs[at] == Clean(normalize(rows[i].raw).value, rows[i].name, rows[i].meta)
  }

  /** A phone the flow does not have and no row of the file normalises to does not become a lead. */
  lemma {:induction false} NoRowNoLead(leads: map<Phone, Lead>, rows: seq<Row>, normalize: Normalizer,
                                       optOut: set<Phone>, p: Phone)
    requires p !in leads && forall i :: 0 <= i < |rows| ==> normalize(rows[i].raw) != Some(p)
    ensures p !in Import(leads, rows, normalize, optOut)
  {
    if rows != [] {
      NoRowNoLead(leads, rows[..|rows| - 1], normalize, optOut, p);
    }
  }

  /** A new lead carries the name and the other columns of the first row of its phone, whatever later rows say. */
  lemma {:induction false} NewLeadIsItsFirstRow(leads: map<Phone, Lead>, rows: seq<Row>, normalize: Normalizer,
                                                optOut: set<Phone>, p: Phone, i: nat)
    requires p !in leads && i < |rows| && normalize(rows[i].raw) == Some(p)
    requires forall j :: 0 <= j < i ==> normalize(rows[j].raw) != Some(p)
    ensures var leads' := Import(leads, rows, normalize, optOut);
      p in leads' && leads'[p] ==
        Lead(p, rows[i].name, rows[i].meta, if p in optOut then Suppressed else Pending, p in optOut)
  {
    var n := |rows| - 1;
    if i < n {
      NewLeadIsItsFirstRow(leads, rows[..n], normalize, optOut, p, i);
    } else {
      NoRowNoLead(leads, rows[..n], normalize, optOut, p);
    }
  }

  /** No lead enters in line whose phone is on the opt-out list. */
  lemma {:induction false} ImportRespectsOptOut(leads: map<Phone, Lead>, cs: seq<Clean>, optOut: set<Phone>, p: Phone)
    requires p in Merge(leads, cs, optOut) && p !in leads
    ensures var l := Merge(leads, cs, optOut)[p];
      l.phone == p && (l.suppressed <==> p in optOut) && (l.status == Suppressed <==> p in optOut)
  {
    if cs != [] && p in Merge(leads, cs[..|cs| - 1], optOut) {
      ImportRespectsOptOut(leads, cs[..|cs| - 1], optOut, p);
    }
  }

  // ---------------------------------------------------------------- the source's way there

  predicate DistinctPhones(cs: seq<Clean>) {
    cs == [] || (cs[|cs| - 1].phone !in PhoneSet(cs[..|cs| - 1]) && DistinctPhones(cs[..|cs| - 1]))
  }

  lemma Snoc<T>(s: seq<T>, x: T)
    ensures (s + [x])[..|s|] == s && (s + [x])[|s|] == x
  {
  }

  /** The in-file deduplication loses no phone, keeps one row of each, and merges to the same leads. */
  lemma {:induction false} FirstsAreDistinct(cs: seq<Clean>)
    ensures DistinctPhones(Firsts(cs)) && |Firsts(cs)| <= |cs|
    ensures PhoneSet(Firsts(cs)) == PhoneSet(cs)
  {
    if cs != [] {
      var n := |cs| - 1;
      FirstsAreDistinct(cs[..n]);
      Snoc(Firsts(cs[..n]), cs[n]);
    }
  }

  lemma {:induction false} FirstsMergeTheSame(leads: map<Phone, Lead>, cs: seq<Clean>, optOut: set<Phone>)
    ensures Merge(leads, Firsts(cs), optOut) == Merge(leads, cs, optOut)
  {
    if cs != [] {
      var n := |cs| - 1;
      FirstsMergeTheSame(leads, cs[..n], optOut);
      MergeHas(leads, cs[..n], optOut, cs[n].phone);
      Snoc(Firsts(cs[..n]), cs[n]);
    }
  }

  function NotIn(cs: seq<Clean>, phones: set<Phone>): seq<Clean> {
    if cs == [] then []
    else
      var n := |cs| - 1;
      if cs[n].phone in phones then NotIn(cs[..n], phones) else NotIn(cs[..n], phones) + [cs[n]]
  }

  lemma {:induction false} NotInHas(cs: seq<Clean>, taken: set<Phone>, p: Phone)
    ensures p in PhoneSet(NotIn(cs, taken)) <==> p in PhoneSet(cs) && p !in taken
    ensures |NotIn(cs, taken)| <= |cs|
  {
    if cs != [] {
      var n := |cs| - 1;
      NotInHas(cs[..n], taken, p);
      Snoc(NotIn(cs[..n], taken), cs[n]);
    }
  }

  lemma {:induction false} NotInIsDistinct(cs: seq<Clean>, taken: set<Phone>)
    requires DistinctPhones(cs)
    ensures DistinctPhones(NotIn(cs, taken))
  {
    if cs != [] {
      var n := |cs| - 1;
      NotInIsDistinct(cs[..n], taken);
      NotInHas(cs[..n], taken, cs[n].phone);
      Snoc(NotIn(cs[..n], taken), cs[n]);
    }
  }

  /** Looking up which phones of the file are taken is as good as looking in the table. */
  predicate SameOn(cs: seq<Clean>, some: set<Phone>, all: set<Phone>) {
    cs == [] || (SameOn(cs[..|cs| - 1], some, all) && (cs[|cs| - 1].phone in some <==> cs[|cs| - 1].phone in all))
  }

  /** Rows the flow already has can be dropped before merging, and every row left is a new lead. */
  lemma {:induction false} NewOnesSuffice(leads: map<Phone, Lead>, cs: seq<Clean>, taken: set<Phone>, optOut: set<Phone>)
    requires DistinctPhones(cs) && SameOn(cs, taken, leads.Keys)
    ensures Merge(leads, NotIn(cs, taken), optOut) == Merge(leads, cs, optOut)
    ensures |Merge(leads, cs, optOut)| == |leads| + |NotIn(cs, taken)|
  {
    if cs != [] {
      var n := |cs| - 1;
      NewOnesSuffice(leads, cs[..n], taken, optOut);
      MergeHas(leads, cs[..n], optOut, cs[n].phone);
      Snoc(NotIn(cs[..n], taken), cs[n]);
    }
  }

  lemma {:induction false} NotInIsNew(cs: seq<Clean>, taken: set<Phone>, keys: set<Phone>)
    requires SameOn(cs, taken, keys)
    ensures AllNew(NotIn(cs, taken), keys)
  {
    if cs != [] {
      var n := |cs| - 1;
      NotInIsNew(cs[..n], taken, keys);
      Snoc(NotIn(cs[..n], taken), cs[n]);
    }
  }

  predicate AllNew(cs: seq<Clean>, keys: set<Phone>) {
    cs == [] || (AllNew(cs[..|cs| - 1], keys) && cs[|cs| - 1].phone !in keys)
  }

  function InsertOne(t: Table, c: Clean, slug: string, optOut: set<Phone>): Table {
    if c.phone in t.leads || slug in t.slugs then t
    else Table(t.leads[c.phone := LeadOf(c, optOut)], t.slugs + {slug})
  }

  /** `createMany` with `skipDuplicates`, row by row: a row whose phone or slug is taken is passed over. */
  function InsertAll(t: Table, cs: seq<Clean>, draw: nat -> string, optOut: set<Phone>): Table {
    if cs == [] then t
    else
      var n := |cs| - 1;
      InsertOne(InsertAll(t, cs[..n], draw, optOut), cs[n], draw(n), optOut)
  }

  lemma InsertNext(t: Table, cs: seq<Clean>, n: nat, draw: nat -> string, optOut: set<Phone>)
    requires n < |cs|
    ensures InsertAll(t, cs[..n + 1], draw, optOut) == InsertOne(InsertAll(t, cs[..n], draw, optOut), cs[n], draw(n), optOut)
  {
    assert cs[..n + 1][..n] == cs[..n];
  }

  function Drawn(draw: nat -> string, n: nat): set<string> {
    if n == 0 then {} else Drawn(draw, n - 1) + {draw(n - 1)}
  }

  /** The first `n` slugs drawn are new and all different. */
  predicate FreshSlugs(slugs: set<string>, draw: nat -> string, n: nat) {
    n == 0 || (FreshSlugs(slugs, draw, n - 1) && draw(n - 1) !in slugs + Drawn(draw, n - 1))
  }

  lemma {:induction false} InsertHas(t: Table, cs: seq<Clean>, draw: nat -> string, optOut: set<Phone>, p: Phone)
    ensures var t' := InsertAll(t, cs, draw, optOut);
      && (p in t.leads ==> p in t'.leads && t'.leads[p] == t.leads[p])
      && (p in t'.leads ==> p in t.leads || p in PhoneSet(cs))
      && |t.leads| <= |t'.leads| <= |t.leads| + |cs|
  {
    if cs != [] {
      InsertHas(t, cs[..|cs| - 1], draw, optOut, p);
    }
  }

  lemma InsertOneGrows(t: Table, c: Clean, slug: string, optOut: set<Phone>)
    ensures var t' := InsertOne(t, c, slug, optOut);
      |t'.leads| == |t.leads| + if c.phone !in t.leads && slug !in t.slugs then 1 else 0
  {
  }

  /** All `n` rows are in exactly when their slugs are fresh, and then the table is as merging would leave it. */
  predicate AllIn(t: Table, t': Table, merged: map<Phone, Lead>, draw: nat -> string, n: nat) {
    && (|t'.leads| == |t.leads| + n <==> FreshSlugs(t.slugs, draw, n))
    && (FreshSlugs(t.slugs, draw, n) ==> t'.leads == merged && t'.slugs == t.slugs + Drawn(draw, n))
  }

  lemma OneMoreInserted(t: Table, before: Table, merged: map<Phone, Lead>, c: Clean, draw: nat -> string,
                        optOut: set<Phone>, n: nat, all: nat)
    requires AllIn(t, before, merged, draw, n) && all == n + 1
    requires c.phone !in before.leads && |before.leads| <= |t.leads| + n
    ensures AllIn(t, InsertOne(before, c, draw(n), optOut),
                  if c.phone in merged then merged else merged[c.phone := LeadOf(c, optOut)], draw, all)
  {
    OneMoreSlug(t.slugs, draw, n, all);
    InsertOneGrows(before, c, draw(n), optOut);
    if FreshSlugs(t.slugs, draw, n) {
      UnionIsAssociative(t.slugs, Drawn(draw, n), {draw(n)});
    }
  }

  lemma OneMoreSlug(slugs: set<string>, draw: nat -> string, n: nat, all: nat)
    requires all == n + 1
    ensures FreshSlugs(slugs, draw, all) <==> FreshSlugs(slugs, draw, n) && draw(n) !in slugs + Drawn(draw, n)
    ensures Drawn(draw, all) == Drawn(draw, n) + {draw(n)}
  {
  }

  lemma UnionIsAssociative(a: set<string>, b: set<string>, c: set<string>)
    ensures (a + b) + c == a + (b + c)
  {
  }

  /** Rows with new phones all go in exactly when their slugs are fresh. */
  lemma {:induction false} NothingSkippedExactlyWhenFresh(t: Table, cs: seq<Clean>, draw: nat -> string, optOut: set<Phone>)
    requires DistinctPhones(cs) && AllNew(cs, t.leads.Keys)
    ensures AllIn(t, InsertAll(t, cs, draw, optOut), Merge(t.leads, cs, optOut), draw, |cs|)
  {
    if cs != [] {
      var n := |cs| - 1;
      var before := InsertAll(t, cs[..n], draw, optOut);
      NothingSkippedExactlyWhenFresh(t, cs[..n], draw, optOut);
      InsertHas(t, cs[..n], draw, optOut, cs[n].phone);
      OneMoreInserted(t, before, Merge(t.leads, cs[..n], optOut), cs[n], draw, optOut, n, |cs|);
    }
  }

  /** What inserting `n` new rows leaves: no lead changed, and all rows in exactly when the slugs are fresh. */
  ghost predicate Leaves(was: Table, now: Table, merged: map<Phone, Lead>, draw: nat -> string, n: nat) {
    && |was.leads| <= |now.leads| <= |was.leads| + n
    && (forall p :: p in was.leads ==> p in now.leads && now.leads[p] == was.leads[p])
    && (|now.leads| == |was.leads| + n <==> FreshSlugs(was.slugs, draw, n))
    && (|now.leads| == |was.leads| + n ==> now.leads == merged)
  }

  /**
   What an import answers and does. Whatever slugs are drawn, every row is counted once and no lead is changed;
   nothing is skipped exactly when the slugs are fresh, and then the leads are those of `Import`.
   */
  ghost predicate Accounts(c: Counts, was: Table, now: Table, rows: seq<Row>, normalize: Normalizer,
                           draw: nat -> string, optOut: set<Phone>) {
    && c.total == |rows| == c.invalid + c.duplicates + c.inserted + c.skipped
    && c.valid == c.total - c.invalid
    && c.invalid == Invalid(rows, normalize)
    && c.duplicates == Duplicates(was.leads, rows, normalize, optOut)
    && c.suppressed == |Known(Phones(Firsts(CleanRows(rows, normalize))), optOut)|
    && c.inserted == |now.leads| - |was.leads|
    && 0 <= c.skipped
    && Leaves(was, now, Import(was.leads, rows, normalize, optOut), draw, c.inserted + c.skipped)
  }

  lemma StepsAccount(c: Counts, was: Table, now: Table, rows: seq<Row>, normalize: Normalizer,
                     draw: nat -> string, optOut: set<Phone>, n: nat)
    requires c.total == |rows| && c.valid == |CleanRows(rows, normalize)| && c.invalid == Invalid(rows, normalize)
    requires c.duplicates == c.valid - n == Duplicates(was.leads, rows, normalize, optOut)
    requires c.suppressed == |Known(Phones(Firsts(CleanRows(rows, normalize))), optOut)|
    requires c.inserted == |now.leads| - |was.leads| && c.skipped == n - c.inserted
    requires Leaves(was, now, Import(was.leads, rows, normalize, optOut), draw, n)
    ensures Accounts(c, was, now, rows, normalize, draw, optOut)
  {
    SameNumber(was, now, Import(was.leads, rows, normalize, optOut), draw, n, c.inserted + c.skipped);
  }

  lemma SameNumber(was: Table, now: Table, merged: map<Phone, Lead>, draw: nat -> string, n: nat, n': nat)
    requires Leaves(was, now, merged, draw, n) && n == n'
    ensures Leaves(was, now, merged, draw, n')
  {
  }

  class LeadImportService {
    var table: Table
    var optOut: set<Phone>

    method CleanFile(rows: seq<Row>, normalize: Normalizer) returns (cleaned: seq<Clean>, invalid: nat)
      ensures cleaned == CleanRows(rows, normalize) && invalid == Invalid(rows, normalize)
    {
      cleaned, invalid := [], 0;
      var i := 0;
      while i < |rows|
        invariant i <= |rows| && cleaned == CleanRows(rows[..i], normalize) && invalid == i - |cleaned|
      {
        assert rows[..i + 1][..i] == rows[..i];
        var phone := normalize(rows[i].raw);
        if phone.None? {
          invalid := invalid + 1;
        } else {
          cleaned := cleaned + [Clean(phone.value, rows[i].name, rows[i].meta)];
        }
        i := i + 1;
      }
      assert rows[..i] == rows;
    }

    method DedupInFile(cleaned: seq<Clean>) returns (deduped: seq<Clean>, dups: nat)
      ensures deduped == Firsts(cleaned) && dups == |cleaned| - |deduped|
    {
      deduped, dups := [], 0;
      var seen: set<Phone> := {};
      var i := 0;
      while i < |cleaned|
        invariant i <= |cleaned| && deduped == Firsts(cleaned[..i]) && dups == i - |deduped|
        invariant seen == PhoneSet(cleaned[..i])
      {
        assert cleaned[..i + 1][..i] == cleaned[..i];
        if cleaned[i].phone in seen {
          dups := dups + 1;
        } else {
          deduped := deduped + [cleaned[i]];
        }
        seen := seen + {cleaned[i].phone};
        i := i + 1;
      }
      assert cleaned[..i] == cleaned;
    }

    method DropKnown(deduped: seq<Clean>, taken: set<Phone>) returns (new': seq<Clean>, known: nat)
      ensures new' == NotIn(deduped, taken) && known == |deduped| - |new'|
    {
      new', known := [], 0;
      var i := 0;
      while i < |deduped|
        invariant i <= |deduped| && new' == NotIn(deduped[..i], taken) && known == i - |new'|
      {
        assert deduped[..i + 1][..i] == deduped[..i];
        if deduped[i].phone in taken {
          known := known + 1;
        } else {
          new' := new' + [deduped[i]];
        }
        i := i + 1;
      }
      assert deduped[..i] == deduped;
    }

    /** One row of `createMany`: the two unique indexes may pass it over. */
    method CreateOne(c: Clean, slug: string, suppressed: set<Phone>) returns (created: bool)
      modifies this`table
      ensures table == InsertOne(old(table), c, slug, suppressed)
      ensures |table.leads| == |old(table.leads)| + if created then 1 else 0
    {
      created := c.phone !in table.leads && slug !in table.slugs;
      if created {
        table := Table(table.leads[c.phone := LeadOf(c, suppressed)], table.slugs + {slug});
      }
    }

    /** One `createMany`: rows `at` and on of `all`, each with the slug drawn for it. */
    method CreatePart(part: seq<Clean>, at: nat, draw: nat -> string, suppressed: set<Phone>,
                      ghost all: seq<Clean>, ghost start: Table) returns (count: int, next: nat)
      requires at + |part| <= |all| && forall i :: 0 <= i < |part| ==> part[i] == all[at + i]
      requires table == InsertAll(start, all[..at], draw, suppressed)
      modifies this`table
      ensures next == at + |part| && table == InsertAll(start, all[..next], draw, suppressed)
      ensures count == |table.leads| - |old(table.leads)|
    {
      count, next := 0, at;
      var k := 0;
      while k < |part|
        invariant k <= |part| && next == at + k
        invariant table == InsertAll(start, all[..next], draw, suppressed)
        invariant count == |table.leads| - |old(table.leads)|
      {
        InsertNext(start, all, next, draw, suppressed);
        var created := CreateOne(part[k], draw(next), suppressed);
        if created {
          count := count + 1;
        }
        k, next := k + 1, next + 1;
      }
    }

    /** Step 6: the rows in chunks. */
    method CreateMany(new': seq<Clean>, draw: nat -> string, suppressed: set<Phone>) returns (inserted: int)
      modifies this`table
      ensures table == InsertAll(old(table), new', draw, suppressed)
      ensures inserted == |table.leads| - |old(table.leads)|
    {
      inserted := 0;
      var parts := Chunk(new', DB_PARAM_CHUNK);
      var i, at: nat := 0, 0;
      while i < |parts|
        invariant i <= |parts| && at == |Flatten(parts[..i])| <= |new'|
        invariant table == InsertAll(old(table), new'[..at], draw, suppressed)
        invariant inserted == |table.leads| - |old(table.leads)|
      {
        PartIsSlice(parts, i, new');
        var count, next := CreatePart(parts[i], at, draw, suppressed, new', old(table));
        inserted := inserted + count;
        i, at := i + 1, next;
      }
      assert parts[..i] == parts;
      assert new'[..at] == new';
    }

    /**
     `import`. Whatever slugs are drawn, every row is counted once and no lead is changed; when they are fresh
     the leads are those of the one-line definition and nothing is skipped.
     */
    method ImportRows(rows: seq<Row>, normalize: Normalizer, draw: nat -> string) returns (r: Result)
      modifies this`table
      ensures rows == [] <==> r.EmptyFile?
      ensures rows == [] ==> table == old(table)
      ensures r.Imported? ==> Accounts(r.counts, old(table), table, rows, normalize, draw, optOut)
    {
      if rows == [] {
        return EmptyFile;
      }
      var cleaned, invalid := CleanFile(rows, normalize);
      var deduped, inFileDups := DedupInFile(cleaned);
      var phones := Phones(deduped);
      var existing := CollectPhones(phones, table.leads.Keys);
      var suppressed := CollectPhones(phones, optOut);
      var new', known := DropKnown(deduped, existing);
      ghost var was := table;
      LookupIsEnough(deduped, table.leads.Keys);
      LookupIsEnough(deduped, optOut);
      var inserted := CreateMany(new', draw, suppressed);
      OutcomeOfSteps(was, cleaned, existing, draw, suppressed, optOut);
      var counts := Counts(|rows|, |rows| - invalid, inFileDups + known, invalid, |suppressed|, inserted, |new'| - inserted);
      StepsAccount(counts, was, table, rows, normalize, draw, optOut, |new'|);
      r := Imported(counts);
    }
  }

  /** A piece is where the pieces before it end. */
  lemma PartIsSlice<T>(parts: seq<seq<T>>, i: nat, items: seq<T>)
    requires i < |parts| && Flatten(parts) == items
    ensures var at := |Flatten(parts[..i])|;
      && |Flatten(parts[..i + 1])| == at + |parts[i]| <= |items|
      && forall j :: 0 <= j < |parts[i]| ==> parts[i][j] == items[at + j]
  {
    var before, part := Flatten(parts[..i]), parts[i];
    assert parts[..i + 1][..i] == parts[..i];
    assert Flatten(parts[..i + 1]) == before + part;
    PrefixOfFlatten(parts, i + 1);
    forall j | 0 <= j < |part| ensures part[j] == items[|before| + j] {
      assert (before + part)[|before| + j] == part[j];
    }
  }

  lemma {:induction false} PrefixOfFlatten<T>(parts: seq<seq<T>>, i: nat)
    requires i <= |parts|
    ensures Flatten(parts[..i]) <= Flatten(parts)
  {
    if i == |parts| {
      assert parts[..i] == parts;
    } else {
      var n := |parts| - 1;
      PrefixOfFlatten(parts[..n], i);
      assert parts[..n][..i] == parts[..i];
    }
  }

  /** What was found about the file's phones agrees with the whole table on each of its rows. */
  lemma {:induction false} LookupAgrees(cs: seq<Clean>, phones: seq<Phone>, all: set<Phone>)
    requires |cs| <= |phones| && forall i :: 0 <= i < |cs| ==> phones[i] == cs[i].phone
    ensures SameOn(cs, Known(phones, all), all)
  {
    if cs != [] {
      var n := |cs| - 1;
      LookupAgrees(cs[..n], phones, all);
      assert phones[n] in phones;
    }
  }

  lemma LookupIsEnough(cs: seq<Clean>, all: set<Phone>)
    ensures SameOn(cs, Known(Phones(cs), all), all)
  {
    LookupAgrees(cs, Phones(cs), all);
  }

  lemma {:induction false} SameVerdicts(t: Table, cs: seq<Clean>, draw: nat -> string, some: set<Phone>, all: set<Phone>)
    requires SameOn(cs, some, all)
    ensures InsertAll(t, cs, draw, some) == InsertAll(t, cs, draw, all)
  {
    if cs != [] {
      SameVerdicts(t, cs[..|cs| - 1], draw, some, all);
    }
  }

  lemma {:induction false} SameOnFewer(cs: seq<Clean>, taken: set<Phone>, some: set<Phone>, all: set<Phone>)
    requires SameOn(cs, some, all)
    ensures SameOn(NotIn(cs, taken), some, all)
  {
    if cs != [] {
      var n := |cs| - 1;
      SameOnFewer(cs[..n], taken, some, all);
      Snoc(NotIn(cs[..n], taken), cs[n]);
    }
  }

  /** The steps of the source, on any table: what they count, and when they leave what the definition says. */
  lemma OutcomeOfSteps(t: Table, cleaned: seq<Clean>, existing: set<Phone>, draw: nat -> string,
                       suppressed: set<Phone>, optOut: set<Phone>)
    requires SameOn(Firsts(cleaned), existing, t.leads.Keys) && SameOn(Firsts(cleaned), suppressed, optOut)
    ensures var new' := NotIn(Firsts(cleaned), existing);
      var t' := InsertAll(t, new', draw, suppressed);
      var merged := Merge(t.leads, cleaned, optOut);
      && |new'| == |cleaned| - Repeats(t.leads, cleaned, optOut)
      && Leaves(t, t', merged, draw, |new'|)
  {
    var deduped := Firsts(cleaned);
    var new' := NotIn(deduped, existing);
    FirstsAreDistinct(cleaned);
    FirstsMergeTheSame(t.leads, cleaned, optOut);
    NotInIsDistinct(deduped, existing);
    NotInIsNew(deduped, existing, t.leads.Keys);
    NewOnesSuffice(t.leads, deduped, existing, optOut);
    MergeSize(t.leads, cleaned, optOut);
    SameOnFewer(deduped, existing, suppressed, optOut);
    SameVerdicts(t, new', draw, suppressed, optOut);
    NothingSkippedExactlyWhenFresh(t, new', draw, optOut);
    var t' := InsertAll(t, new', draw, optOut);
    forall p ensures p in t.leads ==> p in t'.leads && t'.leads[p] == t.leads[p] {
      InsertHas(t, new', draw, optOut, p);
    }
    InsertHas(t, new', draw, optOut, "");
  }
}
