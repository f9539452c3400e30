/** The record filter and the filter badges of the data panel
    (src/components/dashboard/DataView.tsx). Every filter key is guarded by
    JavaScript truthiness, so `0`, `""`, `null` and `undefined` constrain
    nothing. */
module DataView {
  import opened JsValues
  import opened Store

  // ---------------------------------------------------------------------------
  // The per-key constraints

  /** The bound an amount key imposes: only a truthy number constrains. */
  function AmountBound(p: Prop<int>): (r: Option<int>)
    ensures r.Some? <==> NumberEntry(p).Some? && Truthy(NumberEntry(p).value)
    ensures r.Some? ==> p == Value(r.value)
  {
    if p.Value? && p.value != 0 then Some(p.value) else None
  }

  /** The text a string key demands: only a non-empty string constrains. */
  function TextBound(p: Prop<string>): (r: Option<string>)
    ensures r.Some? <==> StringEntry(p).Some? && Truthy(StringEntry(p).value)
    ensures r.Some? ==> p == Value(r.value)
  {
    if p.Value? && p.value != "" then Some(p.value) else None
  }

  /** Whether the record filter applies a bound for key `k`. */
  predicate Constrains(f: FilterState, k: FilterKey)
  {
    match k
    case MinAmount => AmountBound(f.minAmount).Some?
    case MaxAmount => AmountBound(f.maxAmount).Some?
    case Category => TextBound(f.category).Some?
    case Region => TextBound(f.region).Some?
    case Search => TextBound(f.search).Some?
  }

  // ---------------------------------------------------------------------------
  // Case-insensitive substring search

  /** `toLowerCase` on ASCII letters; other characters are left alone. */
  function LowerChar(c: char): char
  {
    if 'A' <= c <= 'Z' then (c as int + 32) as char else c
  }

  function Lower(s: string): string
  {
    seq(|s|, i requires 0 <= i < |s| => LowerChar(s[i]))
  }

  predicate OccursAt(hay: string, needle: string, i: int)
  {
    0 <= i && i + |needle| <= |hay| && hay[i..i + |needle|] == needle
  }

  /** `hay.includes(needle)`. */
  function Includes(hay: string, needle: string): bool
    decreases |hay|
  {
    if needle <= hay then true
    else if hay == [] then false
    else Includes(hay[1..], needle)
  }

  /** `Includes` holds exactly when the needle occurs at some position. */
  lemma {:induction false} IncludesIff(hay: string, needle: string)
    ensures Includes(hay, needle) <==> exists i :: OccursAt(hay, needle, i)
    decreases |hay|
  {
    if needle <= hay {
      assert OccursAt(hay, needle, 0);
    } else if hay == [] {
    } else {
      IncludesIff(hay[1..], needle);
      if i :| OccursAt(hay[1..], needle, i) {
        assert hay[1..][i..i + |needle|] == hay[i + 1..i + 1 + |needle|];
        assert OccursAt(hay, needle, i + 1);
      }
      if i :| OccursAt(hay, needle, i) {
        assert i != 0;
        assert hay[1..][i - 1..i - 1 + |needle|] == hay[i..i + |needle|];
        assert OccursAt(hay[1..], needle, i - 1);
      }
    }
  }

  // ---------------------------------------------------------------------------
  // The record predicate and the filtered list

  /** The callback given to `data.filter`: each test is skipped when its key
      is falsy. */
  predicate Keep(f: FilterState, x: SaleRecord)
  {
    if AmountBound(f.minAmount).Some? && x.amount < AmountBound(f.minAmount).value then false
    else if AmountBound(f.maxAmount).Some? && x.amount > AmountBound(f.maxAmount).value then false
    else if TextBound(f.category).Some? && x.category != TextBound(f.category).value then false
    else if TextBound(f.region).Some? && x.region != TextBound(f.region).value then false
    else if TextBound(f.search).Some? && !Includes(Lower(x.product), Lower(TextBound(f.search).value)) then false
    else true
  }

  /** A record is kept exactly when it meets every truthy key of the bag:
      at least `minAmount`, at most `maxAmount`, equal `category`, equal
      `region`, and a lower-cased product containing the lower-cased `search`. */
  lemma KeepIff(f: FilterState, x: SaleRecord)
    ensures Keep(f, x) <==>
      && (Constrains(f, MinAmount) ==> x.amount >= f.minAmount.value)
      && (Constrains(f, MaxAmount) ==> x.amount <= f.maxAmount.value)
      && (Constrains(f, Category) ==> x.category == f.category.value)
      && (Constrains(f, Region) ==> x.region == f.region.value)
      && (Constrains(f, Search) ==>
            exists i :: OccursAt(Lower(x.product), Lower(f.search.value), i))
  {
    if Constrains(f, Search) {
      IncludesIff(Lower(x.product), Lower(f.search.value));
    }
  }

  /** `filteredData`. */
  function Filtered(data: seq<SaleRecord>, f: FilterState): (r: seq<SaleRecord>)
    ensures |r| <= |data|
    ensures forall i :: 0 <= i < |r| ==> Keep(f, r[i])
    ensures forall x :: x in r ==> x in data
  {
    if data == [] then []
    else (if Keep(f, data[0]) then [data[0]] else []) + Filtered(data[1..], f)
  }

  /** `a` is `b` with some elements left out, the rest in their order. */
  ghost predicate IsSubsequence<T>(a: seq<T>, b: seq<T>)
    decreases |b|
  {
    if b == [] then a == []
    else (a != [] && a[0] == b[0] && IsSubsequence(a[1..], b[1..])) || IsSubsequence(a, b[1..])
  }

  /** The filtered list keeps records in their original order. */
  lemma {:induction false} FilteredIsSubsequence(data: seq<SaleRecord>, f: FilterState)
    ensures IsSubsequence(Filtered(data, f), data)
  {
    if data != [] {
      var rest := Filtered(data[1..], f);
      FilteredIsSubsequence(data[1..], f);
      if Keep(f, data[0]) {
        assert ([data[0]] + rest)[1..] == rest;
      } else {
        assert [] + rest == rest;
      }
    }
  }

  /** Soundness and completeness, with multiplicity: each record occurs in
      the filtered list as often as in `data` if it is kept, and never if not. */
  lemma {:induction false} FilteredCounts(data: seq<SaleRecord>, f: FilterState, x: SaleRecord)
    ensures multiset(Filtered(data, f))[x] == if Keep(f, x) then multiset(data)[x] else 0
  {
    if data != [] {
      FilteredCounts(data[1..], f, x);
      assert data == [data[0]] + data[1..];
      assert multiset(data) == multiset([data[0]]) + multiset(data[1..]);
    }
  }

  /** A record is in the filtered list exactly when it is in `data` and kept. */
  lemma FilteredMembership(data: seq<SaleRecord>, f: FilterState, x: SaleRecord)
    ensures x in Filtered(data, f) <==> x in data && Keep(f, x)
  {
    FilteredCounts(data, f, x);
  }

  /** A bag with no truthy key keeps every record. */
  predicate Unconstrained(f: FilterState)
  {
    forall k :: !Constrains(f, k)
  }

  lemma {:induction false} UnconstrainedShowsAll(data: seq<SaleRecord>, f: FilterState)
    requires Unconstrained(f)
    ensures Filtered(data, f) == data
  {
    assert !Constrains(f, MinAmount) && !Constrains(f, MaxAmount) && !Constrains(f, Category)
      && !Constrains(f, Region) && !Constrains(f, Search);
    if data != [] {
      UnconstrainedShowsAll(data[1..], f);
      assert data == [data[0]] + data[1..];
    }
  }

  /** The empty bag shows all data. */
  lemma NoFiltersShowsAll(data: seq<SaleRecord>)
    ensures Filtered(data, NoFilters) == data
  {
    UnconstrainedShowsAll(data, NoFilters);
  }

  /** Two bags that impose the same constraints, with the search text compared
      after lower-casing. */
  predicate SameConstraints(f: FilterState, g: FilterState)
  {
    && AmountBound(f.minAmount) == AmountBound(g.minAmount)
    && AmountBound(f.maxAmount) == AmountBound(g.maxAmount)
    && TextBound(f.category) == TextBound(g.category)
    && TextBound(f.region) == TextBound(g.region)
    && TextBound(f.search).Some? == TextBound(g.search).Some?
    && (TextBound(f.search).Some? ==> Lower(TextBound(f.search).value) == Lower(TextBound(g.search).value))
  }

  lemma {:induction false} SameConstraintsSameList(data: seq<SaleRecord>, f: FilterState, g: FilterState)
    requires SameConstraints(f, g)
    ensures Filtered(data, f) == Filtered(data, g)
  {
    if data != [] {
      assert Keep(f, data[0]) == Keep(g, data[0]);
      SameConstraintsSameList(data[1..], f, g);
    }
  }

  /** A `minAmount`/`maxAmount` of 0 or an empty `category`/`region`/`search`
      filters exactly like an absent key. */
  lemma FalsyValuesImposeNothing(data: seq<SaleRecord>, f: FilterState)
    ensures Filtered(data, f.(minAmount := Value(0))) == Filtered(data, f.(minAmount := Absent))
    ensures Filtered(data, f.(maxAmount := Value(0))) == Filtered(data, f.(maxAmount := Absent))
    ensures Filtered(data, f.(category := Value(""))) == Filtered(data, f.(category := Absent))
    ensures Filtered(data, f.(region := Value(""))) == Filtered(data, f.(region := Absent))
    ensures Filtered(data, f.(search := Value(""))) == Filtered(data, f.(search := Absent))
  {
    SameConstraintsSameList(data, f.(minAmount := Value(0)), f.(minAmount := Absent));
    SameConstraintsSameList(data, f.(maxAmount := Value(0)), f.(maxAmount := Absent));
    SameConstraintsSameList(data, f.(category := Value("")), f.(category := Absent));
    SameConstraintsSameList(data, f.(region := Value("")), f.(region := Absent));
    SameConstraintsSameList(data, f.(search := Value("")), f.(search := Absent));
  }

  /** The search ignores the case of ASCII letters. */
  lemma SearchIgnoresCase(data: seq<SaleRecord>, f: FilterState, s: string, t: string)
    requires Lower(s) == Lower(t)
    ensures Filtered(data, f.(search := Value(s))) == Filtered(data, f.(search := Value(t)))
  {
    assert |s| == |Lower(s)| == |Lower(t)| == |t|;
    SameConstraintsSameList(data, f.(search := Value(s)), f.(search := Value(t)));
  }

  // ---------------------------------------------------------------------------
  // Monotonicity

  /** `g` keeps every truthy constraint of `f` unchanged (and may add more). */
  predicate Tightens(g: FilterState, f: FilterState)
  {
    && (AmountBound(f.minAmount).Some? ==> AmountBound(g.minAmount) == AmountBound(f.minAmount))
    && (AmountBound(f.maxAmount).Some? ==> AmountBound(g.maxAmount) == AmountBound(f.maxAmount))
    && (TextBound(f.category).Some? ==> TextBound(g.category) == TextBound(f.category))
    && (TextBound(f.region).Some? ==> TextBound(g.region) == TextBound(f.region))
    && (TextBound(f.search).Some? ==> TextBound(g.search) == TextBound(f.search))
  }

  /** Adding constraints can only shrink the filtered list. */
  lemma {:induction false} FilteredMonotone(data: seq<SaleRecord>, f: FilterState, g: FilterState)
    requires Tightens(g, f)
    ensures IsSubsequence(Filtered(data, g), Filtered(data, f))
  {
    if data != [] {
      var rf, rg := Filtered(data[1..], f), Filtered(data[1..], g);
      FilteredMonotone(data[1..], f, g);
      if Keep(f, data[0]) {
        assert ([data[0]] + rf)[1..] == rf;
        if Keep(g, data[0]) {
          assert ([data[0]] + rg)[1..] == rg;
        } else {
          assert [] + rg == rg;
        }
      } else {
        assert !Keep(g, data[0]);
        assert [] + rf == rf && [] + rg == rg;
      }
    }
  }

  /** A `setFilter` whose keys are all unconstrained in the current bag only
      adds constraints, so the filtered list can only shrink. */
  lemma MergeNewConstraintsShrinks(data: seq<SaleRecord>, f: FilterState, p: FilterState)
    requires forall k :: k in Keys(p) ==> !Constrains(f, k)
    ensures IsSubsequence(Filtered(data, Merge(f, p)), Filtered(data, f))
  {
    var g := Merge(f, p);
    assert MinAmount in Keys(p) ==> !Constrains(f, MinAmount);
    assert MaxAmount in Keys(p) ==> !Constrains(f, MaxAmount);
    assert Category in Keys(p) ==> !Constrains(f, Category);
    assert Region in Keys(p) ==> !Constrains(f, Region);
    assert Search in Keys(p) ==> !Constrains(f, Search);
    assert Tightens(g, f);
    FilteredMonotone(data, f, g);
  }

  // ---------------------------------------------------------------------------
  // The badge row

  /** The keys `Object.entries(activeFilters)` renders a badge for. */
  function BadgeKeys(f: FilterState): set<FilterKey>
  {
    set k | k in Keys(f) && Truthy(Entry(f, k).value)
  }

  /** Whether "Showing all data" is rendered: `Object.keys(activeFilters)` is empty. */
  predicate ShowsAllDataLabel(f: FilterState)
  {
    |Keys(f)| == 0
  }

  /** A badge appears exactly for the keys the record filter applies. */
  lemma BadgesAreConstraints(f: FilterState, k: FilterKey)
    ensures k in BadgeKeys(f) <==> Constrains(f, k)
  {
  }

  /** The label appears exactly for the empty bag, and then there are no
      badges and every record is shown. */
  lemma ShowsAllDataIff(data: seq<SaleRecord>, f: FilterState)
    ensures ShowsAllDataLabel(f) <==> f == NoFilters
    ensures ShowsAllDataLabel(f) ==> BadgeKeys(f) == {} && Filtered(data, f) == data
  {
    if ShowsAllDataLabel(f) {
      assert Keys(f) == {};
      assert MinAmount !in Keys(f) && MaxAmount !in Keys(f) && Category !in Keys(f)
        && Region !in Keys(f) && Search !in Keys(f);
      NoFiltersShowsAll(data);
    }
  }

  /** A key holding a falsy value shows neither a badge nor the label, while
      every record is still shown. */
  lemma FalsyKeyHidesLabel(data: seq<SaleRecord>)
    ensures var f := NoFilters.(region := Value(""));
      !ShowsAllDataLabel(f) && BadgeKeys(f) == {} && Filtered(data, f) == data
  {
    var f := NoFilters.(region := Value(""));
    assert Region in Keys(f);
    assert forall k :: !Constrains(f, k);
    UnconstrainedShowsAll(data, f);
  }
}
