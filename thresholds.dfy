/** `build_thresholds` (statsvv.py:31-57): the cleaned fare records are
    grouped twice, by (出發地, 目的地, 淡旺季, 飛行時間) for the seasonal table
    and by (出發地, 目的地, 飛行時間) for the general one, and each non-empty
    group becomes one row holding its quartile band. pandas' `groupby` sorts
    the group keys and `reset_index` lays the rows out in that order, so a
    table is modelled as a sequence of rows in strictly ascending key order. */
module Thresholds {
  import opened Strings
  import opened Sorting
  import opened Quantiles

  /** The labels `load_data` leaves in the 飛行時間 column (statsvv.py:26);
      rows whose slot does not map become NaN and drop out of every group. */
  datatype Slot = Morning | Noon | Evening

  function SlotName(s: Slot): (name: string)
    ensures name in ["Morning", "Noon", "Evening"]
  {
    match s
    case Morning => "Morning"
    case Noon => "Noon"
    case Evening => "Evening"
  }

  /** One cleaned fare record: trimmed categorical fields, an integer price
      and a mapped time slot. */
  datatype FareRecord = FareRecord(dep: string, arr: string, season: string, slot: Slot, price: int)

  /** A group key. The general table's keys carry no season. */
  datatype Key = Key(dep: string, arr: string, season: Option<string>, slot: Slot)

  function KeyOf(r: FareRecord, bySeason: bool): (k: Key)
    ensures k.dep == r.dep && k.arr == r.arr && k.slot == r.slot
    ensures k.season == if bySeason then Some(r.season) else None
  {
    Key(r.dep, r.arr, if bySeason then Some(r.season) else None, r.slot)
  }

  datatype Row = Row(key: Key, band: Band)

  /** A threshold table. `hasSeason` says whether it has the 淡旺季 column. */
  datatype Table = Table(hasSeason: bool, rows: seq<Row>)

  // ---------------------------------------------------------------------
  // The order pandas sorts group keys in: tuple order, each field compared
  // as a Python string.

  predicate SeasonLess(a: Option<string>, b: Option<string>) {
    match (a, b)
    case (None, Some(_)) => true
    case (Some(x), Some(y)) => StrLess(x, y)
    case _ => false
  }

  lemma SeasonLessIrreflexive(a: Option<string>)
    ensures !SeasonLess(a, a)
  {
    if a.Some? {
      StrLessIrreflexive(a.value);
    }
  }

  /** Tuple order on group keys: departure first, then arrival, season and
      slot label. It is strict, and a smaller key never has a later
      departure. */
  function KeyLess(a: Key, b: Key): (lt: bool)
    ensures lt ==> a != b
    ensures lt ==> a.dep == b.dep || StrLess(a.dep, b.dep)
    ensures lt && a.dep == b.dep ==> a.arr == b.arr || StrLess(a.arr, b.arr)
  {
    StrLessIrreflexive(a.dep);
    StrLessIrreflexive(a.arr);
    SeasonLessIrreflexive(a.season);
    StrLessIrreflexive(SlotName(a.slot));
    || StrLess(a.dep, b.dep)
    || (a.dep == b.dep && StrLess(a.arr, b.arr))
    || (a.dep == b.dep && a.arr == b.arr && SeasonLess(a.season, b.season))
    || (a.dep == b.dep && a.arr == b.arr && a.season == b.season
        && StrLess(SlotName(a.slot), SlotName(b.slot)))
  }

  lemma KeyLessIrreflexive(a: Key)
    ensures !KeyLess(a, a)
  {
    StrLessIrreflexive(a.dep);
    StrLessIrreflexive(a.arr);
    if a.season.Some? {
      StrLessIrreflexive(a.season.value);
    }
    StrLessIrreflexive(SlotName(a.slot));
  }

  lemma KeyLessTransitive(a: Key, b: Key, c: Key)
    requires KeyLess(a, b) && KeyLess(b, c)
    ensures KeyLess(a, c)
  {
    if StrLess(a.dep, b.dep) && StrLess(b.dep, c.dep) {
      StrLessTransitive(a.dep, b.dep, c.dep);
    } else if a.dep == b.dep == c.dep {
      if StrLess(a.arr, b.arr) && StrLess(b.arr, c.arr) {
        StrLessTransitive(a.arr, b.arr, c.arr);
      } else if a.arr == b.arr == c.arr {
        if a.season.Some? && b.season.Some? && c.season.Some?
          && StrLess(a.season.value, b.season.value) && StrLess(b.season.value, c.season.value)
        {
          StrLessTransitive(a.season.value, b.season.value, c.season.value);
        } else if a.season == b.season == c.season {
          StrLessTransitive(SlotName(a.slot), SlotName(b.slot), SlotName(c.slot));
        }
      }
    }
  }

  lemma KeyLessTotal(a: Key, b: Key)
    requires a != b
    ensures KeyLess(a, b) || KeyLess(b, a)
  {
    if a.dep != b.dep {
      StrLessTotal(a.dep, b.dep);
    } else if a.arr != b.arr {
      StrLessTotal(a.arr, b.arr);
    } else if a.season != b.season {
      if a.season.Some? && b.season.Some? {
        StrLessTotal(a.season.value, b.season.value);
      }
    } else {
      assert SlotName(a.slot) != SlotName(b.slot);
      StrLessTotal(SlotName(a.slot), SlotName(b.slot));
    }
  }

  predicate Ascending(ks: seq<Key>) {
    forall i, j :: 0 <= i < j < |ks| ==> KeyLess(ks[i], ks[j])
  }

  /** A sequence of keys in strictly ascending order is fixed by the set of
      keys it holds. */
  lemma {:induction false} AscendingUnique(a: seq<Key>, b: seq<Key>)
    requires Ascending(a) && Ascending(b)
    requires forall x :: x in a <==> x in b
    ensures a == b
  {
    if b != [] {
      assert b[0] in a;
    }
    if a == [] {
    } else {
      assert a[0] in b;
      if a[0] != b[0] {
        var j :| 0 <= j < |b| && b[j] == a[0];
        var i :| 0 <= i < |a| && a[i] == b[0];
        assert i != 0 && j != 0;
        assert KeyLess(a[0], b[0]) && KeyLess(b[0], a[0]);
        KeyLessTransitive(a[0], b[0], a[0]);
        KeyLessIrreflexive(a[0]);
      }
      forall x
        ensures x in a[1..] <==> x in b[1..]
      {
        AscendingTail(a, x);
        AscendingTail(b, x);
      }
      AscendingUnique(a[1..], b[1..]);
    }
  }

  lemma AscendingTail(a: seq<Key>, x: Key)
    requires Ascending(a) && |a| > 0
    ensures Ascending(a[1..])
    ensures x in a[1..] <==> (x in a && x != a[0])
  {
    if x in a[1..] {
      var i :| 1 <= i < |a| && a[i] == x;
      assert KeyLess(a[0], a[i]);
      KeyLessIrreflexive(a[0]);
    }
    if x in a && x != a[0] {
      var i :| 0 <= i < |a| && a[i] == x;
      assert a[1..][i - 1] == x;
    }
  }

  // ---------------------------------------------------------------------
  // Grouping.

  /** Adds `k` to an ascending, duplicate-free list of keys. */
  function InsertKey(k: Key, ks: seq<Key>): (r: seq<Key>)
    requires Ascending(ks)
    ensures Ascending(r)
    ensures forall x :: x in r <==> x == k || x in ks
  {
    if ks == [] then
      [k]
    else if k == ks[0] then
      ks
    else if KeyLess(k, ks[0]) then
      assert forall j :: 0 < j < |ks| ==> KeyLess(ks[0], ks[j]);
      forall j | 0 < j < |ks| ensures KeyLess(k, ks[j]) {
        KeyLessTransitive(k, ks[0], ks[j]);
      }
      [k] + ks
    else
      KeyLessTotal(k, ks[0]);
      forall x ensures x in ks[1..] <==> (x in ks && x != ks[0]) {
        AscendingTail(ks, x);
      }
      var rest := InsertKey(k, ks[1..]);
      assert forall j :: 0 <= j < |rest| ==> KeyLess(ks[0], rest[j]) by {
        forall j | 0 <= j < |rest| ensures KeyLess(ks[0], rest[j]) {
          assert rest[j] in rest;
          if rest[j] != k {
            var m :| 0 < m < |ks| && ks[m] == rest[j];
          }
        }
      }
      [ks[0]] + rest
  }

  /** Some record falls into the group `k`. */
  ghost predicate Occurs(rs: seq<FareRecord>, k: Key, bySeason: bool) {
    exists r :: r in rs && KeyOf(r, bySeason) == k
  }

  /** The keys of the non-empty groups, in the order pandas sorts them. */
  function GroupKeys(rs: seq<FareRecord>, bySeason: bool): (ks: seq<Key>)
    ensures Ascending(ks)
    ensures forall k :: k in ks <==> Occurs(rs, k, bySeason)
  {
    if rs == [] then
      []
    else
      assert forall r :: r in rs <==> r == rs[0] || r in rs[1..];
      InsertKey(KeyOf(rs[0], bySeason), GroupKeys(rs[1..], bySeason))
  }

  /** The prices of the records in group `k`, in record order. */
  function GroupPrices(rs: seq<FareRecord>, k: Key, bySeason: bool): (ps: seq<int>)
    ensures |ps| <= |rs|
  {
    if rs == [] then
      []
    else
      (if KeyOf(rs[0], bySeason) == k then [rs[0].price] else []) + GroupPrices(rs[1..], k, bySeason)
  }

  /** A group has prices exactly when some record falls into it. */
  lemma {:induction false} GroupPricesNonEmpty(rs: seq<FareRecord>, k: Key, bySeason: bool)
    ensures |GroupPrices(rs, k, bySeason)| > 0 <==> Occurs(rs, k, bySeason)
  {
    if rs != [] {
      assert forall r :: r in rs <==> r == rs[0] || r in rs[1..];
      GroupPricesNonEmpty(rs[1..], k, bySeason);
    }
  }

  /** The group's prices are exactly the prices of the records with key `k`. */
  lemma {:induction false} GroupPricesMembers(rs: seq<FareRecord>, k: Key, bySeason: bool, p: int)
    ensures p in GroupPrices(rs, k, bySeason) <==> exists r :: r in rs && KeyOf(r, bySeason) == k && r.price == p
  {
    if rs != [] {
      assert forall r :: r in rs <==> r == rs[0] || r in rs[1..];
      GroupPricesMembers(rs[1..], k, bySeason, p);
    }
  }

  /** Each price occurs in a group exactly as often as records of that group
      carry it: grouping neither merges nor drops repeated fares. */
  lemma GroupPricesCount(rs: seq<FareRecord>, k: Key, bySeason: bool, p: int)
    ensures multiset(GroupPrices(rs, k, bySeason))[p]
         == |set i | 0 <= i < |rs| && KeyOf(rs[i], bySeason) == k && rs[i].price == p|
  {
    GroupPricesCountFrom(rs, k, bySeason, p, 0);
    assert rs[0..] == rs;
    assert PricedFrom(rs, k, bySeason, p, 0)
        == set i | 0 <= i < |rs| && KeyOf(rs[i], bySeason) == k && rs[i].price == p;
  }

  /** The records of group `k` priced `p`, from position `lo` on. */
  ghost function PricedFrom(rs: seq<FareRecord>, k: Key, bySeason: bool, p: int, lo: nat): set<nat> {
    set i: nat | lo <= i < |rs| && KeyOf(rs[i], bySeason) == k && rs[i].price == p
  }

  lemma PricedFromStep(rs: seq<FareRecord>, k: Key, bySeason: bool, p: int, lo: nat)
    requires lo < |rs|
    ensures |PricedFrom(rs, k, bySeason, p, lo)|
         == (if KeyOf(rs[lo], bySeason) == k && rs[lo].price == p then 1 else 0) + |PricedFrom(rs, k, bySeason, p, lo + 1)|
  {
    var here, later := PricedFrom(rs, k, bySeason, p, lo), PricedFrom(rs, k, bySeason, p, lo + 1);
    if KeyOf(rs[lo], bySeason) == k && rs[lo].price == p {
      assert here == later + {lo};
    } else {
      assert here == later;
    }
  }

  lemma GroupPricesStep(rs: seq<FareRecord>, k: Key, bySeason: bool, p: int, lo: nat)
    requires lo < |rs|
    ensures multiset(GroupPrices(rs[lo..], k, bySeason))[p]
         == (if KeyOf(rs[lo], bySeason) == k && rs[lo].price == p then 1 else 0)
            + multiset(GroupPrices(rs[lo + 1..], k, bySeason))[p]
  {
    var tail := rs[lo..];
    assert tail[0] == rs[lo] && tail[1..] == rs[lo + 1..];
    var head: seq<int> := if KeyOf(rs[lo], bySeason) == k then [rs[lo].price] else [];
    var rest := GroupPrices(rs[lo + 1..], k, bySeason);
    assert GroupPrices(tail, k, bySeason) == head + rest;
    assert multiset(head + rest) == multiset(head) + multiset(rest);
  }

  lemma {:induction false} GroupPricesCountFrom(rs: seq<FareRecord>, k: Key, bySeason: bool, p: int, lo: nat)
    requires lo <= |rs|
    ensures multiset(GroupPrices(rs[lo..], k, bySeason))[p] == |PricedFrom(rs, k, bySeason, p, lo)|
    decreases |rs| - lo
  {
    if lo == |rs| {
      assert PricedFrom(rs, k, bySeason, p, lo) == {};
    } else {
      GroupPricesCountFrom(rs, k, bySeason, p, lo + 1);
      GroupPricesStep(rs, k, bySeason, p, lo);
      PricedFromStep(rs, k, bySeason, p, lo);
    }
  }

  /** Grouping one run of records after another concatenates the groups. */
  lemma {:induction false} GroupPricesAppend(a: seq<FareRecord>, c: seq<FareRecord>, k: Key, bySeason: bool)
    ensures GroupPrices(a + c, k, bySeason) == GroupPrices(a, k, bySeason) + GroupPrices(c, k, bySeason)
  {
    if a == [] {
      assert a + c == c;
    } else {
      var ac := a + c;
      assert ac[0] == a[0] && ac[1..] == a[1..] + c;
      GroupPricesAppend(a[1..], c, k, bySeason);
      var ga, gc := GroupPrices(a[1..], k, bySeason), GroupPrices(c, k, bySeason);
      if KeyOf(a[0], bySeason) == k {
        assert GroupPrices(ac, k, bySeason) == [a[0].price] + (ga + gc);
        assert GroupPrices(a, k, bySeason) == [a[0].price] + ga;
      } else {
        assert GroupPrices(ac, k, bySeason) == [] + (ga + gc);
        assert GroupPrices(a, k, bySeason) == [] + ga;
      }
    }
  }

  /** Each group holds the same prices, whatever the order of the records. */
  lemma {:induction false} GroupPricesPermutation(rs: seq<FareRecord>, rs': seq<FareRecord>, k: Key, bySeason: bool)
    requires multiset(rs) == multiset(rs')
    ensures multiset(GroupPrices(rs, k, bySeason)) == multiset(GroupPrices(rs', k, bySeason))
    decreases |rs|
  {
    if rs == [] {
      assert |rs'| == |multiset(rs')| == 0;
    } else {
      assert rs[0] in multiset(rs');
      var j :| 0 <= j < |rs'| && rs'[j] == rs[0];
      RemoveOne(rs, rs', j);
      GroupPricesPermutation(rs[1..], rs'[..j] + rs'[j + 1..], k, bySeason);
      MoveToFront(rs, rs', j, k, bySeason);
    }
  }

  /** The group of `rs'` is the group of `rs'` with its `j`-th record moved to
      the front, up to order. */
  lemma MoveToFront(rs: seq<FareRecord>, rs': seq<FareRecord>, j: nat, k: Key, bySeason: bool)
    requires |rs| > 0 && j < |rs'| && rs'[j] == rs[0]
    requires multiset(GroupPrices(rs[1..], k, bySeason)) == multiset(GroupPrices(rs'[..j] + rs'[j + 1..], k, bySeason))
    ensures multiset(GroupPrices(rs, k, bySeason)) == multiset(GroupPrices(rs', k, bySeason))
  {
    var x, before, after := rs[0], rs'[..j], rs'[j + 1..];
    var gx, gb, ga := GroupPrices([x], k, bySeason), GroupPrices(before, k, bySeason), GroupPrices(after, k, bySeason);
    SplitAround(rs', j, k, bySeason);
    GroupPricesAppend(before, after, k, bySeason);
    GroupPricesFront(rs, k, bySeason);
    SwapFront(gx, GroupPrices(rs[1..], k, bySeason), gb, ga);
  }

  /** The group of a run is the group of its first record followed by the
      group of the rest. */
  lemma GroupPricesFront(rs: seq<FareRecord>, k: Key, bySeason: bool)
    requires |rs| > 0
    ensures GroupPrices(rs, k, bySeason) == GroupPrices([rs[0]], k, bySeason) + GroupPrices(rs[1..], k, bySeason)
  {
    assert rs == [rs[0]] + rs[1..];
    GroupPricesAppend([rs[0]], rs[1..], k, bySeason);
  }

  /** Putting `x`'s prices in front of a permutation of `gb + ga` permutes
      `gb + gx + ga`. */
  lemma SwapFront(gx: seq<int>, g1: seq<int>, gb: seq<int>, ga: seq<int>)
    requires multiset(g1) == multiset(gb + ga)
    ensures multiset(gx + g1) == multiset(gb + gx + ga)
  {
    calc {
      multiset(gx + g1);
      multiset(gx) + multiset(g1);
      multiset(gx) + (multiset(gb) + multiset(ga));
      multiset(gb) + multiset(gx) + multiset(ga);
      multiset(gb + gx + ga);
    }
  }

  /** Taking the same record out of two permutations leaves two permutations. */
  lemma RemoveOne(rs: seq<FareRecord>, rs': seq<FareRecord>, j: nat)
    requires multiset(rs) == multiset(rs') && |rs| > 0
    requires j < |rs'| && rs'[j] == rs[0]
    ensures multiset(rs[1..]) == multiset(rs'[..j] + rs'[j + 1..])
    ensures |rs'[..j] + rs'[j + 1..]| == |rs| - 1
  {
    assert rs == [rs[0]] + rs[1..];
    assert rs' == rs'[..j] + [rs[0]] + rs'[j + 1..];
    assert multiset(rs[1..]) == multiset(rs) - multiset{rs[0]};
    assert |rs'| == |multiset(rs')| == |multiset(rs)| == |rs|;
  }

  /** The group of a run split around position `j`. */
  lemma SplitAround(rs: seq<FareRecord>, j: nat, k: Key, bySeason: bool)
    requires j < |rs|
    ensures GroupPrices(rs, k, bySeason)
         == GroupPrices(rs[..j], k, bySeason) + GroupPrices([rs[j]], k, bySeason) + GroupPrices(rs[j + 1..], k, bySeason)
  {
    assert rs == (rs[..j] + [rs[j]]) + rs[j + 1..];
    GroupPricesAppend(rs[..j] + [rs[j]], rs[j + 1..], k, bySeason);
    GroupPricesAppend(rs[..j], [rs[j]], k, bySeason);
  }

  // ---------------------------------------------------------------------
  // The tables.

  predicate RowsAscending(t: Table) {
    forall i, j :: 0 <= i < j < |t.rows| ==> KeyLess(t.rows[i].key, t.rows[j].key)
  }

  /** The table has a row for group `k`. */
  predicate HasKey(t: Table, k: Key) {
    exists i :: 0 <= i < |t.rows| && t.rows[i].key == k
  }

  /** One grouping of `build_thresholds`: a row per non-empty group, rows in
      ascending key order, each holding its group's quartile band. */
  function BuildTable(rs: seq<FareRecord>, bySeason: bool): (t: Table)
    ensures t.hasSeason == bySeason
    ensures RowsAscending(t)
    ensures forall k :: HasKey(t, k) <==> Occurs(rs, k, bySeason)
    ensures forall i :: 0 <= i < |t.rows| ==>
              var ps := GroupPrices(rs, t.rows[i].key, bySeason);
              |ps| > 0 && t.rows[i].band == Quartiles(ps)
  {
    var ks := GroupKeys(rs, bySeason);
    var rows := seq(|ks|, i requires 0 <= i < |ks| =>
      assert ks[i] in ks;
      GroupPricesNonEmpty(rs, ks[i], bySeason);
      Row(ks[i], Quartiles(GroupPrices(rs, ks[i], bySeason))));
    assert forall k :: HasKey(Table(bySeason, rows), k) <==> k in ks by {
      forall k ensures HasKey(Table(bySeason, rows), k) <==> k in ks {
        if k in ks {
          var i :| 0 <= i < |ks| && ks[i] == k;
          assert rows[i].key == k;
        }
      }
    }
    Table(bySeason, rows)
  }

  /** `build_thresholds`: the seasonal table and the general table. */
  function BuildThresholds(rs: seq<FareRecord>): (tables: (Table, Table))
    ensures tables.0.hasSeason && !tables.1.hasSeason
    ensures forall k :: HasKey(tables.0, k) <==> Occurs(rs, k, true)
    ensures forall k :: HasKey(tables.1, k) <==> Occurs(rs, k, false)
  {
    (BuildTable(rs, true), BuildTable(rs, false))
  }

  // ---------------------------------------------------------------------
  // Properties of the two tables.

  /** Every band in either table is ordered p25 <= p50 <= p75 and lies between
      the cheapest and the dearest fare of its group. */
  lemma BandsWithinGroup(rs: seq<FareRecord>, bySeason: bool, i: nat)
    requires i < |BuildTable(rs, bySeason).rows|
    ensures var row := BuildTable(rs, bySeason).rows[i];
            var ps := GroupPrices(rs, row.key, bySeason);
            && |ps| > 0
            && Min(ps) as real <= row.band.p25 <= row.band.p50 <= row.band.p75 <= Max(ps) as real
  {
  }

  /** A seasonal key is present iff some record has exactly that departure,
      arrival, season and slot; a general key iff some record has that
      departure, arrival and slot. */
  lemma TableKeys(rs: seq<FareRecord>, dep: string, arr: string, season: string, slot: Slot)
    ensures HasKey(BuildThresholds(rs).0, Key(dep, arr, Some(season), slot))
        <==> exists r :: r in rs && r.dep == dep && r.arr == arr && r.season == season && r.slot == slot
    ensures HasKey(BuildThresholds(rs).1, Key(dep, arr, None, slot))
        <==> exists r :: r in rs && r.dep == dep && r.arr == arr && r.slot == slot
  {
    var k := Key(dep, arr, Some(season), slot);
    if exists r :: r in rs && r.dep == dep && r.arr == arr && r.season == season && r.slot == slot {
      var r :| r in rs && r.dep == dep && r.arr == arr && r.season == season && r.slot == slot;
      assert KeyOf(r, true) == k;
    }
    var g := Key(dep, arr, None, slot);
    if exists r :: r in rs && r.dep == dep && r.arr == arr && r.slot == slot {
      var r :| r in rs && r.dep == dep && r.arr == arr && r.slot == slot;
      assert KeyOf(r, false) == g;
    }
  }

  /** The general table's keys are the seasonal table's keys with the season
      dropped, and the general table has no seasonal keys. */
  lemma GeneralIsProjection(rs: seq<FareRecord>, k: Key)
    ensures HasKey(BuildThresholds(rs).1, k)
        <==> k.season == None && exists s :: HasKey(BuildThresholds(rs).0, Key(k.dep, k.arr, Some(s), k.slot))
  {
    var tables := BuildThresholds(rs);
    assert HasKey(tables.1, k) <==> Occurs(rs, k, false);
    if Occurs(rs, k, false) {
      var r :| r in rs && KeyOf(r, false) == k;
      var sk := Key(k.dep, k.arr, Some(r.season), k.slot);
      assert KeyOf(r, true) == sk;
      assert HasKey(tables.0, sk) <==> Occurs(rs, sk, true);
    }
    if k.season == None && exists s :: HasKey(tables.0, Key(k.dep, k.arr, Some(s), k.slot)) {
      var s :| HasKey(tables.0, Key(k.dep, k.arr, Some(s), k.slot));
      var sk := Key(k.dep, k.arr, Some(s), k.slot);
      assert HasKey(tables.0, sk) <==> Occurs(rs, sk, true);
      var r :| r in rs && KeyOf(r, true) == sk;
      assert KeyOf(r, false) == k;
    }
  }

  /** No records, no rows. */
  lemma EmptySampleEmptyTables()
    ensures BuildThresholds([]) == (Table(true, []), Table(false, []))
  {
    assert GroupKeys([], true) == [] && GroupKeys([], false) == [];
  }

  /** The tables depend only on which records were read, not their order. */
  lemma BuildOrderIndependent(rs: seq<FareRecord>, rs': seq<FareRecord>)
    requires multiset(rs) == multiset(rs')
    ensures BuildThresholds(rs) == BuildThresholds(rs')
  {
    forall bySeason: bool
      ensures BuildTable(rs, bySeason) == BuildTable(rs', bySeason)
    {
      TableOrderIndependent(rs, rs', bySeason);
    }
  }

  lemma TableOrderIndependent(rs: seq<FareRecord>, rs': seq<FareRecord>, bySeason: bool)
    requires multiset(rs) == multiset(rs')
    ensures BuildTable(rs, bySeason) == BuildTable(rs', bySeason)
  {
    assert forall r :: r in rs <==> r in rs' by {
      forall r ensures r in rs <==> r in rs' {
        assert r in rs <==> r in multiset(rs);
        assert r in rs' <==> r in multiset(rs');
      }
    }
    var ks, ks' := GroupKeys(rs, bySeason), GroupKeys(rs', bySeason);
    AscendingUnique(ks, ks');
    var t, t' := BuildTable(rs, bySeason), BuildTable(rs', bySeason);
    assert |t.rows| == |ks| && |t'.rows| == |ks|;
    forall i | 0 <= i < |ks|
      ensures t.rows[i] == t'.rows[i]
    {
      assert ks[i] in ks;
      GroupPricesNonEmpty(rs, ks[i], bySeason);
      GroupPricesPermutation(rs, rs', ks[i], bySeason);
      QuartilesOrderIndependent(GroupPrices(rs, ks[i], bySeason), GroupPrices(rs', ks[i], bySeason));
    }
  }
}
