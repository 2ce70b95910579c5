/** The query side of statsvv.py: bucketing a departure time into a slot
    (`classify_time_slot`, statsvv.py:61-81), normalising the season the user
    types (`normalize_season_input`, statsvv.py:85-93) and placing a price
    against the matching quartile band (`judge_price`, statsvv.py:97-148).
    The verdict is a structured value; the Chinese sentences that render it
    are presentation. */
module Judge {
  import opened Strings
  import opened Quantiles
  import opened Thresholds

  // ---------------------------------------------------------------------
  // classify_time_slot

  /** The outcome of `strptime(s, "%H:%M")` on the stripped input: an hour
      and a minute, or the `ValueError` the parser raises. */
  datatype ClockTime = Unparsable | HourMinute(hour: int, minute: int)

  /** 早 06:00-09:59, 午 10:00-14:59, 晚 15:00-20:59; any other hour, and an
      unparsable time, has no slot. */
  function ClassifyTimeSlot(t: ClockTime): (slot: Option<string>)
    ensures slot == None || slot.value in ["早", "午", "晚"]
  {
    match t
    case Unparsable => None
    case HourMinute(h, _) =>
      if 6 <= h <= 9 then Some("早")
      else if 10 <= h <= 14 then Some("午")
      else if 15 <= h <= 20 then Some("晚")
      else None
  }

  /** The three buckets and the unclassified night hours. */
  lemma TimeSlotBuckets(h: int, m: int)
    ensures ClassifyTimeSlot(HourMinute(h, m)) == Some("早") <==> 6 <= h <= 9
    ensures ClassifyTimeSlot(HourMinute(h, m)) == Some("午") <==> 10 <= h <= 14
    ensures ClassifyTimeSlot(HourMinute(h, m)) == Some("晚") <==> 15 <= h <= 20
    ensures 0 <= h <= 5 || 21 <= h <= 23 ==> ClassifyTimeSlot(HourMinute(h, m)) == None
    ensures ClassifyTimeSlot(Unparsable) == None
  {
  }

  /** The bucket depends on the hour alone. */
  lemma TimeSlotIgnoresMinutes(h: int, m: int, m': int)
    ensures ClassifyTimeSlot(HourMinute(h, m)) == ClassifyTimeSlot(HourMinute(h, m'))
  {
  }

  /** 09:59 is a morning flight, 10:00 a noon one, and 21:00 has no slot. */
  lemma TimeSlotExamples()
    ensures ClassifyTimeSlot(HourMinute(9, 59)) == Some("早")
    ensures ClassifyTimeSlot(HourMinute(10, 0)) == Some("午")
    ensures ClassifyTimeSlot(HourMinute(21, 0)) == None
  {
  }

  // ---------------------------------------------------------------------
  // normalize_season_input

  /** The synonym table of `normalize_season_input`, applied to a word that
      is already stripped. */
  function SeasonWord(w: string): (season: Option<string>)
    ensures season == None || season.value in ["旺", "淡", "不知道"]
  {
    if w in ["旺", "旺季"] then Some("旺")
    else if w in ["淡", "淡季"] then Some("淡")
    else if w in ["不知道", "不確定", "?", "NA", "na"] then Some("不知道")
    else None
  }

  /** The canonical season for what the user typed, or None when the word is
      not in the fixed vocabulary. */
  function NormalizeSeason(raw: string): (season: Option<string>)
    ensures season == None || season.value in ["旺", "淡", "不知道"]
  {
    SeasonWord(Strip(raw))
  }

  /** The synonym table, read in both directions: an unknown word is
      rejected, never taken for 不知道. */
  lemma NormalizeSeasonTable(raw: string)
    ensures NormalizeSeason(raw) == Some("旺") <==> Strip(raw) in ["旺", "旺季"]
    ensures NormalizeSeason(raw) == Some("淡") <==> Strip(raw) in ["淡", "淡季"]
    ensures NormalizeSeason(raw) == Some("不知道") <==> Strip(raw) in ["不知道", "不確定", "?", "NA", "na"]
    ensures NormalizeSeason(raw) == None <==>
              Strip(raw) !in ["旺", "旺季", "淡", "淡季", "不知道", "不確定", "?", "NA", "na"]
  {
    SeasonWordTable(Strip(raw));
  }

  lemma SeasonWordTable(w: string)
    ensures SeasonWord(w) == Some("旺") <==> w in ["旺", "旺季"]
    ensures SeasonWord(w) == Some("淡") <==> w in ["淡", "淡季"]
    ensures SeasonWord(w) == Some("不知道") <==> w in ["不知道", "不確定", "?", "NA", "na"]
    ensures SeasonWord(w) == None <==> w !in ["旺", "旺季", "淡", "淡季", "不知道", "不確定", "?", "NA", "na"]
  {
  }

  /** Feeding a canonical season back in gives it back. */
  lemma NormalizeSeasonIdempotent(raw: string)
    requires NormalizeSeason(raw).Some?
    ensures NormalizeSeason(NormalizeSeason(raw).value) == NormalizeSeason(raw)
  {
    var v := NormalizeSeason(raw).value;
    StripTrimmed(v);
  }

  /** Blanks around a word, the ideographic space among them, are ignored. */
  lemma NormalizeSeasonPadded(pre: string, post: string)
    requires AllSpace(pre) && AllSpace(post)
    ensures NormalizeSeason(pre + "旺季" + post) == Some("旺")
  {
    StripPadded(pre, "旺季", post);
  }

  /** The vocabulary is matched exactly: "Na" is neither "NA" nor "na". */
  lemma NormalizeSeasonRejectsNa()
    ensures NormalizeSeason("Na") == None
  {
    StripTrimmed("Na");
  }

  // ---------------------------------------------------------------------
  // judge_price

  /** `time_map.get(time_slot, time_slot)` (statsvv.py:105-106): the table
      label for 早/午/晚, any other string passed through unchanged. */
  function TimeKey(timeSlot: string): (name: string)
    ensures timeSlot == "早" ==> name == "Morning"
    ensures timeSlot == "午" ==> name == "Noon"
    ensures timeSlot == "晚" ==> name == "Evening"
    ensures timeSlot !in ["早", "午", "晚"] ==> name == timeSlot
  {
    if timeSlot == "早" then "Morning"
    else if timeSlot == "午" then "Noon"
    else if timeSlot == "晚" then "Evening"
    else timeSlot
  }

  /** Each slot word names exactly one slot of the table: 早 the morning,
      午 the noon and 晚 the evening slot. */
  lemma TimeKeyOfLabel(timeSlot: string)
    requires timeSlot in ["早", "午", "晚"]
    ensures timeSlot == "早" ==> TimeKey(timeSlot) == SlotName(Morning)
    ensures timeSlot == "午" ==> TimeKey(timeSlot) == SlotName(Noon)
    ensures timeSlot == "晚" ==> TimeKey(timeSlot) == SlotName(Evening)
    ensures exists s: Slot :: SlotName(s) == TimeKey(timeSlot)
    ensures forall s: Slot, s': Slot :: SlotName(s) == TimeKey(timeSlot) == SlotName(s') ==> s == s'
  {
    if timeSlot == "早" {
      assert SlotName(Morning) == TimeKey(timeSlot);
    } else if timeSlot == "午" {
      assert SlotName(Noon) == TimeKey(timeSlot);
    } else {
      assert SlotName(Evening) == TimeKey(timeSlot);
    }
  }

  /** The season condition added to the row filter: only 旺 or 淡, and only
      when the table has the season column (statsvv.py:115-116). */
  function SeasonFilter(t: Table, season: Option<string>): (filter: Option<string>)
    ensures filter.Some? <==> t.hasSeason && season in {Some("旺"), Some("淡")}
    ensures filter.Some? ==> filter == season
  {
    if (season == Some("旺") || season == Some("淡")) && t.hasSeason then season else None
  }

  /** The row condition of statsvv.py:109-116. A time key outside the three
      table labels (a slot word `time_map` does not know) matches no row. */
  function Matches(row: Row, dep: string, arr: string, timeKey: string, filter: Option<string>): (m: bool)
    ensures m ==> timeKey in ["Morning", "Noon", "Evening"]
  {
    && row.key.dep == dep
    && row.key.arr == arr
    && SlotName(row.key.slot) == timeKey
    && (filter.Some? ==> row.key.season == filter)
  }

  /** Matching a table label is matching the slot itself: the labels of the
      three slots are distinct. */
  lemma MatchesSlot(row: Row, dep: string, arr: string, slot: Slot, filter: Option<string>)
    ensures Matches(row, dep, arr, SlotName(slot), filter)
        <==> row.key.dep == dep && row.key.arr == arr && row.key.slot == slot
             && (filter.Some? ==> row.key.season == filter)
  {
  }

  /** The position of the first matching row, which `.values[0]` reads
      (statsvv.py:119-126). */
  function FirstMatch(rows: seq<Row>, dep: string, arr: string, timeKey: string, filter: Option<string>): (i: Option<nat>)
    ensures i.Some? ==> i.value < |rows| && Matches(rows[i.value], dep, arr, timeKey, filter)
    ensures i.Some? ==> forall j :: 0 <= j < i.value ==> !Matches(rows[j], dep, arr, timeKey, filter)
    ensures i.None? ==> forall j :: 0 <= j < |rows| ==> !Matches(rows[j], dep, arr, timeKey, filter)
  {
    if rows == [] then None
    else if Matches(rows[0], dep, arr, timeKey, filter) then Some(0)
    else
      match FirstMatch(rows[1..], dep, arr, timeKey, filter)
      case None => None
      case Some(i) => Some(i + 1)
  }

  /** The four verdicts of statsvv.py:128-139, cheapest first. */
  datatype Tier = VeryCheap | CheapOrFair | Expensive | VeryExpensive

  function TierRank(t: Tier): nat {
    match t
    case VeryCheap => 0
    case CheapOrFair => 1
    case Expensive => 2
    case VeryExpensive => 3
  }

  /** The first cut point the price does not exceed decides the tier. Very
      cheap means at most p25 and very expensive means above all three cut
      points, whatever the band. */
  function TierOf(price: int, b: Band): (tier: Tier)
    ensures tier == VeryCheap <==> price as real <= b.p25
    ensures tier == VeryExpensive <==> b.p25 < price as real && b.p50 < price as real && b.p75 < price as real
    ensures tier == CheapOrFair ==> price as real <= b.p50
    ensures tier == Expensive ==> b.p50 < price as real <= b.p75
  {
    var p := price as real;
    if p <= b.p25 then VeryCheap
    else if p <= b.p50 then CheapOrFair
    else if p <= b.p75 then Expensive
    else VeryExpensive
  }

  /** On an ordered band the four tiers are the four intervals cut by the
      quartiles, each closed on its upper end. */
  lemma TierIntervals(price: int, b: Band)
    requires b.p25 <= b.p50 <= b.p75
    ensures TierOf(price, b) == VeryCheap <==> price as real <= b.p25
    ensures TierOf(price, b) == CheapOrFair <==> b.p25 < price as real <= b.p50
    ensures TierOf(price, b) == Expensive <==> b.p50 < price as real <= b.p75
    ensures TierOf(price, b) == VeryExpensive <==> b.p75 < price as real
  {
  }

  /** A price equal to a cut point takes the cheaper tier: p25 is very cheap,
      and p75 is never very expensive (it is expensive when p50 < p75). */
  lemma TierTies(price: int, b: Band)
    requires b.p25 <= b.p50 <= b.p75
    ensures price as real == b.p25 ==> TierOf(price, b) == VeryCheap
    ensures price as real == b.p50 && b.p25 < b.p50 ==> TierOf(price, b) == CheapOrFair
    ensures price as real == b.p75 ==> TierOf(price, b) != VeryExpensive
    ensures price as real == b.p75 && b.p50 < b.p75 ==> TierOf(price, b) == Expensive
  {
  }

  /** A dearer fare never gets a cheaper verdict, against any band. */
  lemma TierMonotone(price: int, price': int, b: Band)
    requires price <= price'
    ensures TierRank(TierOf(price, b)) <= TierRank(TierOf(price', b))
  {
  }

  /** Against the band 6000 / 7000 / 8000: 6000 is very cheap, 6001 cheap or
      fair, 8000 expensive and 8001 very expensive. */
  lemma TierExamples()
    ensures TierOf(6000, Band(6000.0, 7000.0, 8000.0)) == VeryCheap
    ensures TierOf(6001, Band(6000.0, 7000.0, 8000.0)) == CheapOrFair
    ensures TierOf(8000, Band(6000.0, 7000.0, 8000.0)) == Expensive
    ensures TierOf(8001, Band(6000.0, 7000.0, 8000.0)) == VeryExpensive
  {
  }

  /** Python's `int()` on a float: truncation toward zero, not rounding. */
  function Trunc(x: real): (n: int)
    ensures 0.0 <= x ==> n as real <= x < n as real + 1.0
    ensures x < 0.0 ==> n as real - 1.0 < x <= n as real
  {
    if x >= 0.0 then x.Floor else -((-x).Floor)
  }

  lemma TruncExamples()
    ensures Trunc(1.75) == 1 && Trunc(-1.75) == -1 && Trunc(6000.0) == 6000
  {
  }

  /** For an integer price and a non-negative cut point, being at most the
      cut point is being at most its truncation. */
  lemma AtMostTrunc(price: int, x: real)
    requires 0.0 <= x
    ensures price as real <= x <==> price <= Trunc(x)
  {
  }

  /** The truncated band that the verdict prints puts every integer price in
      the same tier as the exact band, so the printed cut points never
      contradict the verdict (for non-negative quartiles). */
  lemma ShownBandAgrees(price: int, b: Band)
    requires 0.0 <= b.p25 && 0.0 <= b.p50 && 0.0 <= b.p75
    ensures TierOf(price, b) == TierOf(price, Band(Trunc(b.p25) as real, Trunc(b.p50) as real, Trunc(b.p75) as real))
  {
    AtMostTrunc(price, b.p25);
    AtMostTrunc(price, b.p50);
    AtMostTrunc(price, b.p75);
  }

  /** The band values as the verdict prints them (statsvv.py:145). */
  datatype ShownBand = ShownBand(p25: int, p50: int, p75: int)

  /** What `judge_price` reports: the "no sample" message, or the query
      echoed back with the band, its printed form and the tier. */
  datatype Judgement =
    | NoSample
    | Verdict(dep: string, arr: string, season: Option<string>, timeSlot: string,
              price: int, band: Band, shown: ShownBand, tier: Tier)

  /** `judge_price`. A table without matching row gives `NoSample`; otherwise
      the first matching row's band decides the tier. */
  function JudgePrice(dep: string, arr: string, timeSlot: string, price: int,
                      t: Table, season: Option<string>): (j: Judgement)
    ensures j.NoSample? <==>
              forall i :: 0 <= i < |t.rows| ==> !Matches(t.rows[i], dep, arr, TimeKey(timeSlot), SeasonFilter(t, season))
    ensures j.Verdict? ==>
              exists i :: && 0 <= i < |t.rows|
                          && Matches(t.rows[i], dep, arr, TimeKey(timeSlot), SeasonFilter(t, season))
                          && (forall i' :: 0 <= i' < i ==> !Matches(t.rows[i'], dep, arr, TimeKey(timeSlot), SeasonFilter(t, season)))
                          && j.band == t.rows[i].band
    ensures j.Verdict? ==>
              && j.dep == dep && j.arr == arr && j.season == season && j.timeSlot == timeSlot && j.price == price
              && j.tier == TierOf(price, j.band)
              && j.shown == ShownBand(Trunc(j.band.p25), Trunc(j.band.p50), Trunc(j.band.p75))
  {
    match FirstMatch(t.rows, dep, arr, TimeKey(timeSlot), SeasonFilter(t, season))
    case None => NoSample
    case Some(i) =>
      var b := t.rows[i].band;
      Verdict(dep, arr, season, timeSlot, price, b,
              ShownBand(Trunc(b.p25), Trunc(b.p50), Trunc(b.p75)), TierOf(price, b))
  }

  /** On a table whose rows ascend by key, the first row matching a query
      without a season filter is the one with the smallest season: every
      other matching row has a later season. */
  lemma {:induction false} FirstMatchSmallestSeason(t: Table, dep: string, arr: string, timeKey: string, i: nat)
    requires RowsAscending(t)
    requires FirstMatch(t.rows, dep, arr, timeKey, None) == Some(i)
    ensures forall j :: 0 <= j < |t.rows| && j != i && Matches(t.rows[j], dep, arr, timeKey, None) ==>
              SeasonLess(t.rows[i].key.season, t.rows[j].key.season)
  {
    forall j | 0 <= j < |t.rows| && j != i && Matches(t.rows[j], dep, arr, timeKey, None)
      ensures SeasonLess(t.rows[i].key.season, t.rows[j].key.season)
    {
      var a, b := t.rows[i].key, t.rows[j].key;
      assert i < j;
      assert KeyLess(a, b);
      assert a.slot == b.slot by {
        assert SlotName(a.slot) == SlotName(b.slot);
      }
      StrLessIrreflexive(a.dep);
      StrLessIrreflexive(a.arr);
      StrLessIrreflexive(SlotName(a.slot));
    }
  }

  /** The bands in a verdict are ordered whenever the table's are; the
      tables `BuildThresholds` makes always are. */
  lemma VerdictBandOrdered(rs: seq<FareRecord>, bySeason: bool, dep: string, arr: string,
                           timeSlot: string, price: int, season: Option<string>)
    ensures var j := JudgePrice(dep, arr, timeSlot, price, BuildTable(rs, bySeason), season);
            j.Verdict? ==> j.band.p25 <= j.band.p50 <= j.band.p75
  {
  }

  /** An empty table has no sample for any query. */
  lemma JudgeEmptyTable(hasSeason: bool, dep: string, arr: string, timeSlot: string,
                        price: int, season: Option<string>)
    ensures JudgePrice(dep, arr, timeSlot, price, Table(hasSeason, []), season) == NoSample
  {
  }

  /** In a table built by `BuildTable`, a row matches a query exactly when
      its key is the query's group key. */
  lemma MatchesOnlyItsKey(rs: seq<FareRecord>, bySeason: bool, i: nat, dep: string, arr: string,
                          slot: Slot, filter: Option<string>)
    requires i < |BuildTable(rs, bySeason).rows|
    requires bySeason <==> filter.Some?
    ensures Matches(BuildTable(rs, bySeason).rows[i], dep, arr, SlotName(slot), filter)
        <==> BuildTable(rs, bySeason).rows[i].key == Key(dep, arr, filter, slot)
  {
    var t := BuildTable(rs, bySeason);
    var k := t.rows[i].key;
    assert HasKey(t, k);
    var r :| r in rs && KeyOf(r, bySeason) == k;
    if SlotName(k.slot) == SlotName(slot) {
      assert k.slot == slot;
    }
  }

  /** Judging against a built table finds the query's own group: no sample
      exactly when that group is empty, and otherwise its quartiles. */
  lemma JudgeBuiltTable(rs: seq<FareRecord>, bySeason: bool, dep: string, arr: string,
                        timeSlot: string, slot: Slot, price: int, filter: Option<string>)
    requires SlotName(slot) == TimeKey(timeSlot)
    requires bySeason <==> filter.Some?
    requires SeasonFilter(BuildTable(rs, bySeason), filter) == filter
    ensures var j := JudgePrice(dep, arr, timeSlot, price, BuildTable(rs, bySeason), filter);
            var ps := GroupPrices(rs, Key(dep, arr, filter, slot), bySeason);
            && (j.NoSample? <==> !Occurs(rs, Key(dep, arr, filter, slot), bySeason))
            && (j.Verdict? ==> |ps| > 0 && j.band == Quartiles(ps) && j.tier == TierOf(price, Quartiles(ps)))
  {
    var t := BuildTable(rs, bySeason);
    var k := Key(dep, arr, filter, slot);
    forall i | 0 <= i < |t.rows|
      ensures Matches(t.rows[i], dep, arr, TimeKey(timeSlot), filter) <==> t.rows[i].key == k
    {
      MatchesOnlyItsKey(rs, bySeason, i, dep, arr, slot, filter);
    }
    assert HasKey(t, k) <==> Occurs(rs, k, bySeason);
  }
}
