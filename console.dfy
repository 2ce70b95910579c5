/** The decision rules inside mainvv.py's console flow: full-width to
    half-width conversion of typed text (`to_half_width`, mainvv.py:18-34),
    the fixed return leg of the two-airport route (`auto_arr`,
    mainvv.py:48-52), the positivity rule of `input_price` (mainvv.py:93-97)
    and the choice of threshold table by season (mainvv.py:120-133). The
    prompts and retry loops around them are console I/O. */
module Console {
  import opened Strings
  import opened Quantiles
  import opened Thresholds
  import opened Judge

  // ---------------------------------------------------------------------
  // to_half_width

  /** Full-width ASCII forms U+FF01..U+FF5E and the ideographic space U+3000. */
  predicate IsFullWidth(c: char) {
    65281 <= c as int <= 65374 || c as int == 12288
  }

  /** The per-character rule of the loop body (mainvv.py:24-32): a full-width
      form becomes the ASCII character 65248 code points lower, U+3000 a
      plain space, anything else stays. */
  function HalfWidthChar(c: char): (h: char)
    ensures !IsFullWidth(h)
    ensures IsFullWidth(c) ==> 32 <= h as int <= 126
    ensures !IsFullWidth(c) ==> h == c
  {
    var code := c as int;
    if 65281 <= code <= 65374 then (code - 65248) as char
    else if code == 12288 then ' '
    else c
  }

  /** `r` is `s` with every character converted. */
  predicate HalfWidthOf(s: string, r: string) {
    |r| == |s| && forall i :: 0 <= i < |s| ==> r[i] == HalfWidthChar(s[i])
  }

  /** `to_half_width`: one output character per input character, each
      converted by `HalfWidthChar`. */
  method ToHalfWidth(s: string) returns (result: string)
    ensures HalfWidthOf(s, result)
  {
    result := "";
    for i := 0 to |s|
      invariant |result| == i
      invariant forall k :: 0 <= k < i ==> result[k] == HalfWidthChar(s[k])
    {
      var ch := s[i];
      var code := ch as int;
      if 65281 <= code <= 65374 {
        result := result + [(code - 65248) as char];
      } else if code == 12288 {
        result := result + " ";
      } else {
        result := result + [ch];
      }
    }
  }

  /** The code-point arithmetic of the conversion, spelled out. */
  lemma HalfWidthCodes(c: char)
    ensures 65281 <= c as int <= 65374 ==> HalfWidthChar(c) as int == c as int - 65248
    ensures c as int == 12288 ==> HalfWidthChar(c) == ' '
    ensures !IsFullWidth(c) ==> HalfWidthChar(c) == c
  {
  }

  /** Converting twice is converting once, and nothing full-width is left. */
  lemma HalfWidthIdempotent(s: string, r: string, r': string)
    requires HalfWidthOf(s, r) && HalfWidthOf(r, r')
    ensures r' == r
    ensures forall i :: 0 <= i < |r| ==> !IsFullWidth(r[i])
  {
  }

  /** Full-width "ＴＰＥ" with an ideographic space becomes "TPE ". */
  lemma HalfWidthExample()
    ensures HalfWidthOf("\U{FF34}\U{FF30}\U{FF25}\U{3000}", "TPE ")
  {
  }

  // ---------------------------------------------------------------------
  // auto_arr

  /** The other end of the TPE-NRT route; anything but TPE goes to TPE. */
  function AutoArr(dep: string): (arr: string)
    ensures arr in ["TPE", "NRT"]
  {
    if dep == "TPE" then "NRT" else "TPE"
  }

  /** For the two accepted departures the arrival is the other airport, and
      applying the rule twice returns to the start. */
  lemma AutoArrRoute(dep: string)
    ensures dep == "TPE" ==> AutoArr(dep) == "NRT"
    ensures dep != "TPE" ==> AutoArr(dep) == "TPE"
    ensures dep in ["TPE", "NRT"] ==> AutoArr(dep) != dep && AutoArr(AutoArr(dep)) == dep
  {
  }

  // ---------------------------------------------------------------------
  // input_price

  /** The check `input_price` makes on a parsed integer: zero and negative
      values are refused and the user is asked again. */
  function AcceptPrice(n: int): (price: Option<int>)
    ensures price.Some? <==> n > 0
    ensures price.Some? ==> price.value == n
  {
    if n <= 0 then None else Some(n)
  }

  // ---------------------------------------------------------------------
  // The season -> table dispatch of ticket_judge_loop

  /** A known season (旺 or 淡) is judged against the seasonal table with that
      season; otherwise (不知道) against the general table with no season. */
  function Dispatch(dep: string, arr: string, timeSlot: string, price: int, season: string,
                    seasonal: Table, general: Table): (j: Judgement)
    ensures season in ["旺", "淡"] ==> j == JudgePrice(dep, arr, timeSlot, price, seasonal, Some(season))
    ensures season !in ["旺", "淡"] ==> j == JudgePrice(dep, arr, timeSlot, price, general, None)
  {
    if season == "旺" || season == "淡" then
      JudgePrice(dep, arr, timeSlot, price, seasonal, Some(season))
    else
      JudgePrice(dep, arr, timeSlot, price, general, None)
  }

  /** The group key the query is judged against, and which grouping it is in. */
  function QueryKey(dep: string, arr: string, slot: Slot, season: string): (k: Key)
    ensures k.dep == dep && k.arr == arr && k.slot == slot
    ensures k.season.Some? <==> season in ["旺", "淡"]
  {
    Key(dep, arr, if season == "旺" || season == "淡" then Some(season) else None, slot)
  }

  /** End to end: with the tables built from the records, a query has no
      sample exactly when no record has its departure, arrival and slot (and
      its season, when the season is known); otherwise the verdict uses the
      quartiles of exactly those records' prices. */
  lemma DispatchOnBuiltTables(rs: seq<FareRecord>, dep: string, arr: string, timeSlot: string,
                              slot: Slot, price: int, season: string)
    requires SlotName(slot) == TimeKey(timeSlot)
    ensures var tables := BuildThresholds(rs);
            var j := Dispatch(dep, arr, timeSlot, price, season, tables.0, tables.1);
            var known := season in ["旺", "淡"];
            && (j.NoSample? <==>
                  if known then !exists r :: r in rs && r.dep == dep && r.arr == arr && r.season == season && r.slot == slot
                  else !exists r :: r in rs && r.dep == dep && r.arr == arr && r.slot == slot)
            && (j.Verdict? ==>
                  var ps := GroupPrices(rs, QueryKey(dep, arr, slot, season), known);
                  |ps| > 0 && j.band == Quartiles(ps) && j.tier == TierOf(price, Quartiles(ps)))
  {
    var known := season in ["旺", "淡"];
    var filter := if known then Some(season) else None;
    assert QueryKey(dep, arr, slot, season) == Key(dep, arr, filter, slot);
    JudgeBuiltTable(rs, known, dep, arr, timeSlot, slot, price, filter);
    TableKeys(rs, dep, arr, season, slot);
  }

  lemma ExampleGroup(rs: seq<FareRecord>)
    requires |rs| == 3
    requires forall i :: 0 <= i < 3 ==> rs[i].dep == "TPE" && rs[i].arr == "NRT" && rs[i].season == "旺" && rs[i].slot == Morning
    requires rs[0].price == 5000 && rs[1].price == 7000 && rs[2].price == 9000
    ensures GroupPrices(rs, Key("TPE", "NRT", Some("旺"), Morning), true) == [5000, 7000, 9000]
  {
    var k := Key("TPE", "NRT", Some("旺"), Morning);
    assert KeyOf(rs[0], true) == k && KeyOf(rs[1], true) == k && KeyOf(rs[2], true) == k;
    assert rs[2..][0] == rs[2] && rs[2..][1..] == rs[3..] == [];
    assert GroupPrices(rs[2..], k, true) == [9000];
    assert rs[1..][0] == rs[1] && rs[1..][1..] == rs[2..];
    assert GroupPrices(rs[1..], k, true) == [7000] + [9000];
  }

  /** A sample of three TPE→NRT peak-season morning fares 5000, 7000 and
      9000: a 6000 fare on a morning flight in peak season is very cheap
      against the band 6000 / 7000 / 8000, printed as those integers. */
  lemma DispatchExample(rs: seq<FareRecord>)
    requires |rs| == 3
    requires forall i :: 0 <= i < 3 ==> rs[i].dep == "TPE" && rs[i].arr == "NRT" && rs[i].season == "旺" && rs[i].slot == Morning
    requires rs[0].price == 5000 && rs[1].price == 7000 && rs[2].price == 9000
    ensures var tables := BuildThresholds(rs);
            var j := Dispatch("TPE", AutoArr("TPE"), "早", 6000, "旺", tables.0, tables.1);
            j.Verdict? && j.tier == VeryCheap && j.shown == ShownBand(6000, 7000, 8000)
  {
    var k := Key("TPE", "NRT", Some("旺"), Morning);
    var tables := BuildThresholds(rs);
    var j := Dispatch("TPE", AutoArr("TPE"), "早", 6000, "旺", tables.0, tables.1);
    ExampleGroup(rs);
    assert j.Verdict? && j.band == Band(6000.0, 7000.0, 8000.0) by {
      assert AutoArr("TPE") == "NRT";
      assert rs[0] in rs && KeyOf(rs[0], true) == k;
      DispatchOnBuiltTables(rs, "TPE", "NRT", "早", Morning, 6000, "旺");
      QuartilesExampleThree();
    }
    assert j.tier == TierOf(6000, j.band) && j.shown == ShownBand(Trunc(6000.0), Trunc(7000.0), Trunc(8000.0));
    TierExamples();
    TruncExamples();
  }
}
