/**
 * The home page's data hook: the seven-day sync response turned into today's
 * record (today's entry, or the latest one), the per-element trend series
 * built by pushing one rounded value per day, and the hook's data, loading
 * and error state.
 */
module HomeData {
  import opened Wrappers
  import opened Text
  import opened JsValues
  import opened BaZi

  datatype Ganzhi = Ganzhi(year: string, month: string, day: string)

  /**
   * One day of the sync response. `wuxing` is the element record in its key
   * order; `trendDirection` is None when the server sent null.
   */
  datatype ApiDay = ApiDay(
    date: string, ganzhi: Ganzhi, wuxing: seq<(string, real)>, dominant: string,
    summary: string, trendDirection: Option<string>)

  /** `json.data`: the days by date, in the order the server sent them. */
  type DayTable = seq<(string, ApiDay)>

  datatype WuxingItem = WuxingItem(key: string, value: int)

  /** What the hook stores as `data.today`. */
  datatype Today = Today(
    date: string, ganzhi: string, summary: string, dominant: string, trendDirection: string,
    wuxing: seq<WuxingItem>, trend7ByWuxing: map<Element, seq<int>>)

  /* ---------- rounding ---------- */

  /** `normalize`: `Math.round` (halves up) capped at 5. */
  function Normalize(v: real): (n: int)
    ensures n <= 5
    ensures v >= 0.0 ==> n >= 0
    ensures v >= 4.5 ==> n == 5
    ensures v < 4.5 ==> n as real - 0.5 <= v < n as real + 0.5
  {
    var r := (v + 0.5).Floor;
    if r < 5 then r else 5
  }

  /* ---------- element keys ---------- */

  /** The element a record key names, if it is one of 木, 火, 土, 金, 水. */
  function ElementOf(k: string): (r: Option<Element>)
    ensures r.Some? ==> ElementName(r.value) == k
  {
    if |k| != 1 then None
    else if k[0] == '木' then Some(Wood)
    else if k[0] == '火' then Some(Fire)
    else if k[0] == '土' then Some(Earth)
    else if k[0] == '金' then Some(Metal)
    else if k[0] == '水' then Some(Water)
    else None
  }

  /** Every element's name is recognised as that element. */
  lemma ElementOfName(e: Element)
    ensures ElementOf(ElementName(e)) == Some(e)
  {
  }

  /* ---------- today's entry ---------- */

  /** `table[k]`: the entry filed under `k`. */
  function Lookup(table: DayTable, k: string): (r: Option<ApiDay>)
    ensures r.None? <==> forall i :: 0 <= i < |table| ==> table[i].0 != k
    ensures r.Some? ==> exists i :: 0 <= i < |table| && table[i] == (k, r.value)
    decreases |table|
  {
    if |table| == 0 then None
    else if table[0].0 == k then Some(table[0].1)
    else
      var r := Lookup(table[1..], k);
      assert forall i :: 1 <= i < |table| ==> table[i] == table[1..][i - 1];
      r
  }

  /** `Object.keys(table)`. */
  function Keys(table: DayTable): (ks: seq<string>)
    ensures |ks| == |table| && forall i :: 0 <= i < |table| ==> ks[i] == table[i].0
  {
    seq(|table|, i requires 0 <= i < |table| => table[i].0)
  }

  /** `Object.values(table)`. */
  function Values(table: DayTable): (vs: seq<ApiDay>)
    ensures |vs| == |table| && forall i :: 0 <= i < |table| ==> vs[i] == table[i].1
  {
    seq(|table|, i requires 0 <= i < |table| => table[i].1)
  }

  /**
   * `today`: the entry at today's date; failing that, the entry under the key
   * that sorts last. An empty table leaves `today` undefined, and reading its
   * `date` throws.
   */
  function PickToday(table: DayTable, todayISO: string): (r: Result<ApiDay, Fault>)
    ensures Lookup(table, todayISO).Some? ==> r == Success(Lookup(table, todayISO).value)
    ensures Lookup(table, todayISO).None? && |table| == 0 ==> r == Failure(TypeError)
    ensures Lookup(table, todayISO).None? && |table| > 0 ==>
              r.Success? && exists i :: 0 <= i < |table| && table[i] == (MaxKey(Keys(table)), r.value)
  {
    match Lookup(table, todayISO)
    case Some(d) => Success(d)
    case None =>
      if |table| == 0 then Failure(TypeError)
      else
        var last := MaxKey(Keys(table));
        assert Lookup(table, last).Some? by {
          var i :| 0 <= i < |table| && Keys(table)[i] == last;
          assert table[i].0 == last;
        }
        Success(Lookup(table, last).value)
  }

  /** Without an entry for today, the day shown is the one filed under the latest key. */
  lemma PickTodayLatest(table: DayTable, todayISO: string)
    requires Lookup(table, todayISO).None? && |table| > 0
    ensures PickToday(table, todayISO).Success?
    ensures exists i :: 0 <= i < |table| && table[i].1 == PickToday(table, todayISO).value
                        && forall j :: 0 <= j < |table| ==> LexLe(table[j].0, table[i].0)
  {
    var last := MaxKey(Keys(table));
    var i :| 0 <= i < |table| && table[i] == (last, PickToday(table, todayISO).value);
    forall j | 0 <= j < |table| ensures LexLe(table[j].0, table[i].0) {
      assert Keys(table)[j] == table[j].0;
    }
  }

  /* ---------- the trend series ---------- */

  /** The rounded values a day's element record holds for `e`, in key order. */
  function DayValues(w: seq<(string, real)>, e: Element): seq<int>
    decreases |w|
  {
    if |w| == 0 then []
    else DayValues(w[..|w| - 1], e)
         + (if ElementOf(w[|w| - 1].0) == Some(e) then [Normalize(w[|w| - 1].1)] else [])
  }

  /** `trend7ByWuxing[e]` after the loops: every day's values for `e`, day after day. */
  function TrendFor(days: seq<ApiDay>, e: Element): seq<int>
    decreases |days|
  {
    if |days| == 0 then []
    else TrendFor(days[..|days| - 1], e) + DayValues(days[|days| - 1].wuxing, e)
  }

  /** All five series. */
  function TrendMap(days: seq<ApiDay>): (m: map<Element, seq<int>>)
    ensures forall e :: e in m && m[e] == TrendFor(days, e)
  {
    EveryElement();
    map e | e in ALL_ELEMENTS :: TrendFor(days, e)
  }

  lemma EveryElement()
    ensures forall e: Element :: e in ALL_ELEMENTS
  {
    forall e: Element ensures e in ALL_ELEMENTS {
      match e
      case Wood =>
      case Fire =>
      case Earth =>
      case Metal =>
      case Water =>
    }
  }

  /** Every key of every day's record names an element; otherwise `push` meets an undefined series. */
  predicate AllKnown(days: seq<ApiDay>) {
    forall i :: 0 <= i < |days| ==> KnownKeys(days[i].wuxing)
  }

  predicate KnownKeys(w: seq<(string, real)>) {
    forall j :: 0 <= j < |w| ==> ElementOf(w[j].0).Some?
  }

  /** One more day extends every series by that day's values, and is known when its keys are. */
  lemma TrendStep(days: seq<ApiDay>, i: nat)
    requires i < |days|
    ensures forall e :: TrendFor(days[..i + 1], e) == TrendFor(days[..i], e) + DayValues(days[i].wuxing, e)
    ensures AllKnown(days[..i + 1]) <==> AllKnown(days[..i]) && KnownKeys(days[i].wuxing)
  {
    assert days[..i + 1][..i] == days[..i];
    assert forall p :: 0 <= p < i ==> days[..i + 1][p] == days[..i][p];
    assert days[..i + 1][i] == days[i];
  }

  /** The nested `forEach` loops that fill the five series. */
  method BuildTrend(days: seq<ApiDay>) returns (r: Result<map<Element, seq<int>>, Fault>)
    ensures r.Success? <==> AllKnown(days)
    ensures r.Success? ==> r.value == TrendMap(days)
    ensures r.Failure? ==> r.error == TypeError
  {
    var trend: map<Element, seq<int>> := map[Wood := [], Fire := [], Earth := [], Metal := [], Water := []];
    EveryElement();
    forall e ensures e in trend && trend[e] == TrendFor(days[..0], e) {
      assert days[..0] == [];
      assert e in ALL_ELEMENTS;
    }
    var i := 0;
    while i < |days|
      invariant 0 <= i <= |days|
      invariant AllKnown(days[..i])
      invariant forall e :: e in trend && trend[e] == TrendFor(days[..i], e)
    {
      var pushed := PushDay(trend, days[i].wuxing);
      if pushed.Failure? {
        assert !KnownKeys(days[i].wuxing);
        return Failure(TypeError);
      }
      TrendStep(days, i);
      trend := pushed.value;
      i := i + 1;
    }
    assert days[..i] == days;
    forall e ensures e in trend <==> e in TrendMap(days) {
    }
    return Success(trend);
  }

  /** The inner loop: one day's values pushed onto the series of the elements they name. */
  method PushDay(trend: map<Element, seq<int>>, w: seq<(string, real)>) returns (r: Result<map<Element, seq<int>>, Fault>)
    requires forall e :: e in trend
    ensures r.Success? <==> KnownKeys(w)
    ensures r.Success? ==> forall e :: e in r.value && r.value[e] == trend[e] + DayValues(w, e)
  {
    var t := trend;
    var j := 0;
    forall e ensures t[e] == trend[e] + DayValues(w[..0], e) {
      assert w[..0] == [];
    }
    while j < |w|
      invariant 0 <= j <= |w|
      invariant forall q :: 0 <= q < j ==> ElementOf(w[q].0).Some?
      invariant forall e :: e in t && t[e] == trend[e] + DayValues(w[..j], e)
    {
      var k := ElementOf(w[j].0);
      if k.None? {
        return Failure(TypeError);
      }
      PushStep(t, trend, w, j);
      t := t[k.value := t[k.value] + [Normalize(w[j].1)]];
      j := j + 1;
    }
    assert w[..j] == w;
    return Success(t);
  }

  /** Pushing the `j`-th value onto its element's series extends that series by the value and no other. */
  lemma PushStep(t: map<Element, seq<int>>, trend: map<Element, seq<int>>, w: seq<(string, real)>, j: nat)
    requires j < |w| && ElementOf(w[j].0).Some? && forall e :: e in trend
    requires forall e :: e in t && t[e] == trend[e] + DayValues(w[..j], e)
    ensures var k := ElementOf(w[j].0).value;
            var t' := t[k := t[k] + [Normalize(w[j].1)]];
            forall e :: e in t' && t'[e] == trend[e] + DayValues(w[..j + 1], e)
  {
    var k := ElementOf(w[j].0).value;
    var t' := t[k := t[k] + [Normalize(w[j].1)]];
    DayValuesStep(w, j);
    forall e ensures e in t' && t'[e] == trend[e] + DayValues(w[..j + 1], e) {
      if e == k {
        assert t'[e] == (trend[e] + DayValues(w[..j], e)) + [Normalize(w[j].1)];
      }
    }
  }

  lemma DayValuesStep(w: seq<(string, real)>, j: nat)
    requires j < |w|
    ensures forall e :: DayValues(w[..j + 1], e)
                        == DayValues(w[..j], e) + (if ElementOf(w[j].0) == Some(e) then [Normalize(w[j].1)] else [])
  {
    assert w[..j + 1][..j] == w[..j];
  }

  /** A day's values for `e` when its record names `e` exactly once. */
  lemma {:induction false} DayValuesSingle(w: seq<(string, real)>, e: Element, p: nat)
    requires p < |w| && ElementOf(w[p].0) == Some(e)
    requires forall q :: 0 <= q < |w| && q != p ==> ElementOf(w[q].0) != Some(e)
    ensures DayValues(w, e) == [Normalize(w[p].1)]
    decreases |w|
  {
    var init := w[..|w| - 1];
    if p < |w| - 1 {
      DayValuesSingle(init, e, p);
    } else {
      DayValuesNone(init, e);
    }
  }

  /** A record without `e` contributes nothing to `e`'s series. */
  lemma {:induction false} DayValuesNone(w: seq<(string, real)>, e: Element)
    requires forall q :: 0 <= q < |w| ==> ElementOf(w[q].0) != Some(e)
    ensures DayValues(w, e) == []
    decreases |w|
  {
    if |w| > 0 {
      DayValuesNone(w[..|w| - 1], e);
    }
  }

  /** The records' value for `e`, for days that name `e` exactly once. */
  predicate NamesOnce(w: seq<(string, real)>, e: Element) {
    exists p :: 0 <= p < |w| && ElementOf(w[p].0) == Some(e) && forall q :: 0 <= q < |w| && q != p ==> ElementOf(w[q].0) != Some(e)
  }

  /** The one position of a day's record that names `e`, and the day's values for `e`. */
  lemma NamedOnceValue(w: seq<(string, real)>, e: Element) returns (p: nat)
    requires NamesOnce(w, e)
    ensures p < |w| && DayValues(w, e) == [Normalize(w[p].1)]
    ensures forall q :: 0 <= q < |w| && ElementOf(w[q].0) == Some(e) ==> q == p
  {
    p :| 0 <= p < |w| && ElementOf(w[p].0) == Some(e) && forall q :: 0 <= q < |w| && q != p ==> ElementOf(w[q].0) != Some(e);
    DayValuesSingle(w, e, p);
  }

  /**
   * When every day names `e` once, `e`'s series has one rounded value per
   * day, in the days' order.
   */
  lemma {:induction false} TrendOneValuePerDay(days: seq<ApiDay>, e: Element)
    requires forall i :: 0 <= i < |days| ==> NamesOnce(days[i].wuxing, e)
    ensures |TrendFor(days, e)| == |days|
    ensures forall i, p :: 0 <= i < |days| && 0 <= p < |days[i].wuxing| && ElementOf(days[i].wuxing[p].0) == Some(e) ==>
              TrendFor(days, e)[i] == Normalize(days[i].wuxing[p].1)
    decreases |days|
  {
    if |days| > 0 {
      var n := |days| - 1;
      var init := days[..n];
      assert forall i :: 0 <= i < n ==> init[i] == days[i];
      TrendOneValuePerDay(init, e);
      var w := days[n].wuxing;
      var p := NamedOnceValue(w, e);
      var t := TrendFor(days, e);
      assert t == TrendFor(init, e) + [Normalize(w[p].1)];
      forall i, p' | 0 <= i < |days| && 0 <= p' < |days[i].wuxing| && ElementOf(days[i].wuxing[p'].0) == Some(e)
        ensures t[i] == Normalize(days[i].wuxing[p'].1)
      {
        if i < n {
          assert t[i] == TrendFor(init, e)[i];
        }
      }
    }
  }

  /** Each series is the concatenation of the series of consecutive stretches of days. */
  lemma {:induction false} TrendAppend(a: seq<ApiDay>, b: seq<ApiDay>, e: Element)
    ensures TrendFor(a + b, e) == TrendFor(a, e) + TrendFor(b, e)
    decreases |b|
  {
    if |b| > 0 {
      var n := |b| - 1;
      assert (a + b)[..|a + b| - 1] == a + b[..n];
      assert (a + b)[|a + b| - 1] == b[n];
      TrendAppend(a, b[..n], e);
    } else {
      assert a + b == a;
    }
  }

  /** Every trend value is at most 5, and at least 0 when the server's values are. */
  lemma {:induction false} TrendBounded(days: seq<ApiDay>, e: Element)
    ensures forall k :: 0 <= k < |TrendFor(days, e)| ==> TrendFor(days, e)[k] <= 5
    ensures (forall i, j :: 0 <= i < |days| && 0 <= j < |days[i].wuxing| ==> days[i].wuxing[j].1 >= 0.0) ==>
              forall k :: 0 <= k < |TrendFor(days, e)| ==> TrendFor(days, e)[k] >= 0
    decreases |days|
  {
    if |days| > 0 {
      var n := |days| - 1;
      TrendBounded(days[..n], e);
      DayValuesBounded(days[n].wuxing, e);
      if forall i, j :: 0 <= i < |days| && 0 <= j < |days[i].wuxing| ==> days[i].wuxing[j].1 >= 0.0 {
        assert forall i, j :: 0 <= i < |days[..n]| && 0 <= j < |days[..n][i].wuxing| ==>
                 days[..n][i].wuxing[j] == days[i].wuxing[j];
      }
    }
  }

  lemma {:induction false} DayValuesBounded(w: seq<(string, real)>, e: Element)
    ensures forall k :: 0 <= k < |DayValues(w, e)| ==> DayValues(w, e)[k] <= 5
    ensures (forall j :: 0 <= j < |w| ==> w[j].1 >= 0.0) ==> forall k :: 0 <= k < |DayValues(w, e)| ==> DayValues(w, e)[k] >= 0
    decreases |w|
  {
    if |w| > 0 {
      DayValuesBounded(w[..|w| - 1], e);
    }
  }

  /* ---------- today's record ---------- */

  /** `${year}｜${day}`: the month is left out. */
  function GanzhiText(g: Ganzhi): (s: string)
    ensures '｜' !in g.year && '｜' !in g.day ==> Split(s, '｜') == [g.year, g.day]
  {
    if '｜' !in g.year && '｜' !in g.day then
      SplitAppend(g.year, g.day, '｜');
      SplitNoSep(g.day, '｜');
      g.year + "｜" + g.day
    else g.year + "｜" + g.day
  }

  /** `Object.keys(w).map(k => ({ key: k, value: normalize(w[k]) }))`. */
  function WuxingItems(w: seq<(string, real)>): (items: seq<WuxingItem>)
    ensures |items| == |w|
    ensures forall i :: 0 <= i < |w| ==> items[i] == WuxingItem(w[i].0, Normalize(w[i].1))
  {
    seq(|w|, i requires 0 <= i < |w| => WuxingItem(w[i].0, Normalize(w[i].1)))
  }

  /**
   * The response handler: today's record with its series, or the TypeError the
   * handler throws on an empty table or an unknown element key.
   */
  function TodayOf(table: DayTable, todayISO: string): Result<Today, Fault> {
    var t :- PickToday(table, todayISO);
    if !AllKnown(Values(table)) then Failure(TypeError)
    else Success(Today(t.date, GanzhiText(t.ganzhi), t.summary, t.dominant, t.trendDirection.GetOr("flat"),
                       WuxingItems(t.wuxing), TrendMap(Values(table))))
  }

  /** The handler as the source runs it: the lookup, then the loops, then the record. */
  method Receive(table: DayTable, todayISO: string) returns (r: Result<Today, Fault>)
    ensures r == TodayOf(table, todayISO)
  {
    var days := Values(table);
    var t := PickToday(table, todayISO);
    var trend := BuildTrend(days);
    if trend.Failure? {
      return Failure(trend.error);
    }
    if t.Failure? {
      return Failure(t.error);
    }
    var d := t.value;
    r := Success(Today(d.date, GanzhiText(d.ganzhi), d.summary, d.dominant, d.trendDirection.GetOr("flat"),
                       WuxingItems(d.wuxing), trend.value));
  }

  /** What the handler fails on, and the fields of the record it builds otherwise. */
  lemma TodayOfFields(table: DayTable, todayISO: string)
    ensures TodayOf(table, todayISO).Success? <==>
              (|table| > 0 || Lookup(table, todayISO).Some?) && AllKnown(Values(table))
    ensures TodayOf(table, todayISO).Failure? ==> TodayOf(table, todayISO).error == TypeError
    ensures TodayOf(table, todayISO).Success? ==>
              var t := PickToday(table, todayISO).value;
              var r := TodayOf(table, todayISO).value;
              r.date == t.date && r.summary == t.summary && r.dominant == t.dominant
              && (t.trendDirection.None? ==> r.trendDirection == "flat")
              && (t.trendDirection.Some? ==> r.trendDirection == t.trendDirection.value)
              && |r.wuxing| == |t.wuxing|
              && forall e :: e in r.trend7ByWuxing && r.trend7ByWuxing[e] == TrendFor(Values(table), e)
  {
    if Lookup(table, todayISO).Some? {
      var i :| 0 <= i < |table| && table[i] == (todayISO, Lookup(table, todayISO).value);
    }
  }

  /* ---------- the hook's state ---------- */

  /** `useFortuneData`'s three state cells. */
  class FortuneFeed {
    var data: Option<Today>
    var isLoading: bool
    var error: Option<Fault>

    constructor()
      ensures data.None? && isLoading && error.None?
    {
      data := None;
      isLoading := true;
      error := None;
    }

    /**
     * The request's end: `response` is the parsed sync response or the error
     * fetching or parsing threw. A record is stored, an error is kept, and
     * loading stops either way.
     */
    method Settle(response: Result<DayTable, Fault>, todayISO: string)
      modifies this
      ensures !isLoading
      ensures response.Failure? ==> data == old(data) && error == Some(response.error)
      ensures response.Success? && TodayOf(response.value, todayISO).Failure? ==>
                data == old(data) && error == Some(TodayOf(response.value, todayISO).error)
      ensures response.Success? && TodayOf(response.value, todayISO).Success? ==>
                data == Some(TodayOf(response.value, todayISO).value) && error == old(error)
    {
      if response.Failure? {
        error := Some(response.error);
      } else {
        var r := Receive(response.value, todayISO);
        if r.Failure? {
          error := Some(r.error);
        } else {
          data := Some(r.value);
        }
      }
      isLoading := false;
    }
  }
}
