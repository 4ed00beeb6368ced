/**
 * The calendar's payload adapter: the month's `days` list turned into a
 * record of daily fortunes keyed by date, with the Chinese score keys mapped
 * to the canonical ones.
 */
module CalendarData {
  import opened Wrappers
  import opened JsValues

  /** The six canonical scores; each is the payload's value, or 0 when that is missing. */
  datatype DailyScores = DailyScores(
    overall: Js, wealth: Js, work: Js, investment: Js, social: Js, lottery: Js)

  datatype DailyFortune = DailyFortune(uid: Js, date: Js, scores: DailyScores, meta: Js)

  /** `cn[k] ?? 0`. */
  function ScoreOr0(cn: Js, k: string): (r: Js)
    ensures Nullish(Get(cn, k)) ==> r == Num(0.0)
    ensures !Nullish(Get(cn, k)) ==> r == Get(cn, k)
  {
    Coalesce(Get(cn, k), Num(0.0))
  }

  /** `mapScores`: throws only when the scores object itself is null or undefined. */
  function MapScores(cn: Js): (r: Result<DailyScores, Fault>)
    ensures r.Failure? <==> Nullish(cn)
    ensures r.Success? ==>
              r.value == DailyScores(ScoreOr0(cn, "整體"), ScoreOr0(cn, "財運"), ScoreOr0(cn, "工作運"),
                                     ScoreOr0(cn, "投資"), ScoreOr0(cn, "人際"), ScoreOr0(cn, "彩券"))
  {
    if Nullish(cn) then Failure(TypeError)
    else Success(DailyScores(ScoreOr0(cn, "整體"), ScoreOr0(cn, "財運"), ScoreOr0(cn, "工作運"),
                             ScoreOr0(cn, "投資"), ScoreOr0(cn, "人際"), ScoreOr0(cn, "彩券")))
  }

  /** Numeric scores under their Chinese keys come back under the canonical fields. */
  lemma MapScoresRoundTrip(a: real, b: real, c: real, d: real, e: real, f: real)
    ensures MapScores(Obj([("整體", Num(a)), ("財運", Num(b)), ("工作運", Num(c)),
                           ("投資", Num(d)), ("人際", Num(e)), ("彩券", Num(f))]))
            == Success(DailyScores(Num(a), Num(b), Num(c), Num(d), Num(e), Num(f)))
  {
    var es := [("整體", Num(a)), ("財運", Num(b)), ("工作運", Num(c)),
               ("投資", Num(d)), ("人際", Num(e)), ("彩券", Num(f))];
    var o := Obj(es);
    assert Get(o, "整體") == Num(a) by { FieldAt(es, 0); }
    assert Get(o, "財運") == Num(b) by { FieldAt(es, 1); }
    assert Get(o, "工作運") == Num(c) by { FieldAt(es, 2); }
    assert Get(o, "投資") == Num(d) by { FieldAt(es, 3); }
    assert Get(o, "人際") == Num(e) by { FieldAt(es, 4); }
    assert Get(o, "彩券") == Num(f) by { FieldAt(es, 5); }
  }

  /** An empty scores object maps to all zeros. */
  lemma MapScoresEmpty()
    ensures MapScores(Obj([])) == Success(DailyScores(Num(0.0), Num(0.0), Num(0.0), Num(0.0), Num(0.0), Num(0.0)))
  {
  }

  /** The key `out[d.date]` writes: `d.date` converted to a property key. */
  function DayKey(d: Js, engine: Engine): string {
    ToStr(Get(d, "date"), engine)
  }

  /** An element of `days` that is present and has scores. */
  predicate EntryOk(d: Js) {
    !Nullish(d) && !Nullish(Get(d, "scores"))
  }

  /** The record one element of `days` contributes; it throws when the element or its scores are missing. */
  function DayEntry(d: Js): (r: Result<DailyFortune, Fault>)
    ensures r.Success? <==> EntryOk(d)
    ensures r.Success? ==> r.value.uid == Coalesce(Get(d, "uid"), Str(""))
    ensures r.Success? ==> r.value.date == Get(d, "date") && r.value.meta == Get(d, "meta")
    ensures r.Success? ==> Success(r.value.scores) == MapScores(Get(d, "scores"))
  {
    if Nullish(d) then Failure(TypeError)
    else
      var scores :- MapScores(Get(d, "scores"));
      Success(DailyFortune(Coalesce(Get(d, "uid"), Str("")), Get(d, "date"), scores, Get(d, "meta")))
  }

  /** The record the loop has built after the elements `items`, in order. */
  function DailyList(items: seq<Js>, engine: Engine): (r: Result<map<string, DailyFortune>, Fault>)
    decreases |items|
  {
    if items == [] then Success(map[])
    else
      var prev :- DailyList(items[..|items| - 1], engine);
      var d := items[|items| - 1];
      var entry :- DayEntry(d);
      Success(prev[DayKey(d, engine) := entry])
  }

  /** `adaptDailyList` as a function of the payload: `api.days` must be an array or a string. */
  function AdaptedDailyList(api: Js, engine: Engine): Result<map<string, DailyFortune>, Fault> {
    var days :- Access(api, "days");
    match Iterate(days)
    case None => Failure(TypeError)
    case Some(items) => DailyList(items, engine)
  }

  /** `adaptDailyList`: the `for...of` loop over `api.days`. */
  method AdaptDailyList(api: Js, engine: Engine) returns (r: Result<map<string, DailyFortune>, Fault>)
    ensures r == AdaptedDailyList(api, engine)
  {
    var days := Access(api, "days");
    if days.Failure? {
      return Failure(TypeError);
    }
    var items := Iterate(days.value);
    if items.None? {
      return Failure(TypeError);
    }
    var xs := items.value;
    var out: map<string, DailyFortune> := map[];
    for i := 0 to |xs|
      invariant DailyList(xs[..i], engine) == Success(out)
    {
      assert xs[..i + 1][..i] == xs[..i];
      var entry := DayEntry(xs[i]);
      if entry.Failure? {
        FailureSticks(xs, i + 1, engine);
        assert xs[..|xs|] == xs;
        return Failure(TypeError);
      }
      out := out[DayKey(xs[i], engine) := entry.value];
    }
    assert xs[..|xs|] == xs;
    return Success(out);
  }

  /** Once an element throws, the whole loop throws. */
  lemma {:induction false} FailureSticks(xs: seq<Js>, i: nat, engine: Engine)
    requires 1 <= i <= |xs| && DayEntry(xs[i - 1]).Failure?
    ensures DailyList(xs, engine) == Failure(TypeError)
    decreases |xs|
  {
    if i < |xs| {
      FailureSticks(xs[..|xs| - 1], i, engine);
    } else {
      assert xs == xs[..|xs| - 1] + [xs[i - 1]];
      match DailyList(xs[..|xs| - 1], engine)
      case Failure(e) => FailuresAreTypeErrors(xs[..|xs| - 1], engine);
      case Success(_) =>
    }
  }

  lemma {:induction false} FailuresAreTypeErrors(xs: seq<Js>, engine: Engine)
    ensures DailyList(xs, engine).Failure? ==> DailyList(xs, engine) == Failure(TypeError)
    decreases |xs|
  {
    if xs != [] {
      FailuresAreTypeErrors(xs[..|xs| - 1], engine);
    }
  }

  /** One step of the loop succeeds when the steps before it did and the new element has its scores. */
  lemma DailyListStepOk(xs: seq<Js>, engine: Engine)
    requires xs != []
    ensures DailyList(xs, engine).Success? <==>
              DailyList(xs[..|xs| - 1], engine).Success? && EntryOk(xs[|xs| - 1])
  {
  }

  /** A successful step adds the new element's record under its date, replacing any earlier one. */
  lemma DailyListStepValue(xs: seq<Js>, engine: Engine)
    requires xs != [] && DailyList(xs, engine).Success?
    ensures DailyList(xs[..|xs| - 1], engine).Success? && DayEntry(xs[|xs| - 1]).Success?
    ensures DailyList(xs, engine).value
            == DailyList(xs[..|xs| - 1], engine).value[DayKey(xs[|xs| - 1], engine) := DayEntry(xs[|xs| - 1]).value]
  {
  }

  /** Every element of `xs` has its scores. */
  predicate AllOk(xs: seq<Js>) {
    forall i :: 0 <= i < |xs| ==> EntryOk(xs[i])
  }

  lemma AllOkStep(xs: seq<Js>)
    requires xs != []
    ensures AllOk(xs) <==> AllOk(xs[..|xs| - 1]) && EntryOk(xs[|xs| - 1])
  {
    var ys := xs[..|xs| - 1];
    if AllOk(xs) {
      forall i | 0 <= i < |ys| ensures EntryOk(ys[i]) {
        assert ys[i] == xs[i];
      }
    }
    if AllOk(ys) && EntryOk(xs[|xs| - 1]) {
      forall i | 0 <= i < |xs| ensures EntryOk(xs[i]) {
        if i < |ys| {
          assert ys[i] == xs[i];
        }
      }
    }
  }

  /** The loop succeeds exactly when every element has its scores. */
  lemma {:induction false} DailyListSucceeds(xs: seq<Js>, engine: Engine)
    ensures DailyList(xs, engine).Success? <==> AllOk(xs)
    decreases |xs|
  {
    if xs != [] {
      DailyListSucceeds(xs[..|xs| - 1], engine);
      DailyListStepOk(xs, engine);
      AllOkStep(xs);
    }
  }

  /** Every element's date is a key. */
  lemma {:induction false} DailyListHasDates(xs: seq<Js>, engine: Engine)
    requires DailyList(xs, engine).Success?
    ensures forall i :: 0 <= i < |xs| ==> DayKey(xs[i], engine) in DailyList(xs, engine).value
    decreases |xs|
  {
    if xs != [] {
      var ys := xs[..|xs| - 1];
      DailyListStepValue(xs, engine);
      DailyListHasDates(ys, engine);
      forall i | 0 <= i < |ys| ensures DayKey(xs[i], engine) in DailyList(xs, engine).value {
        assert ys[i] == xs[i];
      }
    }
  }

  /** Every key is the date of some element. */
  lemma {:induction false} DailyListOnlyDates(xs: seq<Js>, engine: Engine)
    requires DailyList(xs, engine).Success?
    ensures forall k :: k in DailyList(xs, engine).value ==>
              exists i :: 0 <= i < |xs| && DayKey(xs[i], engine) == k
    decreases |xs|
  {
    if xs != [] {
      var ys := xs[..|xs| - 1];
      DailyListStepValue(xs, engine);
      DailyListOnlyDates(ys, engine);
      forall k | k in DailyList(xs, engine).value
        ensures exists i :: 0 <= i < |xs| && DayKey(xs[i], engine) == k
      {
        if k != DayKey(xs[|xs| - 1], engine) {
          var i :| 0 <= i < |ys| && DayKey(ys[i], engine) == k;
          assert ys[i] == xs[i];
        }
      }
    }
  }

  /** Each key holds the record of the last element with that date: later duplicates overwrite. */
  lemma {:induction false} DailyListLastWins(xs: seq<Js>, engine: Engine, j: nat)
    requires DailyList(xs, engine).Success?
    requires j < |xs|
    requires forall i :: j < i < |xs| ==> DayKey(xs[i], engine) != DayKey(xs[j], engine)
    ensures DayEntry(xs[j]).Success?
    ensures DayKey(xs[j], engine) in DailyList(xs, engine).value
    ensures DailyList(xs, engine).value[DayKey(xs[j], engine)] == DayEntry(xs[j]).value
    decreases |xs|
  {
    DailyListSucceeds(xs, engine);
    var ys := xs[..|xs| - 1];
    if j < |xs| - 1 {
      forall i | j < i < |ys| ensures DayKey(ys[i], engine) != DayKey(ys[j], engine) {
        assert ys[i] == xs[i];
      }
      DailyListLastWins(ys, engine, j);
      assert ys[j] == xs[j];
    }
  }

  /** A record whose date is a string is stored under that very string. */
  lemma StringDateKey(d: Js, engine: Engine)
    requires Get(d, "date").Str?
    ensures DayKey(d, engine) == Get(d, "date").s
    ensures DayEntry(d).Success? ==> DayEntry(d).value.date == Str(DayKey(d, engine))
  {
  }

  /** Iterating a non-empty string visits one-letter strings, whose scores are missing. */
  lemma NonEmptyStringDaysFail(s: string, engine: Engine)
    requires s != ""
    ensures AdaptedDailyList(Obj([("days", Str(s))]), engine) == Failure(TypeError)
  {
    var items := Iterate(Str(s)).value;
    assert DayEntry(items[0]).Failure?;
    FailureSticks(items, 1, engine);
  }
}
