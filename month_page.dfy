/**
 * The month view: its module-level month and year caches, the view state, the
 * effect that loads the cursor's month and year fortunes (fetching only what
 * is not cached, and writing nothing unless both requests succeed), the
 * guarded paging, and the lucky-item colour rule.
 */
module MonthPage {
  import opened Wrappers
  import opened Text
  import opened JsValues
  import opened Auth
  import opened Dates
  import opened CalendarPage
  import opened MonthData
  import opened YearData

  /** A `monthCache` entry: the month's fortune and a per-day record that is always stored empty. */
  datatype MonthEntry = MonthEntry(monthFortune: MonthFortune, monthData: map<string, MonthFortune>)

  /** `monthCache` and `yearCache`. */
  class MonthStore {
    var monthCache: map<string, MonthEntry>
    var yearCache: map<string, YearFortune>

    constructor()
      ensures monthCache == map[] && yearCache == map[]
    {
      monthCache := map[];
      yearCache := map[];
    }
  }

  /**
   * One `Promise.all` round: the keys it will write and, for each of the two
   * fortunes, whether it is fetched (`fetchMonthFortune(uid, ym)`,
   * `fetchYearFortune(uid, String(year))`) or was cached and stands as null.
   */
  datatype Round = Round(uid: string, ym: string, yearText: string,
                         monthKey: string, yearKey: string, fetchMonth: bool, fetchYear: bool)

  /** The error text the view shows when a round fails. */
  const LOAD_FAILED: string := "資料載入失敗"

  /**
   * What one slot of the round resolves to: null when it was not fetched,
   * the adapted record when its request and adapter succeed, otherwise the
   * rejection.
   */
  function MonthSlot(fetched: bool, response: Result<Js, Fault>): (r: Result<Option<MonthFortune>, Fault>)
    ensures !fetched ==> r == Success(None)
    ensures fetched && response.Failure? ==> r.Failure?
    ensures fetched && response.Success? ==>
              (r.Success? <==> AdaptMonthFortune(response.value).Success?)
              && (r.Success? ==> r.value == Some(AdaptMonthFortune(response.value).value))
  {
    if !fetched then Success(None)
    else
      var json :- response;
      var m :- AdaptMonthFortune(json);
      Success(Some(m))
  }

  function YearSlot(fetched: bool, response: Result<Js, Fault>): (r: Result<Option<YearFortune>, Fault>)
    ensures !fetched ==> r == Success(None)
    ensures fetched && response.Failure? ==> r.Failure?
    ensures fetched && response.Success? ==>
              (r.Success? <==> AdaptYearFortune(response.value).Success?)
              && (r.Success? ==> r.value == Some(AdaptYearFortune(response.value).value))
  {
    if !fetched then Success(None)
    else
      var json :- response;
      var y :- AdaptYearFortune(json);
      Success(Some(y))
  }

  class MonthView {
    var yearFortune: Option<YearFortune>
    var cursor: MonthCursor
    var selectedISO: string
    var monthFortune: Option<MonthFortune>
    var monthData: map<string, MonthFortune>
    var loading: bool
    var error: Option<string>
    var showPaywall: bool

    /** The view as mounted on `today` (a local date: full year, 0-based month, day). */
    constructor(year: int, month: int, day: int)
      requires 0 <= month < 12 && 1 <= day <= 31
      ensures cursor == FirstOfMonth(year, month) && selectedISO == ToISO(year, month, day)
      ensures yearFortune.None? && monthFortune.None? && monthData == map[]
      ensures loading && error.None? && !showPaywall
    {
      yearFortune := None;
      cursor := FirstOfMonth(year, month);
      selectedISO := ToISO(year, month, day);
      monthFortune := None;
      monthData := map[];
      loading := true;
      error := None;
      showPaywall := false;
    }

    /** The fields neither the effect nor its round touches. */
    function Controls(): (MonthCursor, string, bool)
      reads this
    {
      (cursor, selectedISO, showPaywall)
    }

    /** The fields a round's outcome shows. */
    function Shown(): (Option<MonthFortune>, map<string, MonthFortune>, Option<YearFortune>, Option<string>)
      reads this
    {
      (monthFortune, monthData, yearFortune, error)
    }

    /**
     * One run of the effect. It waits only for the session (there is no
     * access check: a guest loads the current month too). When both fortunes
     * are cached they are shown at once; otherwise loading starts and a round
     * fetches the missing ones.
     */
    method RunEffect(store: MonthStore, authLoading: bool, member: Option<Member>, engine: Engine)
      returns (round: Option<Round>)
      requires ValidCursor(cursor)
      modifies this
      ensures Controls() == old(Controls()) && error == old(error)
      ensures authLoading ==> round.None? && Shown() == old(Shown()) && loading == old(loading)
      ensures !authLoading ==>
                var uid := ViewUid(member, engine);
                var mk := SubjectKey(uid, YearMonth(cursor));
                var yk := SubjectKey(uid, IntToString(cursor.year));
                if mk in store.monthCache && yk in store.yearCache then
                  round.None? && !loading
                  && monthFortune == Some(store.monthCache[mk].monthFortune)
                  && monthData == store.monthCache[mk].monthData
                  && yearFortune == Some(store.yearCache[yk])
                else
                  round == Some(Round(uid, YearMonth(cursor), IntToString(cursor.year), mk, yk,
                                      mk !in store.monthCache, yk !in store.yearCache))
                  && loading && Shown() == old(Shown())
    {
      if authLoading {
        return None;
      }
      var uid := ViewUid(member, engine);
      var ym := YearMonth(cursor);
      var yearText := IntToString(cursor.year);
      var monthKey := SubjectKey(uid, ym);
      var yearKey := SubjectKey(uid, yearText);
      var cachedMonth := monthKey in store.monthCache;
      var cachedYear := yearKey in store.yearCache;
      if cachedMonth && cachedYear {
        monthFortune := Some(store.monthCache[monthKey].monthFortune);
        monthData := store.monthCache[monthKey].monthData;
        yearFortune := Some(store.yearCache[yearKey]);
        loading := false;
        return None;
      }
      loading := true;
      round := Some(Round(uid, ym, yearText, monthKey, yearKey, !cachedMonth, !cachedYear));
    }

    /**
     * The end of a round: `monthResponse` and `yearResponse` are the parsed
     * payloads (or the errors thrown) of the requests the round made; a slot
     * it did not fetch is ignored. If either slot rejects, the error is shown
     * and nothing is written; otherwise each fetched record is shown and
     * cached. Loading stops either way.
     */
    method Settle(store: MonthStore, round: Round, monthResponse: Result<Js, Fault>, yearResponse: Result<Js, Fault>)
      modifies this, store
      ensures Controls() == old(Controls()) && !loading && monthData == old(monthData)
      ensures var m := MonthSlot(round.fetchMonth, monthResponse);
              var y := YearSlot(round.fetchYear, yearResponse);
              if m.Failure? || y.Failure? then
                error == Some(LOAD_FAILED)
                && monthFortune == old(monthFortune) && yearFortune == old(yearFortune)
                && store.monthCache == old(store.monthCache) && store.yearCache == old(store.yearCache)
              else
                error == old(error)
                && (m.value.Some? ==>
                      monthFortune == m.value
                      && store.monthCache == old(store.monthCache)[round.monthKey := MonthEntry(m.value.value, map[])])
                && (m.value.None? ==> monthFortune == old(monthFortune) && store.monthCache == old(store.monthCache))
                && (y.value.Some? ==>
                      yearFortune == y.value
                      && store.yearCache == old(store.yearCache)[round.yearKey := y.value.value])
                && (y.value.None? ==> yearFortune == old(yearFortune) && store.yearCache == old(store.yearCache))
    {
      var m := MonthSlot(round.fetchMonth, monthResponse);
      var y := YearSlot(round.fetchYear, yearResponse);
      if m.Failure? || y.Failure? {
        error := Some(LOAD_FAILED);
      } else {
        if m.value.Some? {
          monthFortune := m.value;
          store.monthCache := store.monthCache[round.monthKey := MonthEntry(m.value.value, map[])];
        }
        if y.value.Some? {
          yearFortune := y.value;
          store.yearCache := store.yearCache[round.yearKey := y.value.value];
        }
      }
      loading := false;
    }

    /**
     * `guardedChangeMonth` applied to the move by `delta` months: no member
     * opens the login sheet, an unpaid member gets the paywall, a paid member
     * moves.
     */
    method GuardedChangeMonth(auth: AuthProvider, delta: int)
      modifies this, auth
      ensures selectedISO == old(selectedISO) && Shown() == old(Shown()) && loading == old(loading)
      ensures auth.Session() == old(auth.Session())
      ensures match GateFor(auth.member, auth.IsPaid())
              case ToLogin =>
                auth.isLoginOpen && cursor == old(cursor) && showPaywall == old(showPaywall)
              case ToPaywall =>
                showPaywall && cursor == old(cursor) && auth.isLoginOpen == old(auth.isLoginOpen)
              case Proceed =>
                cursor == AddMonths(old(cursor), delta) && showPaywall == old(showPaywall)
                && auth.isLoginOpen == old(auth.isLoginOpen)
    {
      if auth.member.None? {
        auth.OpenLogin();
        return;
      }
      if !auth.IsPaid() {
        showPaywall := true;
        return;
      }
      cursor := AddMonths(cursor, delta);
    }

    /** `onPrevMonth`. */
    method OnPrevMonth(auth: AuthProvider)
      modifies this, auth
      ensures auth.Session() == old(auth.Session())
      ensures cursor != old(cursor) ==> auth.member.Some? && auth.IsPaid()
      ensures auth.member.Some? && auth.IsPaid() ==> cursor == AddMonths(old(cursor), -1)
    {
      GuardedChangeMonth(auth, -1);
    }

    /** `onNextMonth`. */
    method OnNextMonth(auth: AuthProvider)
      modifies this, auth
      ensures auth.Session() == old(auth.Session())
      ensures cursor != old(cursor) ==> auth.member.Some? && auth.IsPaid()
      ensures auth.member.Some? && auth.IsPaid() ==> cursor == AddMonths(old(cursor), 1)
    {
      GuardedChangeMonth(auth, 1);
    }
  }

  /** The month and year keys of one subject never collide (years from 0 on). */
  lemma MonthAndYearKeysDiffer(uid: string, c: MonthCursor)
    requires ValidCursor(c) && c.year >= 0 && '-' !in uid
    ensures SubjectKey(uid, YearMonth(c)) != SubjectKey(uid, IntToString(c.year))
  {
    var ym := YearMonth(c);
    var y := IntToString(c.year);
    assert '-' !in y by {
      assert forall ch :: ch in y ==> IsDigit(ch);
    }
    SplitNoSep(y, '-');
    SplitAppend(uid, ym, '-');
    SplitAppend(uid, y, '-');
    assert |Split(ym, '-')| == 2;
    assert |Split(SubjectKey(uid, ym), '-')| == 3;
    assert |Split(SubjectKey(uid, y), '-')| == 2;
  }

  /* ---------- lucky-item colours ---------- */

  /** The colour words `colorByText` looks for, in priority order, with their classes. */
  const COLOR_RULES: seq<(string, string)> :=
    [("紅", "text-red-400"), ("黃", "text-yellow-400"), ("金", "text-amber-300"), ("白", "text-white"),
     ("綠", "text-emerald-400"), ("藍", "text-sky-400"), ("紫", "text-purple-400"), ("黑", "text-neutral-400")]

  /** `colorByText`. */
  function ColorByText(text: string): string {
    if Includes(text, "紅") then "text-red-400"
    else if Includes(text, "黃") then "text-yellow-400"
    else if Includes(text, "金") then "text-amber-300"
    else if Includes(text, "白") then "text-white"
    else if Includes(text, "綠") then "text-emerald-400"
    else if Includes(text, "藍") then "text-sky-400"
    else if Includes(text, "紫") then "text-purple-400"
    else if Includes(text, "黑") then "text-neutral-400"
    else "text-white"
  }

  /** The class of the first rule from the `k`-th on whose word occurs in `text`, or "text-white". */
  function FirstRuleColor(text: string, k: nat): (c: string)
    requires k <= |COLOR_RULES|
    ensures (forall j :: k <= j < |COLOR_RULES| ==> !Includes(text, COLOR_RULES[j].0)) ==> c == "text-white"
    ensures forall j :: k <= j < |COLOR_RULES| && Includes(text, COLOR_RULES[j].0)
                        && (forall i :: k <= i < j ==> !Includes(text, COLOR_RULES[i].0))
                        ==> c == COLOR_RULES[j].1
    decreases |COLOR_RULES| - k
  {
    if k == |COLOR_RULES| then "text-white"
    else if Includes(text, COLOR_RULES[k].0) then COLOR_RULES[k].1
    else FirstRuleColor(text, k + 1)
  }

  /** The if-chain is the first-match rule over the priority table. */
  lemma ColorByTextIsFirstRule(text: string)
    ensures ColorByText(text) == FirstRuleColor(text, 0)
  {
    assert FirstRuleColor(text, 7) == if Includes(text, "黑") then "text-neutral-400" else "text-white";
    assert FirstRuleColor(text, 6) == if Includes(text, "紫") then "text-purple-400" else FirstRuleColor(text, 7);
    assert FirstRuleColor(text, 5) == if Includes(text, "藍") then "text-sky-400" else FirstRuleColor(text, 6);
    assert FirstRuleColor(text, 4) == if Includes(text, "綠") then "text-emerald-400" else FirstRuleColor(text, 5);
    assert FirstRuleColor(text, 3) == if Includes(text, "白") then "text-white" else FirstRuleColor(text, 4);
    assert FirstRuleColor(text, 2) == if Includes(text, "金") then "text-amber-300" else FirstRuleColor(text, 3);
    assert FirstRuleColor(text, 1) == if Includes(text, "黃") then "text-yellow-400" else FirstRuleColor(text, 2);
    assert FirstRuleColor(text, 0) == if Includes(text, "紅") then "text-red-400" else FirstRuleColor(text, 1);
  }

  /** A word earlier in the priority wins over any later one in the same text. */
  lemma ColorPriority(text: string, i: nat, j: nat)
    requires i < j < |COLOR_RULES|
    requires Includes(text, COLOR_RULES[i].0) && Includes(text, COLOR_RULES[j].0)
    requires forall k :: 0 <= k < i ==> !Includes(text, COLOR_RULES[k].0)
    ensures ColorByText(text) == COLOR_RULES[i].1
  {
    ColorByTextIsFirstRule(text);
  }

  /** "金色" reads as gold, and "紅白" as red: 紅 outranks 白. */
  lemma ColorExamples()
    ensures ColorByText("金色") == "text-amber-300"
    ensures ColorByText("紅白") == "text-red-400"
    ensures ColorByText("灰") == "text-white"
  {
    ColorByTextIsFirstRule("金色");
    ColorByTextIsFirstRule("紅白");
    ColorByTextIsFirstRule("灰");
    IncludesChar("金色", '紅');
    IncludesChar("金色", '黃');
    IncludesChar("金色", '金');
    IncludesChar("紅白", '紅');
    IncludesChar("灰", '紅');
    IncludesChar("灰", '黃');
    IncludesChar("灰", '金');
    IncludesChar("灰", '白');
    IncludesChar("灰", '綠');
    IncludesChar("灰", '藍');
    IncludesChar("灰", '紫');
    IncludesChar("灰", '黑');
  }
}
