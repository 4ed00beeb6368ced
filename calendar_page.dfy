/**
 * The calendar view: its module-level cache of adapted months, the view state
 * (cursor month, selected date, month data, loading, paywall), the fetch
 * effect, the paging and selection handlers with their tier gate, and the
 * score tones it colours days with.
 */
module CalendarPage {
  import opened Wrappers
  import opened Text
  import opened JsValues
  import opened Auth
  import opened Dates
  import opened CalendarData

  /** `${uid}-${period}`: the cache keys of the calendar and of the month view. */
  function SubjectKey(uid: string, period: string): (key: string)
    ensures '-' !in uid ==> Split(key, '-')[0] == uid
  {
    if '-' !in uid then SplitAppend(uid, period, '-'); uid + "-" + period
    else uid + "-" + period
  }

  /** Guest and member entries live in different partitions of the cache. */
  lemma SubjectKeySeparatesSubjects(u1: string, u2: string, p1: string, p2: string)
    requires '-' !in u1 && '-' !in u2 && u1 != u2
    ensures SubjectKey(u1, p1) != SubjectKey(u2, p2)
  {
  }

  /** Within one subject, different months have different keys (years from 0 on). */
  lemma SubjectKeySeparatesMonths(uid: string, a: MonthCursor, b: MonthCursor)
    requires ValidCursor(a) && ValidCursor(b) && a.year >= 0 && b.year >= 0 && a != b
    ensures SubjectKey(uid, YearMonth(a)) != SubjectKey(uid, YearMonth(b))
  {
    if SubjectKey(uid, YearMonth(a)) == SubjectKey(uid, YearMonth(b)) {
      assert (uid + "-" + YearMonth(a))[|uid| + 1..] == YearMonth(a);
      assert (uid + "-" + YearMonth(b))[|uid| + 1..] == YearMonth(b);
      YearMonthInjective(a, b);
    }
  }

  /** The month request an effect run starts: `fetchDailyForMonth(uid, ym)`, cached under `key`. */
  datatype MonthRequest = MonthRequest(uid: string, ym: string, key: string)

  /** The calendar's `dailyCache`: adapted months by subject and month. */
  class CalendarStore {
    var cache: map<string, map<string, DailyFortune>>

    constructor()
      ensures cache == map[]
    {
      cache := map[];
    }
  }

  /* ---------- tones ---------- */

  /** The four score bands: from 8, from 6, from 4, and below. */
  function Band(v: real): (b: nat)
    ensures b <= 3
    ensures b == 3 <==> v >= 8.0
    ensures b == 2 <==> 6.0 <= v < 8.0
    ensures b == 1 <==> 4.0 <= v < 6.0
    ensures b == 0 <==> v < 4.0
  {
    if v >= 8.0 then 3 else if v >= 6.0 then 2 else if v >= 4.0 then 1 else 0
  }

  /** `scoreTone`, in both the calendar and the month view. */
  function ScoreTone(v: real): (t: string)
    ensures t == ["text-red-300", "text-yellow-300", "text-white/80", "text-emerald-300"][Band(v)]
  {
    if v >= 8.0 then "text-emerald-300"
    else if v >= 6.0 then "text-white/80"
    else if v >= 4.0 then "text-yellow-300"
    else "text-red-300"
  }

  /** `dotTone`, in both the calendar and the month view. */
  function DotTone(v: real): (t: string)
    ensures t == ["bg-red-400", "bg-yellow-400", "bg-white/50", "bg-emerald-400"][Band(v)]
  {
    if v >= 8.0 then "bg-emerald-400"
    else if v >= 6.0 then "bg-white/50"
    else if v >= 4.0 then "bg-yellow-400"
    else "bg-red-400"
  }

  /** A day's text tone and dot tone always tell the same band. */
  lemma TonesAgree(a: real, b: real)
    ensures ScoreTone(a) == ScoreTone(b) <==> DotTone(a) == DotTone(b)
    ensures ScoreTone(a) == ScoreTone(b) <==> Band(a) == Band(b)
  {
  }

  /* ---------- the view ---------- */

  class CalendarView {
    var cursor: MonthCursor
    var selectedISO: string
    var monthData: map<string, DailyFortune>
    var loading: bool
    /** Declared and rendered, but nothing ever sets it. */
    var error: Option<string>
    var showPaywall: bool

    /** The view as mounted on `today` (a local date: full year, 0-based month, day). */
    constructor(year: int, month: int, day: int)
      requires 0 <= month < 12 && 1 <= day <= 31
      ensures cursor == FirstOfMonth(year, month) && selectedISO == ToISO(year, month, day)
      ensures monthData == map[] && loading && error.None? && !showPaywall
    {
      cursor := FirstOfMonth(year, month);
      selectedISO := ToISO(year, month, day);
      monthData := map[];
      loading := true;
      error := None;
      showPaywall := false;
    }

    /** Every field but the loading flag and the month data. */
    function Controls(): (MonthCursor, string, Option<string>, bool)
      reads this
    {
      (cursor, selectedISO, error, showPaywall)
    }

    /**
     * One run of the fetch effect. It waits for the session and for a uid; a
     * cached month is shown at once; otherwise loading starts and the month is
     * requested.
     */
    method RunEffect(store: CalendarStore, authLoading: bool, member: Option<Member>, engine: Engine)
      returns (req: Option<MonthRequest>)
      requires ValidCursor(cursor)
      modifies this
      ensures Controls() == old(Controls())
      ensures authLoading || ViewUid(member, engine) == "" ==>
                req.None? && monthData == old(monthData) && loading == old(loading)
      ensures !authLoading && ViewUid(member, engine) != "" ==>
                var uid := ViewUid(member, engine);
                var key := SubjectKey(uid, YearMonth(cursor));
                if key in store.cache then
                  req.None? && monthData == store.cache[key] && !loading
                else
                  req == Some(MonthRequest(uid, YearMonth(cursor), key))
                  && monthData == old(monthData) && loading
    {
      if authLoading {
        return None;
      }
      var uid := ViewUid(member, engine);
      if uid == "" {
        return None;
      }
      var ym := YearMonth(cursor);
      var key := SubjectKey(uid, ym);
      if key in store.cache {
        monthData := store.cache[key];
        loading := false;
        return None;
      }
      loading := true;
      req := Some(MonthRequest(uid, ym, key));
    }

    /**
     * The end of a month request: `response` is the parsed payload, or the
     * error the request threw. An adapted month is shown and cached; a failure
     * writes nothing. Loading stops either way, even if the cursor has moved on
     * since the request started.
     */
    method Settle(store: CalendarStore, req: MonthRequest, response: Result<Js, Fault>, engine: Engine)
      modifies this, store
      ensures Controls() == old(Controls()) && !loading
      ensures var adapted := if response.Success? then AdaptedDailyList(response.value, engine) else Failure(OtherError);
              if adapted.Success? then
                monthData == adapted.value && store.cache == old(store.cache)[req.key := adapted.value]
              else
                monthData == old(monthData) && store.cache == old(store.cache)
    {
      if response.Success? {
        var adapted := AdaptDailyList(response.value, engine);
        if adapted.Success? {
          monthData := adapted.value;
          store.cache := store.cache[req.key := adapted.value];
        }
      }
      loading := false;
    }

    /**
     * The paging handlers' shared body: no member opens the login sheet, an
     * unpaid member gets the paywall, a paid member moves by `delta` months.
     */
    method Page(auth: AuthProvider, delta: int)
      modifies this, auth
      ensures selectedISO == old(selectedISO) && monthData == old(monthData)
      ensures loading == old(loading) && error == old(error)
      ensures auth.Session() == old(auth.Session())
      ensures match GateFor(auth.member, auth.IsPaid())
              case ToLogin =>
                auth.isLoginOpen && cursor == old(cursor) && showPaywall == old(showPaywall)
              case ToPaywall =>
                showPaywall && cursor == old(cursor) && auth.isLoginOpen == old(auth.isLoginOpen)
              case Proceed =>
                cursor == AddMonths(old(cursor), delta) && showPaywall == old(showPaywall)
                && auth.isLoginOpen == old(auth.isLoginOpen)
    {
      match GateFor(auth.member, auth.IsPaid()) {
        case ToLogin => auth.OpenLogin();
        case ToPaywall => showPaywall := true;
        case Proceed => cursor := AddMonths(cursor, delta);
      }
    }

    /** `onPrevMonth`. */
    method OnPrevMonth(auth: AuthProvider)
      modifies this, auth
      ensures auth.Session() == old(auth.Session())
      ensures cursor != old(cursor) ==> auth.member.Some? && auth.IsPaid()
      ensures auth.member.Some? && auth.IsPaid() ==> cursor == AddMonths(old(cursor), -1)
      ensures auth.member.None? ==> auth.isLoginOpen && cursor == old(cursor)
      ensures auth.member.Some? && !auth.IsPaid() ==> showPaywall && cursor == old(cursor)
    {
      Page(auth, -1);
    }

    /** `onNextMonth`. */
    method OnNextMonth(auth: AuthProvider)
      modifies this, auth
      ensures auth.Session() == old(auth.Session())
      ensures cursor != old(cursor) ==> auth.member.Some? && auth.IsPaid()
      ensures auth.member.Some? && auth.IsPaid() ==> cursor == AddMonths(old(cursor), 1)
      ensures auth.member.None? ==> auth.isLoginOpen && cursor == old(cursor)
      ensures auth.member.Some? && !auth.IsPaid() ==> showPaywall && cursor == old(cursor)
    {
      Page(auth, 1);
    }

    /**
     * `onSelectDate`: a blank cell (no date) does nothing, a guest gets the
     * login sheet, a member selects the date.
     */
    method OnSelectDate(auth: AuthProvider, iso: Option<string>)
      modifies this, auth
      ensures cursor == old(cursor) && monthData == old(monthData) && loading == old(loading)
      ensures error == old(error) && showPaywall == old(showPaywall)
      ensures auth.Session() == old(auth.Session())
      ensures iso.None? || iso.value == "" ==>
                selectedISO == old(selectedISO) && auth.isLoginOpen == old(auth.isLoginOpen)
      ensures iso.Some? && iso.value != "" && auth.member.None? ==>
                selectedISO == old(selectedISO) && auth.isLoginOpen
      ensures iso.Some? && iso.value != "" && auth.member.Some? ==>
                selectedISO == iso.value && auth.isLoginOpen == old(auth.isLoginOpen)
    {
      if iso.None? || iso.value == "" {
        return;
      }
      if auth.member.None? {
        auth.OpenLogin();
        return;
      }
      selectedISO := iso.value;
    }
  }
}
