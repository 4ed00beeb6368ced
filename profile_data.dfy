/**
 * The profile payload: the empty profile every failure falls back to, the
 * tolerant JSON parse of the three embedded blocks, the mapping from the
 * server's fields, and the entry point that turns every error into the empty
 * profile.
 */
module ProfileData {
  import opened Wrappers
  import opened Text
  import opened JsValues

  datatype Gender = Male | Female   // "男" | "女"

  datatype Birth = Birth(date: Js, time: Js, gender: Gender)
  datatype Schedule = Schedule(daily: bool, monthly: bool)
  datatype Notify = Notify(overall: bool, wealth: bool, career: bool, invest: bool, social: bool, lottery: bool)

  /**
   * A profile. The day-master strength, five-element count and ten-god count
   * are whatever `JSON.parse` produced, or the empty profile's blocks.
   */
  datatype Profile = Profile(
    birth: Birth, schedule: Schedule, notify: Notify,
    dayMasterStrength: Js, wuxing: Js, tenGod: Js)

  const EMPTY_STRENGTH: Js :=
    Obj([("day_master", Str("")), ("support", Num(0.0)), ("drain", Num(0.0)), ("ratio", Num(0.0)),
         ("result", Str("一般"))])

  const EMPTY_WUXING: Js :=
    Obj([("木", Num(0.0)), ("火", Num(0.0)), ("土", Num(0.0)), ("金", Num(0.0)), ("水", Num(0.0))])

  const EMPTY_TEN_GOD: Js :=
    Obj([("比肩", Num(0.0)), ("劫財", Num(0.0)), ("食神", Num(0.0)), ("傷官", Num(0.0)), ("偏財", Num(0.0)),
         ("正財", Num(0.0)), ("七殺", Num(0.0)), ("正官", Num(0.0)), ("偏印", Num(0.0)), ("正印", Num(0.0))])

  /** The five elements' names, as the count block's keys. */
  const WUXING_NAMES: seq<string> := ["木", "火", "土", "金", "水"]

  /** The ten gods' names, as the ten-god block's keys. */
  const TEN_GOD_NAMES: seq<string> := ["比肩", "劫財", "食神", "傷官", "偏財", "正財", "七殺", "正官", "偏印", "正印"]

  /** A count block: an object with distinct keys, exactly `names` in order, every count 0. */
  predicate ZeroCounts(v: Js, names: seq<string>) {
    v.Obj? && |v.entries| == |names| && DistinctKeys(v.entries)
    && (forall i :: 0 <= i < |names| ==> v.entries[i].0 == names[i])
    && (forall i :: 0 <= i < |v.entries| ==> v.entries[i].1 == Num(0.0))
  }

  /** In a count block of zeros every listed name reads 0. */
  lemma ZeroCountsRead(v: Js, names: seq<string>)
    requires ZeroCounts(v, names)
    ensures forall k :: k in names ==> Get(v, k) == Num(0.0)
  {
    FieldsOfDistinct(v.entries);
    forall k | k in names ensures Get(v, k) == Num(0.0) {
      var i :| 0 <= i < |names| && names[i] == k;
      assert v.entries[i].0 == k;
    }
  }

  /** The empty profile's day-master strength: no day master, zero support, drain and ratio, judged 一般. */
  lemma EmptyStrength()
    ensures Get(EMPTY_STRENGTH, "day_master") == Str("") && Get(EMPTY_STRENGTH, "result") == Str("一般")
    ensures Get(EMPTY_STRENGTH, "support") == Num(0.0) && Get(EMPTY_STRENGTH, "drain") == Num(0.0)
    ensures Get(EMPTY_STRENGTH, "ratio") == Num(0.0)
  {
    var st := EMPTY_STRENGTH.entries;
    FieldsOfDistinct(st);
    assert st[0].0 == "day_master" && st[1].0 == "support" && st[2].0 == "drain";
    assert st[3].0 == "ratio" && st[4].0 == "result";
  }

  /** The empty profile's five-element counts are all 0. */
  lemma EmptyWuxing()
    ensures ZeroCounts(EMPTY_WUXING, WUXING_NAMES)
    ensures forall k :: k in WUXING_NAMES ==> Get(EMPTY_WUXING, k) == Num(0.0)
  {
    ZeroCountsRead(EMPTY_WUXING, WUXING_NAMES);
  }

  /** The empty profile's ten-god counts are all 0. */
  lemma EmptyTenGod()
    ensures ZeroCounts(EMPTY_TEN_GOD, TEN_GOD_NAMES)
    ensures forall k :: k in TEN_GOD_NAMES ==> Get(EMPTY_TEN_GOD, k) == Num(0.0)
  {
    TenGodNamesDistinct();
    assert forall i :: 0 <= i < |TEN_GOD_NAMES| ==> EMPTY_TEN_GOD.entries[i].0 == TEN_GOD_NAMES[i];
    ZeroCountsRead(EMPTY_TEN_GOD, TEN_GOD_NAMES);
  }

  /** No two of the ten gods share a name: each pair differs in its first or its second character. */
  lemma TenGodNamesDistinct()
    ensures forall i, j :: 0 <= i < j < |TEN_GOD_NAMES| ==> TEN_GOD_NAMES[i] != TEN_GOD_NAMES[j]
  {
    forall i, j | 0 <= i < j < |TEN_GOD_NAMES| ensures TEN_GOD_NAMES[i] != TEN_GOD_NAMES[j] {
      var a, b := TEN_GOD_NAMES[i], TEN_GOD_NAMES[j];
      assert a[0] != b[0] || a[1] != b[1];
    }
  }

  /** `getEmptyProfile`: every flag false, every count 0, every text "", the strength judged 一般. */
  function EmptyProfile(): (p: Profile)
    ensures p.birth == Birth(Str(""), Str(""), Male)
    ensures !p.schedule.daily && !p.schedule.monthly
    ensures !p.notify.overall && !p.notify.wealth && !p.notify.career
    ensures !p.notify.invest && !p.notify.social && !p.notify.lottery
    ensures Get(p.dayMasterStrength, "day_master") == Str("") && Get(p.dayMasterStrength, "result") == Str("一般")
    ensures Get(p.dayMasterStrength, "support") == Num(0.0) && Get(p.dayMasterStrength, "drain") == Num(0.0)
    ensures Get(p.dayMasterStrength, "ratio") == Num(0.0)
    ensures ZeroCounts(p.wuxing, WUXING_NAMES) && forall k :: k in WUXING_NAMES ==> Get(p.wuxing, k) == Num(0.0)
    ensures ZeroCounts(p.tenGod, TEN_GOD_NAMES) && forall k :: k in TEN_GOD_NAMES ==> Get(p.tenGod, k) == Num(0.0)
  {
    EmptyStrength();
    EmptyWuxing();
    EmptyTenGod();
    Profile(Birth(Str(""), Str(""), Male), Schedule(false, false),
            Notify(false, false, false, false, false, false),
            EMPTY_STRENGTH, EMPTY_WUXING, EMPTY_TEN_GOD)
  }

  /**
   * `safeParse(v, fallback)`: a falsy value, or text `JSON.parse` rejects,
   * gives the fallback. A value that is not a string is parsed as its string
   * conversion, as `JSON.parse` does.
   */
  function SafeParse(v: Js, fallback: Js, engine: Engine): (r: Js)
    ensures !Truthy(v) ==> r == fallback
    ensures Truthy(v) && engine.jsonParse(ToStr(v, engine)).None? ==> r == fallback
    ensures Truthy(v) && engine.jsonParse(ToStr(v, engine)).Some? ==> r == engine.jsonParse(ToStr(v, engine)).value
  {
    if !Truthy(v) then fallback
    else engine.jsonParse(ToStr(v, engine)).GetOr(fallback)
  }

  /** `(v ?? "").split(",")`: only a string (or nothing) can be split. */
  function TokensOf(v: Js): (r: Result<seq<string>, Fault>)
    ensures r.Success? <==> Nullish(v) || v.Str?
    ensures Nullish(v) ==> r == Success([""])
    ensures v.Str? ==> r == Success(Split(v.s, ','))
  {
    match v
    case Undefined => Success(Split("", ','))
    case Null => Success(Split("", ','))
    case Str(s) => Success(Split(s, ','))
    case _ => Failure(TypeError)
  }

  /** `api.birth_time ? api.birth_time.slice(0, 5) : ""`: strings and arrays have `slice`. */
  function BirthTimeOf(v: Js): (r: Result<Js, Fault>)
    ensures !Truthy(v) ==> r == Success(Str(""))
    ensures Truthy(v) ==> (r.Success? <==> v.Str? || v.Arr?)
    ensures Truthy(v) && v.Str? ==> r == Success(Str(v.s[..if |v.s| < 5 then |v.s| else 5]))
    ensures Truthy(v) && v.Arr? ==> r == Success(Arr(v.items[..if |v.items| < 5 then |v.items| else 5]))
  {
    if !Truthy(v) then Success(Str(""))
    else match v
      case Str(s) => Success(Str(s[..if |s| < 5 then |s| else 5]))
      case Arr(items) => Success(Arr(items[..if |items| < 5 then |items| else 5]))
      case _ => Failure(TypeError)
  }

  /**
   * `mapApiToProfile`: throws when the payload is missing, when the schedule
   * or section is something other than a string, or when a truthy birth time
   * has no `slice`.
   */
  function MapApiToProfile(api: Js, engine: Engine): (r: Result<Profile, Fault>)
    ensures r.Success? <==>
              !Nullish(api) && TokensOf(Get(api, "schedule")).Success? && TokensOf(Get(api, "section")).Success?
              && BirthTimeOf(Get(api, "birth_time")).Success?
    ensures r.Success? ==>
              var p := r.value;
              var schedule := TokensOf(Get(api, "schedule")).value;
              var section := TokensOf(Get(api, "section")).value;
              p.birth == Birth(Coalesce(Get(api, "birth_date"), Str("")), BirthTimeOf(Get(api, "birth_time")).value,
                               if Get(api, "gender") == Str("女") then Female else Male)
              && (p.schedule.daily <==> "日" in schedule) && (p.schedule.monthly <==> "月" in schedule)
              && (p.notify.overall <==> "整體" in section) && (p.notify.wealth <==> "財運" in section)
              && (p.notify.career <==> "工作運" in section) && (p.notify.invest <==> "投資" in section)
              && (p.notify.social <==> "人際" in section) && (p.notify.lottery <==> "彩券" in section)
              && p.dayMasterStrength == SafeParse(Get(api, "body_strength"), EMPTY_STRENGTH, engine)
              && p.wuxing == SafeParse(Get(api, "wuxing_json"), EMPTY_WUXING, engine)
              && p.tenGod == SafeParse(Get(api, "shishen_json"), EMPTY_TEN_GOD, engine)
  {
    if Nullish(api) then Failure(TypeError)
    else
      var empty := EmptyProfile();
      var schedule :- TokensOf(Get(api, "schedule"));
      var section :- TokensOf(Get(api, "section"));
      var time :- BirthTimeOf(Get(api, "birth_time"));
      Success(Profile(
        Birth(Coalesce(Get(api, "birth_date"), Str("")), time,
              if Get(api, "gender") == Str("女") then Female else Male),
        Schedule("日" in schedule, "月" in schedule),
        Notify("整體" in section, "財運" in section, "工作運" in section,
               "投資" in section, "人際" in section, "彩券" in section),
        SafeParse(Get(api, "body_strength"), empty.dayMasterStrength, engine),
        SafeParse(Get(api, "wuxing_json"), empty.wuxing, engine),
        SafeParse(Get(api, "shishen_json"), empty.tenGod, engine)))
  }

  /**
   * `getProfile(mid)`: without a mid nothing is fetched; `fetched` is the
   * parsed response of the profile request, or the error it threw (including
   * a status that is not ok). Every error gives the empty profile.
   */
  function GetProfile(mid: Option<string>, fetched: Result<Js, Fault>, engine: Engine): (p: Profile)
    ensures mid.None? || mid.value == "" ==> p == EmptyProfile()
    ensures mid.Some? && mid.value != "" && fetched.Failure? ==> p == EmptyProfile()
    ensures mid.Some? && mid.value != "" && fetched.Success? ==>
              var mapped := MapApiToProfile(fetched.value, engine);
              p == if mapped.Success? then mapped.value else EmptyProfile()
  {
    if mid.None? || mid.value == "" then EmptyProfile()
    else if fetched.Failure? then EmptyProfile()
    else match MapApiToProfile(fetched.value, engine)
      case Success(profile) => profile
      case Failure(_) => EmptyProfile()
  }

  /** A payload with no fields at all maps to exactly the empty profile. */
  lemma EmptyPayloadIsEmptyProfile(engine: Engine)
    ensures MapApiToProfile(Obj([]), engine) == Success(EmptyProfile())
  {
    SplitNoSep("", ',');
  }

  /**
   * A schedule written as comma-joined tokens sets a flag exactly when its
   * label is one of the tokens: "日月" as one token sets neither.
   */
  lemma ScheduleTokens(api: Js, tokens: seq<string>, engine: Engine)
    requires |tokens| >= 1 && forall t :: t in tokens ==> ',' !in t
    requires MapApiToProfile(api, engine).Success? && Get(api, "schedule") == Str(Join(tokens, ','))
    ensures MapApiToProfile(api, engine).value.schedule.daily <==> "日" in tokens
    ensures MapApiToProfile(api, engine).value.schedule.monthly <==> "月" in tokens
  {
    SplitJoin(tokens, ',');
  }

  /** The same for the notification sections. */
  lemma SectionTokens(api: Js, tokens: seq<string>, engine: Engine)
    requires |tokens| >= 1 && forall t :: t in tokens ==> ',' !in t
    requires MapApiToProfile(api, engine).Success? && Get(api, "section") == Str(Join(tokens, ','))
    ensures var n := MapApiToProfile(api, engine).value.notify;
            (n.overall <==> "整體" in tokens) && (n.wealth <==> "財運" in tokens)
            && (n.career <==> "工作運" in tokens) && (n.invest <==> "投資" in tokens)
            && (n.social <==> "人際" in tokens) && (n.lottery <==> "彩券" in tokens)
  {
    SplitJoin(tokens, ',');
  }

  /** A textual birth time keeps at most five characters, and is unchanged when it has no more. */
  lemma BirthTimeText(s: string)
    ensures BirthTimeOf(Str(s)).Success?
    ensures var t := BirthTimeOf(Str(s)).value;
            t.Str? && |t.s| <= 5 && t.s <= s && (|s| <= 5 ==> t.s == s)
  {
  }

  /** Only the exact text "女" gives the female gender. */
  lemma GenderExact(api: Js, engine: Engine)
    requires MapApiToProfile(api, engine).Success?
    ensures MapApiToProfile(api, engine).value.birth.gender == Female <==> Get(api, "gender") == Str("女")
  {
  }
}
