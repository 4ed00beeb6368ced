/**
 * The month-fortune payload adapter, and the record shapes it shares with the
 * year adapter: five scores copied as they are, five AI texts and three lucky
 * items with defaults, and the optional month ten-god (十神) block.
 */
module MonthData {
  import opened Wrappers
  import opened JsValues

  datatype FiveScores = FiveScores(overall: Js, wealth: Js, career: Js, invest: Js, relation: Js)
  datatype AiTexts = AiTexts(overall: Js, wealth: Js, career: Js, invest: Js, relation: Js)
  datatype Lucky = Lucky(color: Js, stone: Js, direction: Js)
  datatype KeyDesc = KeyDesc(key: Js, desc: Js)
  datatype Shishen = Shishen(main: KeyDesc, sub: Option<KeyDesc>)

  datatype MonthFortune = MonthFortune(
    month: Js, monthType: Js, scores: FiveScores, ai: AiTexts, lucky: Lucky, shishen: Option<Shishen>)

  /** `api.scores.overall`, …: throws when the scores object is missing. */
  function ScoresOf(scores: Js): (r: Result<FiveScores, Fault>)
    ensures r.Failure? <==> Nullish(scores)
    ensures r.Success? ==>
              r.value == FiveScores(Get(scores, "overall"), Get(scores, "wealth"), Get(scores, "career"),
                                    Get(scores, "invest"), Get(scores, "relation"))
  {
    if Nullish(scores) then Failure(TypeError)
    else Success(FiveScores(Get(scores, "overall"), Get(scores, "wealth"), Get(scores, "career"),
                            Get(scores, "invest"), Get(scores, "relation")))
  }

  /** `out` is `v ?? d`: the text `d` exactly when `v` is null or undefined, `v` itself otherwise. */
  predicate OrDefault(out: Js, v: Js, d: string) {
    (Nullish(v) ==> out == Str(d)) && (!Nullish(v) ==> out == v)
  }

  /** `api.ai?.k ?? ""` for each of the five texts. */
  function AiOf(api: Js): (r: AiTexts)
    ensures Nullish(Get(api, "ai")) ==> r == AiTexts(Str(""), Str(""), Str(""), Str(""), Str(""))
    ensures var ai := Get(api, "ai");
            OrDefault(r.overall, Get(ai, "overall"), "") && OrDefault(r.wealth, Get(ai, "wealth"), "")
            && OrDefault(r.career, Get(ai, "career"), "") && OrDefault(r.invest, Get(ai, "invest"), "")
            && OrDefault(r.relation, Get(ai, "relation"), "")
    ensures !Nullish(r.overall) && !Nullish(r.wealth) && !Nullish(r.career)
    ensures !Nullish(r.invest) && !Nullish(r.relation)
  {
    var ai := Get(api, "ai");
    AiTexts(Coalesce(Get(ai, "overall"), Str("")), Coalesce(Get(ai, "wealth"), Str("")),
            Coalesce(Get(ai, "career"), Str("")), Coalesce(Get(ai, "invest"), Str("")),
            Coalesce(Get(ai, "relation"), Str("")))
  }

  /** `api.lucky?.k ?? dflt` for color, stone and direction. */
  function LuckyOf(api: Js, dflt: string): (r: Lucky)
    ensures Nullish(Get(api, "lucky")) ==> r == Lucky(Str(dflt), Str(dflt), Str(dflt))
    ensures var lucky := Get(api, "lucky");
            OrDefault(r.color, Get(lucky, "color"), dflt) && OrDefault(r.stone, Get(lucky, "stone"), dflt)
            && OrDefault(r.direction, Get(lucky, "direction"), dflt)
    ensures !Nullish(r.color) && !Nullish(r.stone) && !Nullish(r.direction)
  {
    var lucky := Get(api, "lucky");
    Lucky(Coalesce(Get(lucky, "color"), Str(dflt)), Coalesce(Get(lucky, "stone"), Str(dflt)),
          Coalesce(Get(lucky, "direction"), Str(dflt)))
  }

  /** `{ key: v.key ?? "", desc: v.desc ?? "" }`, also under `v?.`. */
  function KeyDescOf(v: Js): (r: KeyDesc)
    ensures Nullish(v) ==> r == KeyDesc(Str(""), Str(""))
    ensures OrDefault(r.key, Get(v, "key"), "") && OrDefault(r.desc, Get(v, "desc"), "")
    ensures !Nullish(r.key) && !Nullish(r.desc)
  {
    KeyDesc(Coalesce(Get(v, "key"), Str("")), Coalesce(Get(v, "desc"), Str("")))
  }

  /** `month_shishen`: absent unless the payload's block is truthy; its `sub` likewise. */
  function ShishenOf(v: Js): (r: Option<Shishen>)
    ensures r.None? <==> !Truthy(v)
    ensures r.Some? ==> (r.value.sub.None? <==> !Truthy(Get(v, "sub")))
    ensures r.Some? ==> r.value.main == KeyDescOf(Get(v, "main"))
    ensures r.Some? && r.value.sub.Some? ==> r.value.sub.value == KeyDescOf(Get(v, "sub"))
  {
    if Truthy(v) then
      Some(Shishen(KeyDescOf(Get(v, "main")),
                   if Truthy(Get(v, "sub")) then Some(KeyDescOf(Get(v, "sub"))) else None))
    else None
  }

  /** `adaptMonthFortune`: throws when the payload or its scores are missing. */
  function AdaptMonthFortune(api: Js): (r: Result<MonthFortune, Fault>)
    ensures r.Success? <==> !Nullish(api) && !Nullish(Get(api, "scores"))
    ensures r.Success? ==> r.value.month == Get(api, "month") && r.value.monthType == Get(api, "month_type")
    ensures r.Success? ==> Success(r.value.scores) == ScoresOf(Get(api, "scores"))
    ensures r.Success? ==> r.value.ai == AiOf(api) && r.value.lucky == LuckyOf(api, "")
    ensures r.Success? ==> r.value.shishen == ShishenOf(Get(api, "month_shishen"))
  {
    if Nullish(api) then Failure(TypeError)
    else
      var scores :- ScoresOf(Get(api, "scores"));
      Success(MonthFortune(Get(api, "month"), Get(api, "month_type"), scores, AiOf(api), LuckyOf(api, ""),
                           ShishenOf(Get(api, "month_shishen"))))
  }

  /* ---------- the payload a record comes from ---------- */

  function EncodeScores(s: FiveScores): Js {
    Obj([("overall", s.overall), ("wealth", s.wealth), ("career", s.career),
         ("invest", s.invest), ("relation", s.relation)])
  }

  function EncodeAi(a: AiTexts): Js {
    Obj([("overall", a.overall), ("wealth", a.wealth), ("career", a.career),
         ("invest", a.invest), ("relation", a.relation)])
  }

  function EncodeLucky(l: Lucky): Js {
    Obj([("color", l.color), ("stone", l.stone), ("direction", l.direction)])
  }

  function EncodeKeyDesc(k: KeyDesc): Js {
    Obj([("key", k.key), ("desc", k.desc)])
  }

  function EncodeShishen(s: Option<Shishen>): Js {
    match s
    case None => Null
    case Some(sh) =>
      Obj([("main", EncodeKeyDesc(sh.main)),
           ("sub", if sh.sub.None? then Null else EncodeKeyDesc(sh.sub.value))])
  }

  /** The server's month payload for a record. */
  function EncodeMonth(m: MonthFortune): Js {
    Obj([("month", m.month), ("month_type", m.monthType), ("scores", EncodeScores(m.scores)),
         ("ai", EncodeAi(m.ai)), ("lucky", EncodeLucky(m.lucky)), ("month_shishen", EncodeShishen(m.shishen))])
  }

  /** The texts the adapter can give back: none of them missing. */
  predicate CompleteAi(a: AiTexts) {
    !Nullish(a.overall) && !Nullish(a.wealth) && !Nullish(a.career) && !Nullish(a.invest) && !Nullish(a.relation)
  }

  predicate CompleteLucky(l: Lucky) {
    !Nullish(l.color) && !Nullish(l.stone) && !Nullish(l.direction)
  }

  predicate CompleteKeyDesc(k: KeyDesc) {
    !Nullish(k.key) && !Nullish(k.desc)
  }

  predicate CompleteShishen(s: Option<Shishen>) {
    s.Some? ==> CompleteKeyDesc(s.value.main) && (s.value.sub.Some? ==> CompleteKeyDesc(s.value.sub.value))
  }

  /** Exactly the records the adapter produces. */
  predicate CompleteMonth(m: MonthFortune) {
    CompleteAi(m.ai) && CompleteLucky(m.lucky) && CompleteShishen(m.shishen)
  }

  /** Every adapted record is complete. */
  lemma AdaptMonthComplete(api: Js)
    requires AdaptMonthFortune(api).Success?
    ensures CompleteMonth(AdaptMonthFortune(api).value)
  {
  }

  lemma ScoresRoundTrip(s: FiveScores)
    ensures ScoresOf(EncodeScores(s)) == Success(s)
  {
    var es := EncodeScores(s).entries;
    FieldsOfDistinct(es);
    assert es[0].0 == "overall" && es[1].0 == "wealth" && es[2].0 == "career";
    assert es[3].0 == "invest" && es[4].0 == "relation";
  }

  lemma AiRoundTrip(a: AiTexts, api: Js)
    requires CompleteAi(a) && Get(api, "ai") == EncodeAi(a)
    ensures AiOf(api) == a
  {
    var es := EncodeAi(a).entries;
    FieldsOfDistinct(es);
    assert es[0].0 == "overall" && es[1].0 == "wealth" && es[2].0 == "career";
    assert es[3].0 == "invest" && es[4].0 == "relation";
  }

  lemma LuckyRoundTrip(l: Lucky, api: Js, dflt: string)
    requires CompleteLucky(l) && Get(api, "lucky") == EncodeLucky(l)
    ensures LuckyOf(api, dflt) == l
  {
    var es := EncodeLucky(l).entries;
    FieldsOfDistinct(es);
    assert es[0].0 == "color" && es[1].0 == "stone" && es[2].0 == "direction";
  }

  lemma KeyDescRoundTrip(k: KeyDesc)
    requires CompleteKeyDesc(k)
    ensures KeyDescOf(EncodeKeyDesc(k)) == k
  {
    var es := EncodeKeyDesc(k).entries;
    FieldsOfDistinct(es);
    assert es[0].0 == "key" && es[1].0 == "desc";
  }

  lemma ShishenRoundTrip(s: Option<Shishen>)
    requires CompleteShishen(s)
    ensures ShishenOf(EncodeShishen(s)) == s
  {
    if s.Some? {
      var es := EncodeShishen(s).entries;
      FieldsOfDistinct(es);
      assert es[0].0 == "main" && es[1].0 == "sub";
      KeyDescRoundTrip(s.value.main);
      if s.value.sub.Some? {
        KeyDescRoundTrip(s.value.sub.value);
      }
    }
  }

  /** Every complete record comes back unchanged from its own payload. */
  lemma MonthRoundTrip(m: MonthFortune)
    requires CompleteMonth(m)
    ensures AdaptMonthFortune(EncodeMonth(m)) == Success(m)
  {
    var api := EncodeMonth(m);
    var es := api.entries;
    FieldsOfDistinct(es);
    assert es[0].0 == "month" && es[1].0 == "month_type" && es[2].0 == "scores";
    assert es[3].0 == "ai" && es[4].0 == "lucky" && es[5].0 == "month_shishen";
    ScoresRoundTrip(m.scores);
    AiRoundTrip(m.ai, api);
    LuckyRoundTrip(m.lucky, api, "");
    ShishenRoundTrip(m.shishen);
  }

  /** A partly filled block: the given text passes through and every missing one becomes "". */
  lemma PartialAiDefaults(api: Js)
    requires Get(api, "ai") == Obj([("overall", Str("x"))])
    ensures AiOf(api) == AiTexts(Str("x"), Str(""), Str(""), Str(""), Str(""))
  {
    var es := Get(api, "ai").entries;
    FieldAt(es, 0);
    FieldAbsent(es, "wealth");
    FieldAbsent(es, "career");
    FieldAbsent(es, "invest");
    FieldAbsent(es, "relation");
  }

  /** A payload with nothing but an empty scores object: every default shows. */
  lemma MonthDefaults()
    ensures AdaptMonthFortune(Obj([("scores", Obj([]))]))
            == Success(MonthFortune(Undefined, Undefined,
                                    FiveScores(Undefined, Undefined, Undefined, Undefined, Undefined),
                                    AiTexts(Str(""), Str(""), Str(""), Str(""), Str("")),
                                    Lucky(Str(""), Str(""), Str("")), None))
  {
  }
}
