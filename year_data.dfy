/**
 * The year-fortune payload adapter: the month adapter's scores and AI texts,
 * but lucky items that default to an em dash, and no ten-god block.
 */
module YearData {
  import opened Wrappers
  import opened JsValues
  import opened MonthData

  datatype YearFortune = YearFortune(year: Js, yearType: Js, scores: FiveScores, ai: AiTexts, lucky: Lucky)

  /** The lucky items' placeholder when the payload has none. */
  const NO_LUCKY: string := "—"

  /** `adaptYearFortune`: throws when the payload or its scores are missing. */
  function AdaptYearFortune(api: Js): (r: Result<YearFortune, Fault>)
    ensures r.Success? <==> !Nullish(api) && !Nullish(Get(api, "scores"))
    ensures r.Success? ==> r.value.year == Get(api, "year") && r.value.yearType == Get(api, "year_type")
    ensures r.Success? ==> Success(r.value.scores) == ScoresOf(Get(api, "scores"))
    ensures r.Success? ==> r.value.ai == AiOf(api) && r.value.lucky == LuckyOf(api, NO_LUCKY)
  {
    if Nullish(api) then Failure(TypeError)
    else
      var scores :- ScoresOf(Get(api, "scores"));
      Success(YearFortune(Get(api, "year"), Get(api, "year_type"), scores, AiOf(api), LuckyOf(api, NO_LUCKY)))
  }

  /** The server's year payload for a record. */
  function EncodeYear(y: YearFortune): Js {
    Obj([("year", y.year), ("year_type", y.yearType), ("scores", EncodeScores(y.scores)),
         ("ai", EncodeAi(y.ai)), ("lucky", EncodeLucky(y.lucky))])
  }

  /** Exactly the records the adapter produces. */
  predicate CompleteYear(y: YearFortune) {
    CompleteAi(y.ai) && CompleteLucky(y.lucky)
  }

  lemma AdaptYearComplete(api: Js)
    requires AdaptYearFortune(api).Success?
    ensures CompleteYear(AdaptYearFortune(api).value)
  {
  }

  /** Every complete record comes back unchanged from its own payload. */
  lemma YearRoundTrip(y: YearFortune)
    requires CompleteYear(y)
    ensures AdaptYearFortune(EncodeYear(y)) == Success(y)
  {
    var api := EncodeYear(y);
    var es := api.entries;
    FieldsOfDistinct(es);
    assert es[0].0 == "year" && es[1].0 == "year_type" && es[2].0 == "scores";
    assert es[3].0 == "ai" && es[4].0 == "lucky";
    ScoresRoundTrip(y.scores);
    AiRoundTrip(y.ai, api);
    LuckyRoundTrip(y.lucky, api, NO_LUCKY);
  }

  /** A partly filled lucky block: the given item passes through and the missing ones show the dash. */
  lemma PartialLuckyDash(api: Js)
    requires AdaptYearFortune(api).Success? && Get(api, "lucky") == Obj([("color", Str("紅"))])
    ensures AdaptYearFortune(api).value.lucky == Lucky(Str("紅"), Str("—"), Str("—"))
  {
    var es := Get(api, "lucky").entries;
    FieldAt(es, 0);
    FieldAbsent(es, "stone");
    FieldAbsent(es, "direction");
  }

  /** Without lucky items the two adapters differ only in the placeholder: "" for a month, "—" for a year. */
  lemma LuckyPlaceholders(api: Js)
    requires AdaptMonthFortune(api).Success? && Nullish(Get(api, "lucky"))
    ensures AdaptYearFortune(api).Success?
    ensures AdaptMonthFortune(api).value.lucky == Lucky(Str(""), Str(""), Str(""))
    ensures AdaptYearFortune(api).value.lucky == Lucky(Str("—"), Str("—"), Str("—"))
    ensures AdaptYearFortune(api).value.scores == AdaptMonthFortune(api).value.scores
    ensures AdaptYearFortune(api).value.ai == AdaptMonthFortune(api).value.ai
  {
  }
}
