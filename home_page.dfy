/**
 * The home page's view: the trend arrow, the status label and tone of each
 * element row, the bar widths, the order in which the page decides what to
 * show, the trend panel's dependence on the member, and the toggle and
 * selected-element state.
 */
module HomePageView {
  import opened Wrappers
  import opened JsValues
  import opened Auth
  import opened HomeData

  /** `trendArrow`. */
  function TrendArrow(dir: string): (a: string)
    ensures dir == "up" <==> a == "↑"
    ensures dir == "down" <==> a == "↓"
    ensures a == "→" <==> dir != "up" && dir != "down"
  {
    if dir == "up" then "↑" else if dir == "down" then "↓" else "→"
  }

  datatype Tone = Good | Neutral | Warn | Danger
  datatype Status = Status(text: string, tone: Tone)

  /** `statusLabel`: 4 and up is strong, 3 balanced, 2 low, anything else weak. */
  function StatusLabel(v: int): (s: Status)
    ensures s.tone == Good <==> v >= 4
    ensures s.tone == Neutral <==> v == 3
    ensures s.tone == Warn <==> v == 2
    ensures s.tone == Danger <==> v <= 1
    ensures s.text == ["弱", "偏低", "平衡", "偏旺"][ToneRank(s.tone)]
  {
    if v >= 4 then Status("偏旺", Good)
    else if v == 3 then Status("平衡", Neutral)
    else if v == 2 then Status("偏低", Warn)
    else Status("弱", Danger)
  }

  /** The tones from weakest to strongest. */
  function ToneRank(t: Tone): (r: nat)
    ensures r < 4
  {
    match t
    case Danger => 0
    case Warn => 1
    case Neutral => 2
    case Good => 3
  }

  /** A larger element value never gets a weaker label. */
  lemma StatusMonotone(a: int, b: int)
    requires a <= b
    ensures ToneRank(StatusLabel(a).tone) <= ToneRank(StatusLabel(b).tone)
  {
  }

  /** `toneClass`. */
  function ToneClass(t: Tone): (c: string)
    ensures c == ["text-red-300", "text-yellow-300", "text-white/70", "text-emerald-300"][ToneRank(t)]
  {
    match t
    case Good => "text-emerald-300"
    case Neutral => "text-white/70"
    case Warn => "text-yellow-300"
    case Danger => "text-red-300"
  }

  /** Distinct tones are told apart by their colour. */
  lemma ToneClassInjective(a: Tone, b: Tone)
    requires ToneClass(a) == ToneClass(b)
    ensures a == b
  {
    assert ToneRank(a) == ToneRank(b);
  }

  /** A row's bar width, in percent. */
  function BarWidth(v: int): (w: int)
    ensures 0 <= v <= 5 ==> 0 <= w <= 100
    ensures w == 100 <==> v == 5
  {
    v * 20
  }

  /** A rounded non-negative value's bar fits the row. */
  lemma RoundedBarFits(x: real)
    requires x >= 0.0
    ensures 0 <= BarWidth(Normalize(x)) <= 100
    ensures x >= 4.5 ==> BarWidth(Normalize(x)) == 100
  {
  }

  /* ---------- what the page shows ---------- */

  /** The series bar under the element selector; `series` is None when the selection names no series. */
  datatype Bar = NoBar | Bar(element: string, series: Option<seq<int>>)

  /**
   * The part of the page below today's card. The login hint carries the
   * session's `lineUid ?? ""`, a JavaScript value the register link prints.
   */
  datatype TrendPanel =
    | LoginHint(lineUid: Js)
    | ToggleOnly(caption: string)
    | ToggleAndChart(caption: string, chart: Option<Bar>)

  datatype HomeScreen = Verifying | Computing | NotReady | Content(today: Today, panel: TrendPanel)

  /** The toggle's caption. */
  function ToggleLabel(expanded: bool): (s: string)
    ensures expanded ==> s == "收合 7 日趨勢"
    ensures !expanded ==> s == "查看 7 日趨勢 →"
  {
    if expanded then "收合 7 日趨勢" else "查看 7 日趨勢 →"
  }

  /** The series `trend7ByWuxing[active]`, undefined when `active` names no element. */
  function SeriesFor(today: Today, active: string): (r: Option<seq<int>>)
    ensures ElementOf(active).None? ==> r.None?
    ensures ElementOf(active).Some? && ElementOf(active).value in today.trend7ByWuxing ==>
              r == Some(today.trend7ByWuxing[ElementOf(active).value])
  {
    match ElementOf(active)
    case None => None
    case Some(e) => if e in today.trend7ByWuxing then Some(today.trend7ByWuxing[e]) else None
  }

  /**
   * The page: the session check first, then the data, then a missing record,
   * then the content. Without a member the login hint replaces the trend; a
   * member without a chart gets the toggle alone; any other member gets the
   * toggle and, when expanded, the chart for the selected element.
   */
  function Render(authLoading: bool, isLoading: bool, data: Option<Today>, member: Option<Member>,
                  lineUid: Js, showTrendDetail: bool, active: string): (s: HomeScreen)
    ensures authLoading <==> s == Verifying
    ensures !authLoading && isLoading <==> s == Computing
    ensures !authLoading && !isLoading && data.None? <==> s == NotReady
    ensures s.Content? ==> s.today == data.value
    ensures s.Content? && member.None? ==> s.panel == LoginHint(Coalesce(lineUid, Str("")))
    ensures s.Content? && member.Some? && member.value.userFortuneId == Num(-1.0) ==>
              s.panel == ToggleOnly(ToggleLabel(showTrendDetail))
    ensures s.Content? && member.Some? && member.value.userFortuneId != Num(-1.0) ==>
              s.panel.ToggleAndChart? && s.panel.caption == ToggleLabel(showTrendDetail)
              && (s.panel.chart.Some? <==> showTrendDetail)
              && (showTrendDetail ==>
                    s.panel.chart.value == (if active == "" then NoBar else Bar(active, SeriesFor(data.value, active))))
  {
    if authLoading then Verifying
    else if isLoading then Computing
    else if data.None? then NotReady
    else
      var today := data.value;
      var panel :=
        if member.None? then LoginHint(Coalesce(lineUid, Str("")))
        else if member.value.userFortuneId == Num(-1.0) then ToggleOnly(ToggleLabel(showTrendDetail))
        else ToggleAndChart(ToggleLabel(showTrendDetail),
                            if showTrendDetail then Some(if active == "" then NoBar else Bar(active, SeriesFor(today, active)))
                            else None);
      Content(today, panel)
  }

  /** Only a member with a chart who has expanded the trend ever sees a series. */
  lemma ChartOnlyForCharted(authLoading: bool, isLoading: bool, data: Option<Today>, member: Option<Member>,
                            lineUid: Js, showTrendDetail: bool, active: string)
    requires Render(authLoading, isLoading, data, member, lineUid, showTrendDetail, active).Content?
    ensures var p := Render(authLoading, isLoading, data, member, lineUid, showTrendDetail, active).panel;
            p.ToggleAndChart? && p.chart.Some? <==>
              member.Some? && member.value.userFortuneId != Num(-1.0) && showTrendDetail
  {
  }

  /* ---------- the page's own state ---------- */

  class HomeView {
    var showTrendDetail: bool
    var activeWuxing: string

    /** The trend starts collapsed, on 木. */
    constructor()
      ensures !showTrendDetail && activeWuxing == "木"
    {
      showTrendDetail := false;
      activeWuxing := "木";
    }

    /** The effect on new data: a present dominant element becomes the selection. */
    method OnData(data: Option<Today>)
      modifies this
      ensures showTrendDetail == old(showTrendDetail)
      ensures data.Some? && |data.value.dominant| > 0 ==> activeWuxing == data.value.dominant
      ensures data.None? || |data.value.dominant| == 0 ==> activeWuxing == old(activeWuxing)
    {
      if data.Some? && |data.value.dominant| > 0 {
        activeWuxing := data.value.dominant;
      }
    }

    /** The toggle button. */
    method ToggleTrend()
      modifies this
      ensures showTrendDetail == !old(showTrendDetail) && activeWuxing == old(activeWuxing)
    {
      showTrendDetail := !showTrendDetail;
    }

    /** The element selector. */
    method SelectWuxing(k: string)
      modifies this
      ensures activeWuxing == k && showTrendDetail == old(showTrendDetail)
    {
      activeWuxing := k;
    }
  }
}
