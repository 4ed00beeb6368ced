/**
 * The top-level page: the loading and no-data screens, the sphere's input
 * (the dominant element in English and the five counts), and the one view
 * the selected tab renders.
 */
module AppPage {
  import opened Wrappers
  import opened BaZi
  import opened HomeData

  /** The sphere's element names. */
  function EnglishName(e: Element): string {
    match e
    case Wood => "wood"
    case Fire => "fire"
    case Earth => "earth"
    case Metal => "metal"
    case Water => "water"
  }

  /** `mapDominantToElement`: the table lookup, undefined for any other text. */
  function MapDominantToElement(d: string): (r: Option<string>)
    ensures r.Some? <==> ElementOf(d).Some?
    ensures r.Some? ==> r.value == EnglishName(ElementOf(d).value)
  {
    match ElementOf(d)
    case Some(e) => Some(EnglishName(e))
    case None => None
  }

  /** Each of 木, 火, 土, 金, 水 maps to its own English name. */
  lemma DominantNames()
    ensures MapDominantToElement("木") == Some("wood") && MapDominantToElement("火") == Some("fire")
    ensures MapDominantToElement("土") == Some("earth") && MapDominantToElement("金") == Some("metal")
    ensures MapDominantToElement("水") == Some("water")
  {
  }

  /** Distinct elements get distinct names. */
  lemma MapDominantInjective(a: string, b: string)
    requires MapDominantToElement(a).Some? && MapDominantToElement(a) == MapDominantToElement(b)
    ensures a == b
  {
    var ea := ElementOf(a).value;
    var eb := ElementOf(b).value;
    assert EnglishName(ea) == EnglishName(eb);
    assert ea == eb;
  }

  /** `list.find(w => w.key === key)?.value`. */
  function FindValue(list: seq<WuxingItem>, key: string): (r: Option<int>)
    ensures r.None? <==> forall i :: 0 <= i < |list| ==> list[i].key != key
    decreases |list|
  {
    if |list| == 0 then None
    else if list[0].key == key then Some(list[0].value)
    else
      var r := FindValue(list[1..], key);
      assert forall i :: 1 <= i < |list| ==> list[i] == list[1..][i - 1];
      r
  }

  /** `find` answers with the first item that has the key. */
  lemma {:induction false} FindValueFirst(list: seq<WuxingItem>, key: string, i: nat)
    requires i < |list| && list[i].key == key && forall j :: 0 <= j < i ==> list[j].key != key
    ensures FindValue(list, key) == Some(list[i].value)
    decreases i
  {
    if i > 0 {
      assert forall j :: 0 <= j < i - 1 ==> list[1..][j] == list[j + 1];
      FindValueFirst(list[1..], key, i - 1);
    }
  }

  datatype WuxingCount = WuxingCount(wood: int, fire: int, earth: int, metal: int, water: int)

  /** `toWuxingCount`: each count from the first item with its key, 0 when none has it. */
  function ToWuxingCount(list: seq<WuxingItem>): (c: WuxingCount)
    ensures c.wood == FindValue(list, "木").GetOr(0) && c.fire == FindValue(list, "火").GetOr(0)
    ensures c.earth == FindValue(list, "土").GetOr(0) && c.metal == FindValue(list, "金").GetOr(0)
    ensures c.water == FindValue(list, "水").GetOr(0)
  {
    WuxingCount(FindValue(list, "木").GetOr(0), FindValue(list, "火").GetOr(0), FindValue(list, "土").GetOr(0),
                FindValue(list, "金").GetOr(0), FindValue(list, "水").GetOr(0))
  }

  /** The count for an element is its first item's value, and 0 when no item has its key. */
  lemma CountOfFirstItem(list: seq<WuxingItem>, i: nat)
    requires i < |list| && list[i].key == "木" && forall j :: 0 <= j < i ==> list[j].key != "木"
    ensures ToWuxingCount(list).wood == list[i].value
  {
    FindValueFirst(list, "木", i);
  }

  /** An element missing from the list counts 0. */
  lemma MissingCountsZero(list: seq<WuxingItem>)
    requires forall i :: 0 <= i < |list| ==> list[i].key != "水"
    ensures ToWuxingCount(list).water == 0
  {
  }

  /** The counts of a record built from today's element values are those values, rounded. */
  lemma CountsOfTodayItems(w: seq<(string, real)>, i: nat)
    requires i < |w| && w[i].0 == "金" && forall j :: 0 <= j < |w| && j != i ==> w[j].0 != "金"
    ensures ToWuxingCount(WuxingItems(w)).metal == Normalize(w[i].1)
  {
    FindValueFirst(WuxingItems(w), "金", i);
  }

  /* ---------- which view ---------- */

  datatype View = DailyWuxing | DailyFortune | Calendar | Profile

  /** The content panel: one view per tab the page knows, nothing for any other tab. */
  function ViewFor(tab: string): (v: Option<View>)
    ensures tab == "wuxing" <==> v == Some(DailyWuxing)
    ensures tab == "fortune" <==> v == Some(DailyFortune)
    ensures tab == "calendar" <==> v == Some(Calendar)
    ensures tab == "profile" <==> v == Some(Profile)
  {
    if tab == "wuxing" then Some(DailyWuxing)
    else if tab == "fortune" then Some(DailyFortune)
    else if tab == "calendar" then Some(Calendar)
    else if tab == "profile" then Some(Profile)
    else None
  }

  /** The tab the navigation labels 月曆 renders no view at all. */
  lemma MonthTabRendersNothing()
    ensures ViewFor("month") == None
  {
  }

  /** The month view is one more view the panel can show. */
  datatype PanelView = Known(view: View) | Month

  /** The content panel with the month tab wired to the month view. */
  function PanelFor(tab: string): (v: Option<PanelView>)
    ensures tab == "month" <==> v == Some(Month)
    ensures tab != "month" ==> (v.Some? <==> ViewFor(tab).Some?)
    ensures tab != "month" && v.Some? ==> v.value == Known(ViewFor(tab).value)
  {
    if tab == "month" then Some(Month)
    else match ViewFor(tab)
      case Some(view) => Some(Known(view))
      case None => None
  }

  /** The sphere's input for today. */
  datatype TodayFortune = TodayFortune(date: string, ganzhi: string, element: Option<string>, wuxingCount: WuxingCount)

  datatype Screen = Loading | NoData | Main(sphere: TodayFortune, panel: Option<PanelView>)

  /** The sphere's input built from today's record. */
  function SphereOf(t: Today): (f: TodayFortune)
    ensures f.date == t.date && f.ganzhi == t.ganzhi
    ensures f.element == MapDominantToElement(t.dominant) && f.wuxingCount == ToWuxingCount(t.wuxing)
  {
    TodayFortune(t.date, t.ganzhi, MapDominantToElement(t.dominant), ToWuxingCount(t.wuxing))
  }

  /**
   * The page as written: loading first, then a missing record, then the sphere
   * and the view the tab selects, which is no view for the month tab.
   */
  function Page(isLoading: bool, data: Option<Today>, tab: string): (s: Screen)
    ensures isLoading <==> s == Loading
    ensures !isLoading && data.None? <==> s == NoData
    ensures s.Main? ==> s.sphere == SphereOf(data.value)
                        && (s.panel.Some? <==> ViewFor(tab).Some?)
                        && (s.panel.Some? ==> s.panel.value == Known(ViewFor(tab).value))
  {
    if isLoading then Loading
    else if data.None? then NoData
    else
      var panel := match ViewFor(tab) case Some(view) => Some(Known(view)) case None => None;
      Main(SphereOf(data.value), panel)
  }

  /** The page with the month tab wired to the month view. */
  function WiredPage(isLoading: bool, data: Option<Today>, tab: string): (s: Screen)
    ensures isLoading <==> s == Loading
    ensures !isLoading && data.None? <==> s == NoData
    ensures s.Main? ==> s.sphere == SphereOf(data.value) && s.panel == PanelFor(tab)
  {
    if isLoading then Loading
    else if data.None? then NoData
    else Main(SphereOf(data.value), PanelFor(tab))
  }

  /** The two pages differ only on the month tab, where the page as written shows an empty panel. */
  lemma WiredPageDiffersOnlyOnMonth(isLoading: bool, data: Option<Today>, tab: string)
    ensures tab != "month" ==> WiredPage(isLoading, data, tab) == Page(isLoading, data, tab)
    ensures !isLoading && data.Some? && tab == "month" ==>
              Page(isLoading, data, tab).panel == None
              && WiredPage(isLoading, data, tab).panel == Some(Month)
  {
  }
}
