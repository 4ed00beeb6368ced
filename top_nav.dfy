/** The navigation bar: which tabs a visitor is offered, in which order. */
module TopNav {
  import opened AppPage

  /** The development switch that would show every tab without a session; it is off. */
  const DEV_FORCE_LOGIN: bool := false

  /** `loginState`. */
  function LoginState(isLogin: bool): (s: bool)
    ensures s == isLogin
  {
    if DEV_FORCE_LOGIN then true else isLogin
  }

  /** The signed-in tab list: key and label. */
  const MEMBER_TABS: seq<(string, string)> :=
    [("wuxing", "今日五行"), ("fortune", "每日運勢"), ("calendar", "日曆"), ("month", "月曆"), ("profile", "個人資料")]

  /** `tabs`. */
  function Tabs(isLogin: bool): (tabs: seq<(string, string)>)
    ensures isLogin ==> tabs == MEMBER_TABS
    ensures !isLogin ==> tabs == [("wuxing", "今日五行")]
  {
    if LoginState(isLogin) then MEMBER_TABS else [("wuxing", "今日五行")]
  }

  /** A guest's tabs are the first of a member's, and no key appears twice. */
  lemma TabsShape(isLogin: bool)
    ensures Tabs(false) <= Tabs(true)
    ensures |Tabs(true)| == 5 && |Tabs(false)| == 1
    ensures forall i, j :: 0 <= i < j < |Tabs(isLogin)| ==> Tabs(isLogin)[i].0 != Tabs(isLogin)[j].0
  {
  }

  /** Every tab the bar offers has a view on the page once the month tab is wired. */
  lemma OfferedTabsHaveViews(isLogin: bool)
    ensures forall i :: 0 <= i < |Tabs(isLogin)| ==> PanelFor(Tabs(isLogin)[i].0).Some?
  {
  }

  /** As written, the page shows nothing for one of the tabs a member is offered. */
  lemma MonthTabOfferedButBlank()
    ensures exists i :: 0 <= i < |Tabs(true)| && ViewFor(Tabs(true)[i].0).None?
  {
    assert Tabs(true)[3].0 == "month";
    MonthTabRendersNothing();
  }
}
