/**
 * The session provider: sign-in through the LINE SDK and the member API, the
 * member record and plan it yields, logout, and the login-sheet flag. The SDK
 * calls, the token decoding and the HTTP request are inputs to `InitAuth`;
 * localStorage's "member" entry is the field `stored`.
 */
module Auth {
  import opened Wrappers
  import opened Text
  import opened JsValues

  /** The member record: the eight fields copied from the login response. */
  datatype Member = Member(
    memberId: Js, email: Js, name: Js, appId: Js,
    subscription: Js, avatar: Js, expireDate: Js, userFortuneId: Js)

  /** What the LINE SDK reports once `initLiff()` has settled. */
  datatype LiffState =
    | InitFailed                        // `liff.init` rejected
    | NotLoggedIn                       // `isLoggedIn()` is false
    | LoggedIn(idToken: Option<string>) // `getIdToken()`, which may be null

  /** How a run of `initAuth` ended. */
  datatype AuthExit =
    | RedirectedToLogin  // `liff.login()` and an early return
    | Threw              // an exception reached the catch block
    | Rejected           // the login API answered with a status other than "success"
    | SignedIn

  /** `memberData`: the eight response fields, absent ones as undefined. */
  function MemberOf(data: Js): (m: Member)
    ensures m.memberId == Get(data, "member_id") && m.email == Get(data, "email")
    ensures m.name == Get(data, "name") && m.appId == Get(data, "app_id")
    ensures m.subscription == Get(data, "subscription") && m.avatar == Get(data, "avatar")
    ensures m.expireDate == Get(data, "expire_date")
    ensures m.userFortuneId == Get(data, "user_fortune_id")
  {
    Member(Get(data, "member_id"), Get(data, "email"), Get(data, "name"), Get(data, "app_id"),
           Get(data, "subscription"), Get(data, "avatar"), Get(data, "expire_date"),
           Get(data, "user_fortune_id"))
  }

  /**
   * `idToken.split(".")[1]`; with fewer than two segments that is undefined,
   * which `atob` receives as the text "undefined".
   */
  function TokenSegment(token: string): (seg: string)
    ensures '.' !in seg
  {
    var parts := Split(token, '.');
    if |parts| >= 2 then parts[1] else "undefined"
  }

  /** `JSON.parse(atob(segment)).sub`: the LINE user id carried by the token. */
  function LineIdOf(token: string, engine: Engine): (r: Result<Js, Fault>)
    ensures engine.decodeTokenSegment(TokenSegment(token)).None? ==> r == Failure(OtherError)
    ensures engine.decodeTokenSegment(TokenSegment(token)).Some? ==>
              r == Access(engine.decodeTokenSegment(TokenSegment(token)).value, "sub")
  {
    match engine.decodeTokenSegment(TokenSegment(token))
    case None => Failure(OtherError)
    case Some(payload) => Access(payload, "sub")
  }

  /** The run of `initAuth` that the SDK state, the engine and the login response lead to. */
  function InitExit(liff: LiffState, login: Result<Js, Fault>, engine: Engine): (x: AuthExit)
    ensures x == RedirectedToLogin <==> liff.NotLoggedIn?
    ensures x == Rejected <==>
              liff.LoggedIn? && liff.idToken.Some? && liff.idToken.value != ""
              && LineIdOf(liff.idToken.value, engine).Success?
              && login.Success? && !Nullish(login.value) && Get(login.value, "status") != Str("success")
    ensures liff.InitFailed? || (liff.LoggedIn? && (liff.idToken.None? || liff.idToken.value == "")) ==> x == Threw
    ensures liff.LoggedIn? && login.Success? && Nullish(login.value) ==> x == Threw
  {
    match liff
    case InitFailed => Threw
    case NotLoggedIn => RedirectedToLogin
    case LoggedIn(token) =>
      if token.None? || token.value == "" then Threw
      else if LineIdOf(token.value, engine).Failure? then Threw
      else if login.Failure? then Threw
      else match Access(login.value, "status")
        case Failure(_) => Threw
        case Success(status) => if status == Str("success") then SignedIn else Rejected
  }

  /** Only a decoded token and a "success" response sign the user in. */
  lemma SignedInExactly(liff: LiffState, login: Result<Js, Fault>, engine: Engine)
    ensures InitExit(liff, login, engine) == SignedIn <==>
              liff.LoggedIn? && liff.idToken.Some? && liff.idToken.value != ""
              && LineIdOf(liff.idToken.value, engine).Success?
              && login.Success? && Get(login.value, "status") == Str("success")
  {
  }

  /** A JWT `header.payload.signature` hands its middle part, the payload, to `atob`. */
  lemma TokenSegmentIsPayload(header: string, payload: string, signature: string)
    requires '.' !in header && '.' !in payload && '.' !in signature
    ensures TokenSegment(header + "." + payload + "." + signature) == payload
  {
    SplitNoSep(signature, '.');
    SplitAppend(payload, signature, '.');
    assert header + "." + payload + "." + signature == header + ['.'] + (payload + ['.'] + signature);
    SplitAppend(header, payload + ['.'] + signature, '.');
  }

  /** A token without a second segment never signs in: its segment is the text "undefined". */
  lemma ShortTokenSegment(token: string)
    requires '.' !in token
    ensures TokenSegment(token) == "undefined"
  {
    SplitNoSep(token, '.');
  }

  class AuthProvider {
    var isLogin: bool
    var loading: bool
    var member: Option<Member>
    /** The plan as the login response gave it; "free" until then. */
    var plan: Js
    var isLoginOpen: bool
    var lineUid: Js
    /** localStorage's "member" entry. */
    var stored: Option<Member>

    /** The initial state, with whatever localStorage already holds. */
    constructor(initialStorage: Option<Member>)
      ensures !isLogin && loading && member == None && plan == Str("free")
      ensures !isLoginOpen && lineUid == Null && stored == initialStorage
    {
      isLogin := false;
      loading := true;
      member := None;
      plan := Str("free");
      isLoginOpen := false;
      lineUid := Null;
      stored := initialStorage;
    }

    /** `isPaid`. */
    predicate IsPaid()
      reads this
    {
      plan == Str("paid")
    }

    /** Every field but the login-sheet flag. */
    function Session(): (bool, bool, Option<Member>, Js, Js, Option<Member>)
      reads this
    {
      (isLogin, loading, member, plan, lineUid, stored)
    }

    method OpenLogin()
      modifies this
      ensures isLoginOpen && Session() == old(Session())
    {
      isLoginOpen := true;
    }

    method CloseLogin()
      modifies this
      ensures !isLoginOpen && Session() == old(Session())
    {
      isLoginOpen := false;
    }

    /** `logout`: forgets the member and the stored record; the plan falls back to free. */
    method Logout()
      modifies this
      ensures stored == None && member == None && !isLogin && plan == Str("free")
      ensures !IsPaid()
      ensures loading == old(loading) && lineUid == old(lineUid) && isLoginOpen == old(isLoginOpen)
    {
      stored := None;
      member := None;
      isLogin := false;
      plan := Str("free");
    }

    /**
     * `initAuth`, one run: `liff` is the SDK's state, `login` the login API's
     * parsed response (or the error its request threw), used only once the
     * token has been decoded.
     */
    method InitAuth(liff: LiffState, login: Result<Js, Fault>, engine: Engine) returns (exit: AuthExit)
      modifies this
      ensures exit == InitExit(liff, login, engine)
      ensures !loading && isLoginOpen == old(isLoginOpen)
      ensures exit == RedirectedToLogin ==>
                isLogin == old(isLogin) && member == old(member) && plan == old(plan)
                && lineUid == old(lineUid) && stored == old(stored)
      ensures exit == Threw ==>
                !isLogin && member == old(member) && plan == old(plan) && stored == old(stored)
      ensures exit == Rejected ==>
                !isLogin && member == None && plan == Str("free") && stored == old(stored)
      ensures exit == SignedIn ==>
                isLogin && member == Some(MemberOf(login.value))
                && plan == Get(login.value, "subscription") && stored == member
      ensures (liff.LoggedIn? && liff.idToken.Some? && liff.idToken.value != ""
               && LineIdOf(liff.idToken.value, engine).Success?)
              ==> lineUid == LineIdOf(liff.idToken.value, engine).value
      ensures !(liff.LoggedIn? && liff.idToken.Some? && liff.idToken.value != ""
                && LineIdOf(liff.idToken.value, engine).Success?)
              ==> lineUid == old(lineUid)
    {
      match liff {
        case InitFailed =>
          isLogin := false;
          exit := Threw;
        case NotLoggedIn =>
          exit := RedirectedToLogin;
        case LoggedIn(token) =>
          if token.None? || token.value == "" {
            isLogin := false;
            exit := Threw;
          } else {
            var lineId := LineIdOf(token.value, engine);
            if lineId.Failure? {
              isLogin := false;
              exit := Threw;
            } else {
              lineUid := lineId.value;
              if login.Failure? {
                isLogin := false;
                exit := Threw;
              } else {
                var data := login.value;
                var status := Access(data, "status");
                if status.Failure? {
                  isLogin := false;
                  exit := Threw;
                } else if status.value != Str("success") {
                  isLogin := false;
                  member := None;
                  plan := Str("free");
                  exit := Rejected;
                } else {
                  var m := MemberOf(data);
                  member := Some(m);
                  plan := Get(data, "subscription");
                  isLogin := true;
                  stored := Some(m);
                  exit := SignedIn;
                }
              }
            }
          }
      }
      loading := false;
    }
  }

  /**
   * The `uid` a view derives from the session: the member id as a string, or
   * "guest" without a member.
   */
  function ViewUid(member: Option<Member>, engine: Engine): (uid: string)
    ensures member.None? ==> uid == "guest"
    ensures member.Some? ==> uid == ToStr(member.value.memberId, engine)
  {
    match member
    case None => "guest"
    case Some(m) => ToStr(m.memberId, engine)
  }

  /** A numeric member id (the declared type) prints as digits: never "guest", never a separator. */
  lemma NumericUidIsDigits(m: Member, engine: Engine)
    requires m.memberId.Num? && IsIntegral(m.memberId.n)
    requires 0.0 <= m.memberId.n < 1000000000000000000000.0
    ensures var uid := ViewUid(Some(m), engine);
            |uid| >= 1 && (forall c :: c in uid ==> IsDigit(c))
            && uid != "guest" && '|' !in uid && '-' !in uid
  {
    var uid := ViewUid(Some(m), engine);
    assert uid == IntToString(m.memberId.n.Floor);
    assert !IsDigit('g');
    assert uid[0] != 'g';
  }

  /** Where paging or a guarded action goes. */
  datatype Gate = ToLogin | ToPaywall | Proceed

  /** No member: the login sheet; a member without the paid plan: the paywall; a paid member: go ahead. */
  function GateFor(member: Option<Member>, paid: bool): (g: Gate)
    ensures g == Proceed <==> member.Some? && paid
    ensures g == ToLogin <==> member.None?
  {
    if member.None? then ToLogin else if !paid then ToPaywall else Proceed
  }
}
