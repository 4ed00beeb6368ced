/**
 * The daily-fortune view: the module-level response cache and in-flight set
 * its effect consults, the view's `data`/`loading` state, the marker-delimited
 * text blocks it renders, and the score colours.
 *
 * The effect is split at its only suspension point: `RunEffect` is the
 * synchronous part up to the moment the request is issued, `Settle` is the
 * `.then`/`.finally` pair that runs when the request ends.
 */
module DailyFortunePage {
  import opened Wrappers
  import opened Text
  import opened JsValues
  import opened Auth

  /* ---------- the effect ---------- */

  /** `${uid}|${date}`. */
  function CacheKey(uid: string, date: string): (key: string)
    ensures '|' !in uid ==> Split(key, '|')[0] == uid
  {
    if '|' !in uid then SplitAppend(uid, date, '|'); uid + "|" + date
    else uid + "|" + date
  }

  /** With no separator in the uids, a key tells the subject and the date apart. */
  lemma CacheKeyInjective(u1: string, d1: string, u2: string, d2: string)
    requires '|' !in u1 && '|' !in u2
    requires CacheKey(u1, d1) == CacheKey(u2, d2)
    ensures u1 == u2 && d1 == d2
  {
    SplitAppend(u1, d1, '|');
    SplitAppend(u2, d2, '|');
    JoinSplit(d1, '|');
    JoinSplit(d2, '|');
    assert Split(d1, '|') == Split(CacheKey(u1, d1), '|')[1..];
    assert Split(d2, '|') == Split(CacheKey(u2, d2), '|')[1..];
  }

  /** A guest and a member with a numeric id never share a cache entry. */
  lemma GuestKeySeparate(m: Member, date: string, engine: Engine)
    requires m.memberId.Num? && IsIntegral(m.memberId.n)
    requires 0.0 <= m.memberId.n < 1000000000000000000000.0
    ensures CacheKey(ViewUid(None, engine), date) != CacheKey(ViewUid(Some(m), engine), date)
  {
    NumericUidIsDigits(m, engine);
    var u := ViewUid(Some(m), engine);
    assert '|' !in "guest";
    if CacheKey("guest", date) == CacheKey(u, date) {
      CacheKeyInjective("guest", date, u, date);
    }
  }

  /** The request an effect run starts: `fetchDailyFortune(uid, date)` for `key`. */
  datatype Request = Request(uid: string, date: string, key: string)

  /** `dailyCache` and `dailyPending`, shared by every mounted daily view. */
  class DailyStore {
    var cache: map<string, Js>
    var pending: set<string>
    /** The keys of the requests started and not yet settled, with multiplicity. */
    ghost var outstanding: multiset<string>

    /** Every outstanding request is pending, and no key has two. */
    ghost predicate Valid()
      reads this
    {
      outstanding == multiset(pending)
    }

    constructor()
      ensures cache == map[] && pending == {} && outstanding == multiset{}
      ensures Valid()
    {
      cache := map[];
      pending := {};
      outstanding := multiset{};
    }

    /** `if (dailyCache[cacheKey])`: an entry that is present and truthy. */
    predicate Hit(key: string)
      reads this
    {
      key in cache && Truthy(cache[key])
    }
  }

  /** One mounted view's `data` and `loading` state. */
  class DailyView {
    var data: Js
    var loading: bool

    constructor()
      ensures data == Null && loading
    {
      data := Null;
      loading := true;
    }

    /**
     * One run of the effect for today's `date`. Nothing happens while the
     * session is loading, or when the key is already in flight (the view keeps
     * whatever it showed); a hit shows the cached response; otherwise the key is
     * marked pending and a request is started.
     */
    method RunEffect(store: DailyStore, authLoading: bool, member: Option<Member>, date: string, engine: Engine)
      returns (req: Option<Request>)
      requires store.Valid()
      modifies this, store
      ensures store.Valid()
      ensures store.cache == old(store.cache)
      ensures authLoading ==>
                req.None? && data == old(data) && loading == old(loading)
                && store.pending == old(store.pending) && store.outstanding == old(store.outstanding)
      ensures !authLoading ==>
                var uid := ViewUid(member, engine);
                var key := CacheKey(uid, date);
                if old(store.Hit(key)) then
                  req.None? && data == store.cache[key] && !loading
                  && store.pending == old(store.pending) && store.outstanding == old(store.outstanding)
                else if key in old(store.pending) then
                  req.None? && data == old(data) && loading == old(loading)
                  && store.pending == old(store.pending) && store.outstanding == old(store.outstanding)
                else
                  req == Some(Request(uid, date, key)) && data == old(data) && loading
                  && store.pending == old(store.pending) + {key}
                  && store.outstanding == old(store.outstanding) + multiset{key}
    {
      if authLoading {
        return None;
      }
      var uid := ViewUid(member, engine);
      var key := CacheKey(uid, date);
      if store.Hit(key) {
        data := store.cache[key];
        loading := false;
        return None;
      }
      if key in store.pending {
        return None;
      }
      store.pending := store.pending + {key};
      store.outstanding := store.outstanding + multiset{key};
      loading := true;
      req := Some(Request(uid, date, key));
    }

    /**
     * The end of a request the effect started: a response (`Some`) is cached
     * under the key and shown; a rejection (`None`) leaves both alone. Either
     * way the key stops being pending and the view stops loading.
     */
    method Settle(store: DailyStore, req: Request, response: Option<Js>)
      requires store.Valid() && req.key in store.outstanding
      modifies this, store
      ensures store.Valid()
      ensures store.pending == old(store.pending) - {req.key}
      ensures store.outstanding == old(store.outstanding) - multiset{req.key}
      ensures response.Some? ==> store.cache == old(store.cache)[req.key := response.value] && data == response.value
      ensures response.None? ==> store.cache == old(store.cache) && data == old(data)
      ensures !loading
    {
      if response.Some? {
        store.cache := store.cache[req.key := response.value];
        data := response.value;
      }
      store.pending := store.pending - {req.key};
      store.outstanding := store.outstanding - multiset{req.key};
      loading := false;
    }
  }

  /** The in-flight guard: under `Valid`, a key has at most one outstanding request. */
  lemma AtMostOneOutstanding(store: DailyStore, key: string)
    requires store.Valid()
    ensures store.outstanding[key] <= 1
    ensures store.outstanding[key] == 1 <==> key in store.pending
  {
  }

  /* ---------- text blocks ---------- */

  /** The section a block is asked for. */
  datatype SectionKey = Overall | Wealth | Career | Invest | Relation | Remind

  /** The markers in the order the text lists them. */
  const MARKERS: seq<string> := ["🌟", "💰", "💼", "📈", "🤝", "🎯"]

  /** `emojiMap[key]`. */
  function Emoji(key: SectionKey): (e: string)
    ensures e in MARKERS && |e| == 1 && !IsJsSpace(e[0])
  {
    match key
    case Overall => "🌟"
    case Wealth => "💰"
    case Career => "💼"
    case Invest => "📈"
    case Relation => "🤝"
    case Remind => "🎯"
  }

  lemma EmojiInjective(a: SectionKey, b: SectionKey)
    requires Emoji(a) == Emoji(b)
    ensures a == b
  {
  }

  /** One of the markers from the `k`-th on occurs in `text` at `i`. */
  predicate MarkerFrom(text: string, k: nat, i: int) {
    exists j :: k <= j < |MARKERS| && OccursAt(text, MARKERS[j], i)
  }

  lemma MarkerFromStep(text: string, k: nat)
    requires k < |MARKERS|
    ensures forall i :: MarkerFrom(text, k, i) <==> OccursAt(text, MARKERS[k], i) || MarkerFrom(text, k + 1, i)
  {
    forall i | MarkerFrom(text, k, i) ensures OccursAt(text, MARKERS[k], i) || MarkerFrom(text, k + 1, i) {
      var j :| k <= j < |MARKERS| && OccursAt(text, MARKERS[j], i);
      if j > k {
        assert MarkerFrom(text, k + 1, i);
      }
    }
  }

  /**
   * `Math.min` of the found `indexOf(e, from)` over the markers from the
   * `k`-th on, or the text's length when none was found: the first index from
   * `from` on where one of those markers occurs.
   */
  function NearestMarker(text: string, k: nat, from: nat): (r: nat)
    requires k <= |MARKERS| && from <= |text|
    ensures from <= r <= |text|
    ensures forall i :: from <= i < r ==> !MarkerFrom(text, k, i)
    ensures r == |text| || MarkerFrom(text, k, r)
    decreases |MARKERS| - k
  {
    if k == |MARKERS| then |text|
    else
      var i := IndexOfFrom(text, MARKERS[k], from);
      var rest := NearestMarker(text, k + 1, from);
      MarkerFromStep(text, k);
      if i != -1 && i < rest then i else rest
  }

  /**
   * `extractBlock`: the trimmed text from the key's marker to the next marker
   * of any section (the first found after it), or to the end; "" when there is
   * no text, no key, or no such marker in the text.
   */
  function ExtractBlock(text: Option<string>, key: Option<SectionKey>): (r: string)
    ensures text.None? || text.value == "" || key.None? ==> r == ""
    ensures text.Some? && key.Some? && IndexOf(text.value, Emoji(key.value)) == -1 ==> r == ""
    ensures text.Some? && key.Some? && IndexOf(text.value, Emoji(key.value)) != -1 ==>
              var start := IndexOf(text.value, Emoji(key.value));
              start + 1 <= |text.value|
              && r == Trim(text.value[start..NearestMarker(text.value, 0, start + 1)])
  {
    if text.None? || text.value == "" || key.None? then ""
    else
      var t := text.value;
      var start := IndexOf(t, Emoji(key.value));
      if start == -1 then ""
      else Trim(t[start..NearestMarker(t, 0, start + 1)])
  }

  /** The markers' characters, in the markers' order. */
  const MARKER_CHARS: seq<char> := ['🌟', '💰', '💼', '📈', '🤝', '🎯']

  predicate IsMarkerChar(c: char) {
    c in MARKER_CHARS
  }

  /** Every marker is one character, so a marker occurs exactly where a marker character stands. */
  lemma MarkerAtChar(s: string, i: int)
    ensures MarkerFrom(s, 0, i) <==> 0 <= i < |s| && IsMarkerChar(s[i])
  {
    assert forall j :: 0 <= j < |MARKERS| ==> MARKERS[j] == [MARKER_CHARS[j]];
    if 0 <= i < |s| {
      assert s[i..i + 1] == [s[i]];
      if IsMarkerChar(s[i]) {
        var j :| 0 <= j < |MARKER_CHARS| && MARKER_CHARS[j] == s[i];
        assert OccursAt(s, MARKERS[j], i);
      }
    }
    if MarkerFrom(s, 0, i) {
      var j :| 0 <= j < |MARKERS| && OccursAt(s, MARKERS[j], i);
      assert s[i..i + 1] == MARKERS[j];
      assert s[i] == MARKER_CHARS[j];
    }
  }

  /** Trimming text that starts with a non-space keeps that start and cuts only the end. */
  lemma TrimKeepsHead(block: string)
    requires block != [] && !IsJsSpace(block[0])
    ensures |Trim(block)| > 0 && Trim(block)[0] == block[0]
    ensures Trim(block) == block[..|Trim(block)|]
  {
    var i, j := TrimIsInfix(block);
    assert i == 0;
  }

  /** No marker character stands between `from` and the nearest marker from there. */
  lemma NoMarkerBefore(t: string, from: nat)
    requires from <= |t|
    ensures forall k :: from <= k < NearestMarker(t, 0, from) ==> !IsMarkerChar(t[k])
  {
    var end := NearestMarker(t, 0, from);
    forall k | from <= k < end ensures !IsMarkerChar(t[k]) {
      assert !MarkerFrom(t, 0, k);
      MarkerAtChar(t, k);
    }
  }

  /** Trimming a slice that opens with a non-space character and holds no marker after it. */
  lemma SliceShape(t: string, start: nat, end: nat)
    requires start < end <= |t| && !IsJsSpace(t[start])
    requires forall k :: start < k < end ==> !IsMarkerChar(t[k])
    ensures var r := Trim(t[start..end]);
            |r| > 0 && r[0] == t[start] && forall k :: 1 <= k < |r| ==> !IsMarkerChar(r[k])
  {
    var block := t[start..end];
    TrimKeepsHead(block);
    var r := Trim(block);
    forall k | 1 <= k < |r| ensures !IsMarkerChar(r[k]) {
      assert r[k] == block[k] == t[start + k];
    }
  }

  /** The block a one-character, non-space marker found in `t` opens. */
  lemma BlockShape(t: string, e: string)
    requires |e| == 1 && !IsJsSpace(e[0]) && IndexOf(t, e) != -1
    ensures var start := IndexOf(t, e);
            var r := Trim(t[start..NearestMarker(t, 0, start + 1)]);
            |r| > 0 && r[0] == e[0] && forall k :: 1 <= k < |r| ==> !IsMarkerChar(r[k])
  {
    var start := IndexOf(t, e);
    assert t[start..start + 1] == e;
    assert t[start] == e[0];
    NoMarkerBefore(t, start + 1);
    SliceShape(t, start, NearestMarker(t, 0, start + 1));
  }

  /**
   * A found block begins with its own marker and holds no other marker:
   * whatever follows in the text up to the next section is trimmed, not cut.
   */
  lemma ExtractBlockShape(t: string, key: SectionKey)
    requires IndexOf(t, Emoji(key)) != -1
    ensures var r := ExtractBlock(Some(t), Some(key));
            |r| > 0 && r[0] == Emoji(key)[0]
            && forall k :: 1 <= k < |r| ==> !IsMarkerChar(r[k])
  {
    BlockShape(t, Emoji(key));
  }

  /* ---------- score colours ---------- */

  /**
   * `getScoreColor(Number(score))`; `None` stands for NaN, which fails both
   * comparisons.
   */
  function ScoreColor(score: Option<real>): (c: string)
    ensures c == "text-green-400" <==> score.Some? && score.value >= 8.0
    ensures c == "text-yellow-400" <==> score.Some? && 5.0 <= score.value < 8.0
    ensures c == "text-red-400" <==> score.None? || score.value < 5.0
  {
    if score.Some? && score.value >= 8.0 then "text-green-400"
    else if score.Some? && score.value >= 5.0 then "text-yellow-400"
    else "text-red-400"
  }

  /** The colours rank red, yellow, green. */
  function ColorRank(c: string): nat {
    if c == "text-green-400" then 2 else if c == "text-yellow-400" then 1 else 0
  }

  /** A higher score never gets a lower colour. */
  lemma ScoreColorMonotone(a: real, b: real)
    requires a <= b
    ensures ColorRank(ScoreColor(Some(a))) <= ColorRank(ScoreColor(Some(b)))
  {
  }
}
