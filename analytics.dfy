// The analytics dashboard: a log of events tagged with the session that
// recorded them, and the metrics computed from that log (play time, the
// favourite tower, averages, ratios and the most popular products).
// `Date.now()` is the `now` parameter; the stored log is the `stored`
// parameter, and `saved` is what the log writes back to storage.
module Analytics {
  import opened Common
  import opened Profiles
  import opened Sorting
  import Monetization

  /** The fields of an event's free-form data that the dashboard reads. */
  datatype EventData = EventData(towerType: Option<string>, waveNumber: Option<int>, starsSpent: Option<int>,
                                 productId: Option<string>)

  datatype AnalyticsEvent = AnalyticsEvent(kind: string, userId: string, timestamp: int, data: EventData,
                                           sessionId: string)

  datatype GameAnalytics = GameAnalytics(userId: string, sessionCount: int, totalPlayTime: real,
                                         favoriteTower: string, averageWaveReached: real, moneySpent: int,
                                         friendsInvited: int, helpRequestsSent: int, helpRequestsReceived: int,
                                         sharesCount: int, retentionDays: int, lastActive: int,
                                         dailyActiveStreak: int)

  datatype ViralMetrics = ViralMetrics(kFactor: real, viralityRate: real, averageShares: real,
                                       referralConversion: real)

  datatype MonetizationMetrics = MonetizationMetrics(arpu: real, conversionRate: real, averagePurchase: real,
                                                     popularProducts: seq<string>)

  /** How many of the latest events are written back to storage. */
  const SavedEventLimit := 1000

  /** How many products the popularity list names at most. */
  const PopularLimit := 5

  /** The favourite tower when no tower was built. */
  const DefaultFavorite := "cannon"

  // ---- the event log ----

  /** `events.filter(e => e.type === kind)`. */
  function OfKind(es: seq<AnalyticsEvent>, kind: string): (r: seq<AnalyticsEvent>)
    ensures |r| <= |es|
    ensures forall i :: 0 <= i < |r| ==> r[i].kind == kind && r[i] in es
  {
    if es == [] then []
    else OfKind(es[..|es| - 1], kind) + (if es[|es| - 1].kind == kind then [es[|es| - 1]] else [])
  }

  /** `countEvents(kind)`. */
  function Count(es: seq<AnalyticsEvent>, kind: string): (n: nat)
    ensures n <= |es|
  {
    |OfKind(es, kind)|
  }

  /** Recording one event adds one to the count of its kind and leaves every other count as it was. */
  lemma CountAfterTrack(es: seq<AnalyticsEvent>, e: AnalyticsEvent, kind: string)
    ensures Count(es + [e], kind) == Count(es, kind) + (if e.kind == kind then 1 else 0)
  {
    assert (es + [e])[..|es|] == es;
  }

  /** `events.slice(-1000)`: the latest 1000 events, or all of them when there are fewer. */
  function Recent(es: seq<AnalyticsEvent>): (r: seq<AnalyticsEvent>)
    ensures |r| == if |es| < SavedEventLimit then |es| else SavedEventLimit
    ensures es == es[..|es| - |r|] + r
  {
    es[if |es| > SavedEventLimit then |es| - SavedEventLimit else 0..]
  }

  /** The stored window slides: saving after one more event is saving the last window plus that event, cut again. */
  lemma RecentSlides(es: seq<AnalyticsEvent>, e: AnalyticsEvent)
    ensures Recent(es + [e]) == Recent(Recent(es) + [e])
  {
    var r := Recent(es);
    assert es + [e] == es[..|es| - |r|] + (r + [e]);
  }

  // ---- play time ----

  /** Whether an event opens or closes a session. */
  predicate IsSessionMark(e: AnalyticsEvent)
  {
    e.kind == "session_start" || e.kind == "session_end"
  }

  /** The session starts and ends, in order. */
  function SessionMarks(es: seq<AnalyticsEvent>): (r: seq<AnalyticsEvent>)
    ensures forall i :: 0 <= i < |r| ==> IsSessionMark(r[i])
  {
    if es == [] then []
    else SessionMarks(es[..|es| - 1]) + (if IsSessionMark(es[|es| - 1]) then [es[|es| - 1]] else [])
  }

  /** The play time counted so far, and the start of the session still open (a start at 0 counts as none). */
  datatype Clock = Clock(total: real, start: Option<int>)

  /** One step of the play-time count. */
  function Tick(c: Clock, e: AnalyticsEvent): Clock
  {
    if e.kind == "session_start" then Clock(c.total, Some(e.timestamp))
    else if e.kind == "session_end" && c.start.Some? && c.start.value != 0 then
      Clock(c.total + (e.timestamp - c.start.value) as real / 1000.0, None)
    else c
  }

  function Clocked(ms: seq<AnalyticsEvent>): Clock
  {
    if ms == [] then Clock(0.0, None) else Tick(Clocked(ms[..|ms| - 1]), ms[|ms| - 1])
  }

  /** `calculateTotalPlayTime`, in seconds. */
  function PlayTime(es: seq<AnalyticsEvent>): real
  {
    Clocked(SessionMarks(es)).total
  }

  /** A session opened at a nonzero time and then closed adds its length in seconds and leaves none open. */
  lemma ClosedSessionCounts(ms: seq<AnalyticsEvent>, s: AnalyticsEvent, e: AnalyticsEvent)
    requires s.kind == "session_start" && s.timestamp != 0 && e.kind == "session_end"
    ensures Clocked(ms + [s, e]) == Clock(Clocked(ms).total + (e.timestamp - s.timestamp) as real / 1000.0, None)
  {
    assert (ms + [s, e])[..|ms| + 1] == ms + [s];
    assert (ms + [s])[..|ms|] == ms;
  }

  /** An end with no session open, or a session opened at time 0, adds nothing. */
  lemma UnmatchedEndIgnored(ms: seq<AnalyticsEvent>, e: AnalyticsEvent)
    requires e.kind == "session_end"
    requires Clocked(ms).start.None? || Clocked(ms).start == Some(0)
    ensures Clocked(ms + [e]) == Clocked(ms)
  {
    assert (ms + [e])[..|ms|] == ms;
  }

  /** A second start replaces a start still open: only the later one is measured from. */
  lemma RestartOverwrites(ms: seq<AnalyticsEvent>, s1: AnalyticsEvent, s2: AnalyticsEvent)
    requires s1.kind == "session_start" && s2.kind == "session_start"
    ensures Clocked(ms + [s1, s2]) == Clock(Clocked(ms).total, Some(s2.timestamp))
  {
    assert (ms + [s1, s2])[..|ms| + 1] == ms + [s1];
    assert (ms + [s1])[..|ms|] == ms;
  }

  // ---- counting by key ----

  /** How often `t` occurs in `s`. */
  function Occurrences(s: seq<string>, t: string): (n: nat)
    ensures n <= |s|
    ensures n == 0 <==> t !in s
  {
    if s == [] then 0 else Occurrences(s[..|s| - 1], t) + (if s[|s| - 1] == t then 1 else 0)
  }

  /** `counts.set(k, (counts.get(k) || 0) + 1)` for every `k` of `s`, in order. */
  function Tally(s: seq<string>): (m: OrderedMap<int>)
    ensures MapValid(m)
  {
    if s == [] then EmptyMap()
    else
      CountOne(Tally(s[..|s| - 1]), s[|s| - 1])
  }

  /** `counts.set(k, (counts.get(k) || 0) + 1)`. */
  function CountOne(m: OrderedMap<int>, k: string): (r: OrderedMap<int>)
    ensures MapValid(m) ==> MapValid(r)
  {
    Put(m, k, (if k in m.entries then m.entries[k] else 0) + 1)
  }

  /** Counting one more key is one more `set` on the counts so far. */
  lemma TallyStep(s: seq<string>, i: nat)
    requires i < |s|
    ensures Tally(s[..i + 1]) == CountOne(Tally(s[..i]), s[i])
  {
    var t := s[..i + 1];
    assert t[..|t| - 1] == s[..i] && t[|t| - 1] == s[i];
  }

  /** `m` holds exactly the keys of `s`, each with the number of times it occurs. */
  ghost predicate Counts(s: seq<string>, m: OrderedMap<int>)
  {
    MapValid(m)
    && (forall t :: t in m.entries <==> t in s)
    && (forall t :: t in m.entries ==> m.entries[t] == Occurrences(s, t))
  }

  /** The keys are listed in the order they first occur in `s`. */
  ghost predicate FirstSeenOrder(s: seq<string>, ks: seq<string>)
  {
    forall a, b, i :: 0 <= a < b < |ks| && 0 <= i < |s| && s[i] == ks[b] ==> ks[a] in s[..i]
  }

  lemma {:induction false} TallyCounts(s: seq<string>)
    ensures Counts(s, Tally(s))
  {
    if s != [] {
      var front := s[..|s| - 1];
      TallyCounts(front);
      assert s == front + [s[|s| - 1]];
      CountsSnoc(front, s[|s| - 1], Tally(front));
    }
  }

  /** Counting one more key keeps the counts exact. */
  lemma CountsSnoc(s: seq<string>, x: string, m: OrderedMap<int>)
    requires Counts(s, m)
    ensures Counts(s + [x], CountOne(m, x))
  {
    var t := s + [x];
    assert t[..|t| - 1] == s;
    forall k
      ensures Occurrences(t, k) == Occurrences(s, k) + (if k == x then 1 else 0)
    {
    }
  }

  lemma {:induction false} TallyKeysInOrder(s: seq<string>)
    ensures FirstSeenOrder(s, Tally(s).keys)
  {
    if s != [] {
      var front, x := s[..|s| - 1], s[|s| - 1];
      TallyKeysInOrder(front);
      TallyCounts(front);
      var fk := Tally(front).keys;
      assert forall k :: k in fk <==> k in front;
      assert s == front + [x];
      FirstSeenSnoc(front, x, fk, Tally(s).keys);
    }
  }

  /** Listing a key the first time it is seen keeps the keys in first-seen order. */
  lemma FirstSeenSnoc(front: seq<string>, x: string, fk: seq<string>, ks: seq<string>)
    requires FirstSeenOrder(front, fk)
    requires forall k :: k in fk <==> k in front
    requires if x in fk then ks == fk else ks == fk + [x]
    ensures FirstSeenOrder(front + [x], ks)
  {
    var s := front + [x];
    forall a, b, i | 0 <= a < b < |ks| && 0 <= i < |s| && s[i] == ks[b]
      ensures ks[a] in s[..i]
    {
      if i < |front| {
        assert s[i] == front[i] && s[..i] == front[..i];
        assert b < |fk|;
      } else {
        assert s[..i] == front;
        assert ks[a] == fk[a];
      }
    }
  }

  // ---- the favourite tower ----

  /** The tower types of the `tower_built` events that name one. */
  function TowerTypes(es: seq<AnalyticsEvent>): seq<string>
  {
    if es == [] then []
    else
      var e := es[|es| - 1];
      TowerTypes(es[..|es| - 1]) + (if e.kind == "tower_built" && e.data.towerType.Some? then [e.data.towerType.value] else [])
  }

  /** The favourite so far and its count. */
  datatype Leader = Leader(favorite: string, maxCount: int)

  /** The scan over the tally: a key replaces the leader only with a strictly higher count. */
  function Lead(ks: seq<string>, counts: map<string, int>): Leader
    requires forall k :: k in ks ==> k in counts
  {
    if ks == [] then Leader(DefaultFavorite, 0)
    else
      var l := Lead(ks[..|ks| - 1], counts);
      var k := ks[|ks| - 1];
      if counts[k] > l.maxCount then Leader(k, counts[k]) else l
  }

  /**
   * The leader's count is the highest count and at least 0; unless it is
   * still the default at 0, the favourite is the first key reaching it.
   */
  lemma {:induction false} LeadIsFirstMax(ks: seq<string>, counts: map<string, int>)
    requires forall k :: k in ks ==> k in counts
    ensures Lead(ks, counts).maxCount >= 0
    ensures forall i :: 0 <= i < |ks| ==> counts[ks[i]] <= Lead(ks, counts).maxCount
    ensures Lead(ks, counts) == Leader(DefaultFavorite, 0)
            || exists i :: 0 <= i < |ks| && ks[i] == Lead(ks, counts).favorite && counts[ks[i]] == Lead(ks, counts).maxCount
                             && forall j :: 0 <= j < i ==> counts[ks[j]] < Lead(ks, counts).maxCount
  {
    if ks != [] {
      var front := ks[..|ks| - 1];
      LeadIsFirstMax(front, counts);
      var l := Lead(front, counts);
      if l != Leader(DefaultFavorite, 0) && counts[ks[|ks| - 1]] <= l.maxCount {
        var i :| 0 <= i < |front| && front[i] == l.favorite && counts[front[i]] == l.maxCount
                 && forall j :: 0 <= j < i ==> counts[front[j]] < l.maxCount;
        assert ks[i] == front[i];
      }
    }
  }

  /** `getFavoriteTower`. */
  function Favorite(es: seq<AnalyticsEvent>): string
  {
    var m := Tally(TowerTypes(es));
    Lead(m.keys, m.entries).favorite
  }

  /** When some key counts at least 1, the leader is a key: the first one with the highest count. */
  lemma LeadPosition(ks: seq<string>, counts: map<string, int>, k0: nat) returns (f: nat)
    requires forall k :: k in ks ==> k in counts
    requires k0 < |ks| && counts[ks[k0]] >= 1
    ensures f < |ks| && ks[f] == Lead(ks, counts).favorite && counts[ks[f]] == Lead(ks, counts).maxCount
    ensures forall j :: 0 <= j < f ==> counts[ks[j]] < Lead(ks, counts).maxCount
    ensures forall j :: 0 <= j < |ks| ==> counts[ks[j]] <= Lead(ks, counts).maxCount
  {
    LeadIsFirstMax(ks, counts);
    var l := Lead(ks, counts);
    assert l.maxCount >= 1;
    f :| 0 <= f < |ks| && ks[f] == l.favorite && counts[ks[f]] == l.maxCount
         && forall j :: 0 <= j < f ==> counts[ks[j]] < l.maxCount;
  }

  /** A key counted at least as high as every other occurs at least as often as anything in `s`. */
  lemma HighestCounted(s: seq<string>, m: OrderedMap<int>, f: nat)
    requires Counts(s, m) && f < |m.keys|
    requires forall j :: 0 <= j < |m.keys| ==> m.entries[m.keys[j]] <= m.entries[m.keys[f]]
    ensures forall t :: t in s ==> Occurrences(s, t) <= Occurrences(s, m.keys[f])
  {
    assert m.keys[f] in m.entries;
    forall t | t in s
      ensures Occurrences(s, t) <= Occurrences(s, m.keys[f])
    {
      var j :| 0 <= j < |m.keys| && m.keys[j] == t;
    }
  }

  /** A key counted higher than every key listed before it is seen no later than any key counted as high. */
  lemma FirstHighestCounted(s: seq<string>, m: OrderedMap<int>, f: nat)
    requires MapValid(m) && FirstSeenOrder(s, m.keys) && f < |m.keys|
    requires forall i :: 0 <= i < |s| ==> s[i] in m.entries
    requires forall j :: 0 <= j < f ==> m.entries[m.keys[j]] < m.entries[m.keys[f]]
    ensures forall i :: 0 <= i < |s| && m.entries[s[i]] == m.entries[m.keys[f]] ==> m.keys[f] in s[..i + 1]
  {
    assert m.keys[f] in m.entries;
    forall i | 0 <= i < |s| && m.entries[s[i]] == m.entries[m.keys[f]]
      ensures m.keys[f] in s[..i + 1]
    {
      var j :| 0 <= j < |m.keys| && m.keys[j] == s[i];
      assert forall b :: f < b < |m.keys| && s[i] == m.keys[b] ==> m.keys[f] in s[..i];
      SeenBy(s, m.keys, m.entries, f, j, i);
    }
  }

  /** The step of `FirstHighestCounted` at position `i` of `s`, where key `j` is seen. */
  lemma SeenBy(s: seq<string>, ks: seq<string>, counts: map<string, int>, f: nat, j: nat, i: nat)
    requires f < |ks| && j < |ks| && i < |s| && ks[j] == s[i]
    requires ks[f] in counts && ks[j] in counts && counts[ks[j]] == counts[ks[f]]
    requires forall k :: 0 <= k < f ==> ks[k] in counts && counts[ks[k]] < counts[ks[f]]
    requires forall b :: f < b < |ks| && s[i] == ks[b] ==> ks[f] in s[..i]
    ensures ks[f] in s[..i + 1]
  {
    assert s[..i + 1] == s[..i] + [s[i]];
  }

  /**
   * Over the counts of a nonempty list, the leader occurs in the list, at
   * least as often as any other key, and no later than any key occurring as
   * often.
   */
  lemma LeaderOfCounts(s: seq<string>, m: OrderedMap<int>)
    requires s != [] && Counts(s, m) && FirstSeenOrder(s, m.keys)
    ensures Lead(m.keys, m.entries).favorite in s
    ensures forall t :: t in s ==> Occurrences(s, t) <= Occurrences(s, Lead(m.keys, m.entries).favorite)
    ensures forall i :: 0 <= i < |s| && Occurrences(s, s[i]) == Occurrences(s, Lead(m.keys, m.entries).favorite)
                        ==> Lead(m.keys, m.entries).favorite in s[..i + 1]
  {
    assert s[0] in m.entries;
    var k0 :| 0 <= k0 < |m.keys| && m.keys[k0] == s[0];
    var f := LeadPosition(m.keys, m.entries, k0);
    assert m.keys[f] in m.entries;
    HighestCounted(s, m, f);
    assert forall i :: 0 <= i < |s| ==> s[i] in m.entries;
    FirstHighestCounted(s, m, f);
  }

  /**
   * The favourite is "cannon" when no tower was built. Otherwise it is a
   * tower built at least as often as every other type, and the first built
   * among the types built as often.
   */
  lemma FavoriteIsMostBuilt(es: seq<AnalyticsEvent>)
    ensures TowerTypes(es) == [] ==> Favorite(es) == DefaultFavorite
    ensures TowerTypes(es) != [] ==>
              Favorite(es) in TowerTypes(es)
              && (forall t :: t in TowerTypes(es) ==> Occurrences(TowerTypes(es), t) <= Occurrences(TowerTypes(es), Favorite(es)))
              && forall i :: 0 <= i < |TowerTypes(es)|
                             && Occurrences(TowerTypes(es), TowerTypes(es)[i]) == Occurrences(TowerTypes(es), Favorite(es))
                             ==> Favorite(es) in TowerTypes(es)[..i + 1]
  {
    var types := TowerTypes(es);
    if types != [] {
      TallyCounts(types);
      TallyKeysInOrder(types);
      LeaderOfCounts(types, Tally(types));
    }
  }

  // ---- averages and sums ----

  /** `e.data.waveNumber || 0` of every `wave_completed` event. */
  function WaveNumbers(es: seq<AnalyticsEvent>): (ws: seq<int>)
    ensures |ws| == Count(es, "wave_completed")
  {
    if es == [] then []
    else
      var e := es[|es| - 1];
      WaveNumbers(es[..|es| - 1]) + (if e.kind == "wave_completed" then [Given(e.data.waveNumber, 0)] else [])
  }

  /** `calculateAverageWave`: 0 without completed waves. */
  function AverageWave(es: seq<AnalyticsEvent>): (avg: real)
    ensures Count(es, "wave_completed") == 0 ==> avg == 0.0
  {
    var ws := WaveNumbers(es);
    if |ws| == 0 then 0.0 else Sum(ws) as real / |ws| as real
  }

  lemma {:induction false} SumBounds(ws: seq<int>, lo: int, hi: int)
    requires forall i :: 0 <= i < |ws| ==> lo <= ws[i] <= hi
    ensures |ws| * lo <= Sum(ws) <= |ws| * hi
  {
    if ws != [] {
      SumBounds(ws[1..], lo, hi);
      assert |ws| * lo == lo + |ws[1..]| * lo && |ws| * hi == hi + |ws[1..]| * hi;
    }
  }

  /** When every completed wave lies between lo and hi, so does the average. */
  lemma AverageWaveBounded(es: seq<AnalyticsEvent>, lo: int, hi: int)
    requires Count(es, "wave_completed") > 0
    requires forall i :: 0 <= i < |WaveNumbers(es)| ==> lo <= WaveNumbers(es)[i] <= hi
    ensures lo as real <= AverageWave(es) <= hi as real
  {
    var ws := WaveNumbers(es);
    SumBounds(ws, lo, hi);
    MeanBetween(Sum(ws), |ws|, lo, hi);
  }

  /** A total between n·lo and n·hi, spread over n > 0, gives a mean between lo and hi. */
  lemma MeanBetween(total: int, n: int, lo: int, hi: int)
    requires n > 0 && n * lo <= total <= n * hi
    ensures lo as real <= total as real / n as real <= hi as real
  {
    var mean := total as real / n as real;
    assert mean * n as real == total as real;
    assert (mean - lo as real) * n as real == (total - n * lo) as real;
    assert (hi as real - mean) * n as real == (n * hi - total) as real;
  }

  /** `e.data.starsSpent || 0` of every purchase. */
  function StarsSpent(es: seq<AnalyticsEvent>): (ss: seq<int>)
    ensures |ss| == Count(es, "purchase")
  {
    if es == [] then []
    else
      var e := es[|es| - 1];
      StarsSpent(es[..|es| - 1]) + (if e.kind == "purchase" then [Given(e.data.starsSpent, 0)] else [])
  }

  /** `calculateMoneySpent`: the stars of all purchases. */
  function MoneySpent(es: seq<AnalyticsEvent>): int
  {
    Sum(StarsSpent(es))
  }

  // ---- sessions and users ----

  function SessionIds(es: seq<AnalyticsEvent>): (r: seq<string>)
    ensures |r| == |es| && forall i :: 0 <= i < |es| ==> r[i] == es[i].sessionId
  {
    seq(|es|, i requires 0 <= i < |es| => es[i].sessionId)
  }

  function UserIds(es: seq<AnalyticsEvent>): (r: seq<string>)
    ensures |r| == |es| && forall i :: 0 <= i < |es| ==> r[i] == es[i].userId
  {
    seq(|es|, i requires 0 <= i < |es| => es[i].userId)
  }

  /** `getSessions`: every session that recorded an event, once each. */
  function Sessions(es: seq<AnalyticsEvent>): (r: seq<string>)
    ensures forall i :: 0 <= i < |es| ==> es[i].sessionId in r
    ensures forall i :: 0 <= i < |r| ==> exists j :: 0 <= j < |es| && es[j].sessionId == r[i]
    ensures forall i, j :: 0 <= i < j < |r| ==> r[i] != r[j]
  {
    Distinct(SessionIds(es))
  }

  /** `getUniqueUsers`: every user who recorded an event, once each. */
  function Users(es: seq<AnalyticsEvent>): (r: seq<string>)
    ensures forall i :: 0 <= i < |es| ==> es[i].userId in r
    ensures forall i :: 0 <= i < |r| ==> exists j :: 0 <= j < |es| && es[j].userId == r[i]
    ensures forall i, j :: 0 <= i < j < |r| ==> r[i] != r[j]
  {
    Distinct(UserIds(es))
  }

  // ---- ratios ----

  /** `d > 0 ? n / d : 0`. */
  function Ratio(n: int, d: int): (r: real)
    ensures d <= 0 ==> r == 0.0
    ensures d > 0 ==> r * d as real == n as real
  {
    if d > 0 then n as real / d as real else 0.0
  }

  lemma RatioAtMostOne(n: int, d: int)
    requires 0 <= n <= d
    ensures 0.0 <= Ratio(n, d) <= 1.0
  {
    if d > 0 {
      assert Ratio(n, d) * d as real == n as real;
    }
  }

  /** A ratio of part to whole, as a percentage, lies between 0 and 100. */
  lemma RatioPercent(n: int, d: int)
    requires 0 <= n <= d
    ensures 0.0 <= Ratio(n, d) * 100.0 <= 100.0
  {
    RatioAtMostOne(n, d);
  }

  /**
   * `getViralMetrics`: every ratio is over the number of events (not of
   * users), the two rates are percentages, and all are 0 without events.
   */
  function ViralMetricsOf(es: seq<AnalyticsEvent>): (v: ViralMetrics)
    ensures es == [] ==> v == ViralMetrics(0.0, 0.0, 0.0, 0.0)
    ensures v.kFactor == Ratio(Count(es, "friend_invited"), |es|) && v.viralityRate == v.kFactor * 100.0
    ensures v.averageShares == Ratio(Count(es, "share_result"), |es|)
    ensures v.referralConversion == Ratio(Count(es, "referral_used"), |es|) * 100.0
    ensures 0.0 <= v.kFactor <= 1.0 && 0.0 <= v.viralityRate <= 100.0
    ensures 0.0 <= v.averageShares <= 1.0 && 0.0 <= v.referralConversion <= 100.0
  {
    var total := |es|;
    var invited := Count(es, "friend_invited");
    var shared := Count(es, "share_result");
    var referred := Count(es, "referral_used");
    RatioPercent(invited, total);
    RatioAtMostOne(shared, total);
    RatioPercent(referred, total);
    ViralMetrics(Ratio(invited, total), Ratio(invited, total) * 100.0, Ratio(shared, total),
                 Ratio(referred, total) * 100.0)
  }

  // ---- popular products ----

  /** The product ids of the purchases that name one (an empty id is skipped). */
  function Products(es: seq<AnalyticsEvent>): seq<string>
  {
    if es == [] then []
    else
      var e := es[|es| - 1];
      Products(es[..|es| - 1])
      + (if e.kind == "purchase" && e.data.productId.Some? && e.data.productId.value != "" then [e.data.productId.value] else [])
  }

  function Tallied(p: (string, int)): int { p.1 }

  /** `Array.from(counts.entries())`. */
  function Pairs(m: OrderedMap<int>): (ps: seq<(string, int)>)
    requires MapValid(m)
    ensures |ps| == |m.keys|
    ensures forall i :: 0 <= i < |ps| ==> ps[i] == (m.keys[i], m.entries[m.keys[i]])
  {
    seq(|m.keys|, i requires 0 <= i < |m.keys| => (m.keys[i], m.entries[m.keys[i]]))
  }

  /** The ids of the first five pairs. */
  function TopIds(sorted: seq<(string, int)>): (ids: seq<string>)
    ensures |ids| == if |sorted| < PopularLimit then |sorted| else PopularLimit
    ensures forall i :: 0 <= i < |ids| ==> ids[i] == sorted[i].0
  {
    var top := sorted[..if |sorted| < PopularLimit then |sorted| else PopularLimit];
    seq(|top|, i requires 0 <= i < |top| => top[i].0)
  }

  /** `getPopularProducts`: the tally sorted by count (stably), cut to five, as ids. */
  function Popular(es: seq<AnalyticsEvent>): seq<string>
  {
    TopIds(SortDesc(Pairs(Tally(Products(es))), Tallied))
  }

  /** Sorting the pairs of the counts of `s` keeps each key of `s` with its count. */
  lemma RankingSound(s: seq<string>, m: OrderedMap<int>)
    requires Counts(s, m)
    ensures forall i :: 0 <= i < |SortDesc(Pairs(m), Tallied)| ==>
              SortDesc(Pairs(m), Tallied)[i].0 in s
              && SortDesc(Pairs(m), Tallied)[i].1 == Occurrences(s, SortDesc(Pairs(m), Tallied)[i].0)
  {
    var pairs := Pairs(m);
    var sorted := SortDesc(pairs, Tallied);
    SortDescFacts(pairs, Tallied);
    forall i | 0 <= i < |sorted|
      ensures sorted[i].0 in s && sorted[i].1 == Occurrences(s, sorted[i].0)
    {
      assert sorted[i] in multiset(pairs);
      var a :| 0 <= a < |pairs| && pairs[a] == sorted[i];
    }
  }

  /** Sorting the pairs of the counts of `s` keeps every key of `s`. */
  lemma RankingComplete(s: seq<string>, m: OrderedMap<int>)
    requires Counts(s, m)
    ensures forall p :: p in s ==> exists b :: 0 <= b < |SortDesc(Pairs(m), Tallied)| && SortDesc(Pairs(m), Tallied)[b].0 == p
  {
    var pairs := Pairs(m);
    var sorted := SortDesc(pairs, Tallied);
    SortDescFacts(pairs, Tallied);
    forall p | p in s
      ensures exists b :: 0 <= b < |sorted| && sorted[b].0 == p
    {
      var a :| 0 <= a < |m.keys| && m.keys[a] == p;
      assert pairs[a] in multiset(sorted);
      var b :| 0 <= b < |sorted| && sorted[b] == pairs[a];
    }
  }

  /** The first five of a ranking of the keys of `s` by count, sorted from the highest. */
  lemma TopOfRanking(s: seq<string>, sorted: seq<(string, int)>)
    requires SortedDesc(sorted, Tallied)
    requires forall i :: 0 <= i < |sorted| ==> sorted[i].0 in s && sorted[i].1 == Occurrences(s, sorted[i].0)
    requires forall p :: p in s ==> exists b :: 0 <= b < |sorted| && sorted[b].0 == p
    ensures |TopIds(sorted)| <= PopularLimit
    ensures forall i :: 0 <= i < |TopIds(sorted)| ==> TopIds(sorted)[i] in s
    ensures forall i, j :: 0 <= i < j < |TopIds(sorted)| ==> Occurrences(s, TopIds(sorted)[i]) >= Occurrences(s, TopIds(sorted)[j])
    ensures forall p :: p in s && p !in TopIds(sorted) ==>
              |TopIds(sorted)| == PopularLimit
              && forall i :: 0 <= i < |TopIds(sorted)| ==> Occurrences(s, TopIds(sorted)[i]) >= Occurrences(s, p)
  {
    var r := TopIds(sorted);
    var k := |r|;
    forall p | p in s && p !in r
      ensures k == PopularLimit && forall i :: 0 <= i < k ==> Occurrences(s, r[i]) >= Occurrences(s, p)
    {
      var b :| 0 <= b < |sorted| && sorted[b].0 == p;
      assert b >= k;
    }
  }

  /**
   * At most five products are named, each one bought, in order of purchase
   * count from the highest, and no product left out was bought more often
   * than any product named; fewer than five are named only when every
   * product bought is.
   */
  lemma PopularFacts(es: seq<AnalyticsEvent>)
    ensures |Popular(es)| <= PopularLimit
    ensures forall i :: 0 <= i < |Popular(es)| ==> Popular(es)[i] in Products(es)
    ensures forall i, j :: 0 <= i < j < |Popular(es)| ==>
              Occurrences(Products(es), Popular(es)[i]) >= Occurrences(Products(es), Popular(es)[j])
    ensures forall p :: p in Products(es) && p !in Popular(es) ==>
              |Popular(es)| == PopularLimit
              && forall i :: 0 <= i < |Popular(es)| ==> Occurrences(Products(es), Popular(es)[i]) >= Occurrences(Products(es), p)
  {
    var ps := Products(es);
    var m := Tally(ps);
    TallyCounts(ps);
    SortDescFacts(Pairs(m), Tallied);
    RankingSound(ps, m);
    RankingComplete(ps, m);
    TopOfRanking(ps, SortDesc(Pairs(m), Tallied));
  }

  /** `new Set(purchases.map(e => e.userId))`: the users who made a purchase, once each. */
  function PayingUsers(es: seq<AnalyticsEvent>): (r: seq<string>)
    ensures forall i, j :: 0 <= i < j < |r| ==> r[i] != r[j]
    ensures forall i :: 0 <= i < |r| ==> exists j :: 0 <= j < |es| && es[j].kind == "purchase" && es[j].userId == r[i]
  {
    var ps := OfKind(es, "purchase");
    var r := Distinct(UserIds(ps));
    assert forall i :: 0 <= i < |r| ==> exists j :: 0 <= j < |ps| && ps[j].userId == r[i];
    r
  }

  /** Every paying user is a user, so there are no more paying users than users. */
  lemma PayingAmongUsers(es: seq<AnalyticsEvent>)
    ensures forall i :: 0 <= i < |PayingUsers(es)| ==> PayingUsers(es)[i] in Users(es)
    ensures |PayingUsers(es)| <= |Users(es)|
  {
    var r := PayingUsers(es);
    forall i | 0 <= i < |r|
      ensures r[i] in Users(es)
    {
      var j :| 0 <= j < |es| && es[j].kind == "purchase" && es[j].userId == r[i];
    }
    DistinctWithin(r, Users(es));
  }

  /**
   * `getMonetizationMetrics`: the revenue per user, the share of users who
   * paid as a percentage, the revenue per purchase, and the popular products;
   * each ratio is 0 when its denominator is.
   */
  function MonetizationMetricsOf(es: seq<AnalyticsEvent>): (mm: MonetizationMetrics)
    ensures |Users(es)| == 0 ==> mm.arpu == 0.0 && mm.conversionRate == 0.0
    ensures mm.arpu == Ratio(MoneySpent(es), |Users(es)|)
    ensures mm.conversionRate == Ratio(|PayingUsers(es)|, |Users(es)|) * 100.0
    ensures 0.0 <= mm.conversionRate <= 100.0
    ensures Count(es, "purchase") == 0 ==> mm.averagePurchase == 0.0
    ensures mm.averagePurchase == Ratio(MoneySpent(es), Count(es, "purchase"))
    ensures mm.popularProducts == Popular(es)
  {
    var revenue := MoneySpent(es);
    var users := |Users(es)|;
    var paying := |PayingUsers(es)|;
    PayingAmongUsers(es);
    RatioPercent(paying, users);
    MonetizationMetrics(Ratio(revenue, users), Ratio(paying, users) * 100.0, Ratio(revenue, Count(es, "purchase")),
                        Popular(es))
  }

  /** The events one user recorded, in order. */
  function ByUser(es: seq<AnalyticsEvent>, userId: string): (r: seq<AnalyticsEvent>)
    ensures forall i :: 0 <= i < |r| ==> r[i].userId == userId && r[i] in es
    ensures (forall i :: 0 <= i < |es| ==> es[i].userId != userId) ==> r == []
  {
    if es == [] then []
    else ByUser(es[..|es| - 1], userId) + (if es[|es| - 1].userId == userId then [es[|es| - 1]] else [])
  }

  /**
   * `calculateRetentionDays`: the whole days (rounded down) from this
   * user's first event to their last one in log order; 0 without events.
   */
  function RetentionDays(es: seq<AnalyticsEvent>, userId: string): (days: int)
    ensures ByUser(es, userId) == [] ==> days == 0
    ensures ByUser(es, userId) != [] ==>
              var span := ByUser(es, userId)[|ByUser(es, userId)| - 1].timestamp - ByUser(es, userId)[0].timestamp;
              days * Monetization.DayMillis <= span < (days + 1) * Monetization.DayMillis
  {
    var mine := ByUser(es, userId);
    if mine == [] then 0 else (mine[|mine| - 1].timestamp - mine[0].timestamp) / Monetization.DayMillis
  }

  /** `AnalyticsDashboard`: the event log of this session and the ones stored before it. */
  class AnalyticsDashboard {
    var events: seq<AnalyticsEvent>
    /** What storage holds: the log as last written back. */
    var saved: seq<AnalyticsEvent>
    const sessionId: string
    const profileService: PlayerProfileService

    /** The session is named after the time it opened; the stored log, if any, is loaded. */
    constructor (profileService: PlayerProfileService, stored: Option<seq<AnalyticsEvent>>, now: int)
      ensures this.profileService == profileService
      ensures sessionId == "session_" + IntString(now)
      ensures stored.None? ==> events == []
      ensures stored.Some? ==> events == stored.value
      ensures saved == events
    {
      this.profileService := profileService;
      sessionId := "session_" + IntString(now);
      events := Given(stored, []);
      saved := Given(stored, []);
    }

    /**
     * `trackEvent`: the event is stamped with the player's id, the time and
     * this session, appended, and the latest 1000 events are written back.
     */
    method TrackEvent(kind: string, data: EventData, now: int)
      modifies this`events, this`saved, profileService`profile
      ensures old(profileService.profile).Some? ==> profileService.profile == old(profileService.profile)
      ensures old(profileService.profile).None? ==> profileService.profile == Some(profileService.defaultProfile)
      ensures profileService.profile.Some?
      ensures events == old(events) + [AnalyticsEvent(kind, profileService.profile.value.userId, now, data, sessionId)]
      ensures saved == Recent(events)
    {
      var user := profileService.GetProfile();
      events := events + [AnalyticsEvent(kind, user.userId, now, data, sessionId)];
      saved := Recent(events);
    }

    /** `calculateTotalPlayTime`: the session marks are walked in order, each end closing the open start. */
    method TotalPlayTime() returns (total: real)
      ensures total == PlayTime(events)
    {
      var marks := SessionMarks(events);
      total := 0.0;
      var start: Option<int> := None;
      var i := 0;
      while i < |marks|
        invariant 0 <= i <= |marks|
        invariant Clock(total, start) == Clocked(marks[..i])
      {
        var e := marks[i];
        if e.kind == "session_start" {
          start := Some(e.timestamp);
        } else if e.kind == "session_end" && start.Some? && start.value != 0 {
          total := total + (e.timestamp - start.value) as real / 1000.0;
          start := None;
        }
        assert marks[..i + 1][..i] == marks[..i];
        i := i + 1;
      }
      assert marks[..i] == marks;
    }

    /** `getFavoriteTower`: count the towers built by type, then keep the first type with the highest count. */
    method FavoriteTower() returns (favorite: string)
      ensures favorite == Favorite(events)
    {
      var counts := CountTypes(TowerTypes(events));
      favorite := Leading(counts);
    }

    /** The `forEach` that counts each type: a type seen again adds one to its count, a new one is listed last. */
    static method CountTypes(types: seq<string>) returns (counts: OrderedMap<int>)
      ensures counts == Tally(types)
    {
      counts := EmptyMap();
      var i := 0;
      while i < |types|
        invariant 0 <= i <= |types|
        invariant counts == Tally(types[..i])
      {
        var t := types[i];
        counts := CountOne(counts, t);
        TallyStep(types, i);
        i := i + 1;
      }
      assert types[..i] == types;
    }

    /** The `forEach` over the counts: a type takes the lead only with a strictly higher count, from "cannon" at 0. */
    static method Leading(counts: OrderedMap<int>) returns (favorite: string)
      requires MapValid(counts)
      ensures favorite == Lead(counts.keys, counts.entries).favorite
    {
      favorite := DefaultFavorite;
      var maxCount := 0;
      var j := 0;
      while j < |counts.keys|
        invariant 0 <= j <= |counts.keys|
        invariant Leader(favorite, maxCount) == Lead(counts.keys[..j], counts.entries)
      {
        var k := counts.keys[j];
        if counts.entries[k] > maxCount {
          maxCount := counts.entries[k];
          favorite := k;
        }
        assert counts.keys[..j + 1][..j] == counts.keys[..j];
        j := j + 1;
      }
      assert counts.keys[..j] == counts.keys;
    }

    /** `getGameAnalytics`: the profile is read, then every metric is computed from the log. */
    method GetGameAnalytics(now: int) returns (g: GameAnalytics)
      modifies profileService`profile
      ensures old(profileService.profile).Some? ==> profileService.profile == old(profileService.profile)
      ensures old(profileService.profile).None? ==> profileService.profile == Some(profileService.defaultProfile)
      ensures profileService.profile.Some?
      ensures g.userId == profileService.profile.value.userId
      ensures g.dailyActiveStreak == profileService.profile.value.dailyRewards.streak
      ensures g.sessionCount == |Sessions(events)|
      ensures g.totalPlayTime == PlayTime(events) && g.favoriteTower == Favorite(events)
      ensures g.averageWaveReached == AverageWave(events) && g.moneySpent == MoneySpent(events)
      ensures g.friendsInvited == Count(events, "friend_invited") && g.sharesCount == Count(events, "share_result")
      ensures g.helpRequestsSent == Count(events, "help_sent") && g.helpRequestsReceived == Count(events, "help_received")
      ensures g.retentionDays == RetentionDays(events, profileService.profile.value.userId)
      ensures g.lastActive == now
    {
      var user := profileService.GetProfile();
      var playTime := TotalPlayTime();
      var favorite := FavoriteTower();
      g := GameAnalytics(user.userId, |Sessions(events)|, playTime, favorite, AverageWave(events), MoneySpent(events),
                         Count(events, "friend_invited"), Count(events, "help_sent"), Count(events, "help_received"),
                         Count(events, "share_result"), RetentionDays(events, user.userId), now,
                         user.dailyRewards.streak);
    }
  }
}
