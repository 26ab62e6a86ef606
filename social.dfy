// The social layer: the friend list kept in insertion order, the friend
// leaderboard (the player's own entry among the best friends, sorted by score
// and ranked from 1), and the single clan the player may found or join.
// `Date.now()` is the `now` parameter; the stored friend list is the
// `stored` parameter (none when nothing was stored).
module Social {
  import opened Common
  import opened Profiles
  import opened Sorting

  datatype Friend = Friend(id: string, name: string, avatar: Option<string>, lastActive: int, bestScore: int,
                           currentWave: int, canHelp: bool, helpCooldown: Option<int>)

  /** Stored friends are keyed by their ids. */
  const FriendId: Friend -> string := (f: Friend) => f.id

  datatype ClanData = ClanData(id: string, name: string, description: string, members: seq<string>,
                               leaderId: string, level: int, totalScore: int, currentChallenge: Option<string>,
                               createdAt: int)

  datatype LeaderboardEntry = LeaderboardEntry(userId: string, userName: string, score: int, rank: int)

  /** The name the player's own leaderboard entry is shown under. */
  const OwnEntryName := "Вы"

  /** A friend just added: no score, no wave, ready to help. */
  function NewFriend(id: string, name: string, now: int): (f: Friend)
    ensures f.id == id && f.canHelp
  {
    Friend(id, name, None, now, 0, 0, true, None)
  }

  /** A clan the player founds: its only member, and its leader. */
  function Founded(userId: string, name: string, description: string, now: int): (c: ClanData)
    ensures c.members == [userId] && c.leaderId in c.members
  {
    ClanData("clan_" + IntString(now), name, description, [userId], userId, 1, 0, None, now)
  }

  /** The placeholder clan `joinClan` enters: the player is its only member, but not its leader. */
  function Joined(userId: string, clanId: string, now: int): (c: ClanData)
    ensures c.id == clanId && c.members == [userId]
  {
    ClanData(clanId, "Test Clan", "Test", [userId], "leader_id", 1, 0, None, now)
  }

  // ---- the friend leaderboard ----

  /** The `limit` of `getFriendLeaderboard` when the caller gives none. */
  const DefaultLeaderboardLimit := 10

  function BestScore(f: Friend): int { f.bestScore }

  function EntryScore(e: LeaderboardEntry): int { e.score }

  /** The friends sorted by best score (stably), cut to `slice(0, limit)`. */
  function TopFriends(fs: seq<Friend>, limit: int): seq<Friend>
  {
    var sorted := SortDesc(fs, BestScore);
    sorted[..JsSliceEnd(|sorted|, limit)]
  }

  /** The friends' entries, ranked by their place among the top friends. */
  function FriendEntries(top: seq<Friend>): (es: seq<LeaderboardEntry>)
    ensures |es| == |top|
  {
    seq(|top|, i requires 0 <= i < |top| => LeaderboardEntry(top[i].id, top[i].name, top[i].bestScore, i + 1))
  }

  /** The player's own entry, ranked 0, ahead of the friends' entries. */
  function Unsorted(user: Profile, top: seq<Friend>): seq<LeaderboardEntry>
  {
    [LeaderboardEntry(user.userId, OwnEntryName, user.stats.highestScore, 0)] + FriendEntries(top)
  }

  /** Every entry ranked by its position, from 1. */
  function Ranked(es: seq<LeaderboardEntry>): seq<LeaderboardEntry>
  {
    seq(|es|, i requires 0 <= i < |es| => es[i].(rank := i + 1))
  }

  /** What `getFriendLeaderboard(limit)` returns for these friends and this profile. */
  function FriendLeaderboard(fs: seq<Friend>, limit: int, user: Profile): seq<LeaderboardEntry>
  {
    Ranked(SortDesc(Unsorted(user, TopFriends(fs, limit)), EntryScore))
  }

  /** The entries with their ranks cleared: what a leaderboard shows apart from the places. */
  function Unranked(es: seq<LeaderboardEntry>): (r: seq<LeaderboardEntry>)
    ensures |r| == |es|
    ensures forall i :: 0 <= i < |es| ==> r[i] == es[i].(rank := 0)
  {
    if es == [] then [] else [es[0].(rank := 0)] + Unranked(es[1..])
  }

  lemma {:induction false} UnrankedInsert(x: LeaderboardEntry, es: seq<LeaderboardEntry>)
    ensures Unranked(Insert(x, es, EntryScore)) == Insert(x.(rank := 0), Unranked(es), EntryScore)
    decreases |es|
  {
    if es == [] || EntryScore(es[0]) <= EntryScore(x) {
      assert Unranked([x] + es) == [x.(rank := 0)] + Unranked(es);
    } else {
      UnrankedInsert(x, es[1..]);
      assert Unranked(es)[1..] == Unranked(es[1..]);
      assert Unranked([es[0]] + Insert(x, es[1..], EntryScore))
          == [es[0].(rank := 0)] + Unranked(Insert(x, es[1..], EntryScore));
    }
  }

  /** Clearing the ranks commutes with the sort, which looks at scores only. */
  lemma {:induction false} UnrankedSort(es: seq<LeaderboardEntry>)
    ensures Unranked(SortDesc(es, EntryScore)) == SortDesc(Unranked(es), EntryScore)
    decreases |es|
  {
    if es != [] {
      UnrankedSort(es[1..]);
      UnrankedInsert(es[0], SortDesc(es[1..], EntryScore));
      assert Unranked(es)[1..] == Unranked(es[1..]);
    }
  }

  /**
   * The friends kept are a part of the friend list, and each of them has a
   * best score no lower than that of any friend left out.
   */
  lemma TopFriendsAreBest(fs: seq<Friend>, limit: int)
    ensures |TopFriends(fs, limit)| == JsSliceEnd(|fs|, limit)
    ensures multiset(TopFriends(fs, limit)) <= multiset(fs)
    ensures forall g | g in multiset(fs) - multiset(TopFriends(fs, limit)) ::
              forall i | 0 <= i < |TopFriends(fs, limit)| :: TopFriends(fs, limit)[i].bestScore >= g.bestScore
  {
    SortDescFacts(fs, BestScore);
    SortedPrefixIsBest(fs, SortDesc(fs, BestScore), JsSliceEnd(|fs|, limit));
  }

  /** The first `k` of a reordering of `fs` sorted by best score beat every friend after them. */
  lemma SortedPrefixIsBest(fs: seq<Friend>, sorted: seq<Friend>, k: nat)
    requires SortedDesc(sorted, BestScore) && multiset(sorted) == multiset(fs) && k <= |sorted|
    ensures multiset(sorted[..k]) <= multiset(fs)
    ensures forall g: Friend | g in multiset(fs) - multiset(sorted[..k]) ::
              forall i | 0 <= i < k :: sorted[i].bestScore >= g.bestScore
  {
    var top, rest := sorted[..k], sorted[k..];
    assert sorted == top + rest;
    assert multiset(fs) == multiset(top) + multiset(rest);
    assert multiset(fs) - multiset(top) == multiset(rest);
    forall g: Friend | g in multiset(rest)
      ensures forall i | 0 <= i < k :: sorted[i].bestScore >= g.bestScore
    {
      var j :| 0 <= j < |rest| && rest[j] == g;
      assert sorted[k + j] == g;
    }
  }

  /**
   * The friend leaderboard holds the player and the top `limit` friends
   * (`slice` semantics), sorted by score from the highest, ranked 1, 2, ...
   * by position, and it is a reordering of those entries.
   */
  lemma FriendLeaderboardFacts(fs: seq<Friend>, limit: int, user: Profile)
    ensures |FriendLeaderboard(fs, limit, user)| == JsSliceEnd(|fs|, limit) + 1
    ensures SortedDesc(FriendLeaderboard(fs, limit, user), EntryScore)
    ensures forall i :: 0 <= i < |FriendLeaderboard(fs, limit, user)| ==> FriendLeaderboard(fs, limit, user)[i].rank == i + 1
    ensures multiset(Unranked(FriendLeaderboard(fs, limit, user))) == multiset(Unranked(Unsorted(user, TopFriends(fs, limit))))
  {
    var entries := Unsorted(user, TopFriends(fs, limit));
    TopFriendsAreBest(fs, limit);
    SortDescFacts(entries, EntryScore);
    UnrankedSort(entries);
    SortDescFacts(Unranked(entries), EntryScore);
    RankedFacts(SortDesc(entries, EntryScore));
  }

  /** Ranking by position keeps the entries and their order; only the ranks change. */
  lemma RankedFacts(es: seq<LeaderboardEntry>)
    requires SortedDesc(es, EntryScore)
    ensures |Ranked(es)| == |es| && SortedDesc(Ranked(es), EntryScore)
    ensures forall i :: 0 <= i < |Ranked(es)| ==> Ranked(es)[i].rank == i + 1
    ensures Unranked(Ranked(es)) == Unranked(es)
  {
  }

  /** Listing a friend just added puts them after everyone already listed. */
  lemma AddedFriendListedLast(m: OrderedMap<Friend>, f: Friend)
    requires MapValid(m) && f.id !in m.entries
    ensures Values(Put(m, f.id, f)) == Values(m) + [f]
  {
    var r := Put(m, f.id, f);
    assert r.keys[..|r.keys| - 1] == m.keys;
    var front := Values(OrderedMap(m.keys, r.entries));
    assert Values(r) == front + [f];
    assert front == Values(m);
  }

  class SocialIntegration {
    var friends: OrderedMap<Friend>
    var currentClan: Option<ClanData>
    const profileService: PlayerProfileService

    /** The friend map is well formed, and every friend is stored under its own id. */
    ghost predicate Valid()
      reads this
    {
      MapValid(friends) && forall k :: k in friends.entries ==> friends.entries[k].id == k
    }

    /** The constructor loads the stored friend list. */
    constructor (profileService: PlayerProfileService, stored: Option<seq<Friend>>)
      ensures this.profileService == profileService && currentClan.None? && Valid()
      ensures stored.None? ==> friends == EmptyMap()
      ensures stored.Some? ==> friends == PutAll(EmptyMap(), KeyedBy(stored.value, FriendId))
    {
      this.profileService := profileService;
      friends := EmptyMap();
      currentClan := None;
      new;
      LoadFriends(stored);
    }

    /** `loadFriends`: every stored friend is set under its id, in list order. */
    method LoadFriends(stored: Option<seq<Friend>>)
      requires Valid()
      modifies this`friends
      ensures Valid()
      ensures stored.None? ==> friends == old(friends)
      ensures stored.Some? ==> friends == PutAll(old(friends), KeyedBy(stored.value, FriendId))
    {
      if stored.Some? {
        var list := stored.value;
        var i := 0;
        while i < |list|
          invariant 0 <= i <= |list|
          invariant friends == PutAll(old(friends), KeyedBy(list[..i], FriendId))
          invariant Valid()
          modifies this`friends
        {
          PutAllKeyedStep(old(friends), list, i, FriendId);
          friends := Put(friends, list[i].id, list[i]);
          i := i + 1;
        }
        assert list[..i] == list;
      }
    }

    /** `addFriend`: false for a friend already listed; otherwise the new friend is listed last. */
    method AddFriend(friendId: string, friendName: string, now: int) returns (added: bool)
      requires Valid()
      modifies this`friends
      ensures Valid()
      ensures added <==> friendId !in old(friends.entries)
      ensures !added ==> friends == old(friends)
      ensures added ==> friends == Put(old(friends), friendId, NewFriend(friendId, friendName, now))
      ensures added ==> GetFriends() == old(GetFriends()) + [NewFriend(friendId, friendName, now)]
    {
      if friendId in friends.entries {
        return false;
      }
      AddedFriendListedLast(friends, NewFriend(friendId, friendName, now));
      friends := Put(friends, friendId, NewFriend(friendId, friendName, now));
      added := true;
    }

    /** `getFriends`: every friend once, in the order they were first listed. */
    function GetFriends(): (fs: seq<Friend>)
      requires Valid()
      reads this
      ensures |fs| == |friends.keys|
      ensures forall i :: 0 <= i < |fs| ==> fs[i].id == friends.keys[i] && friends.entries[fs[i].id] == fs[i]
    {
      Values(friends)
    }

    /**
     * `getFriendLeaderboard`: the profile is read (and created if missing),
     * then the entries are ranked in place. A caller that gives no limit
     * passes `DefaultLeaderboardLimit`.
     */
    method GetFriendLeaderboard(limit: int) returns (board: seq<LeaderboardEntry>)
      requires Valid()
      modifies profileService`profile
      ensures old(profileService.profile).Some? ==> profileService.profile == old(profileService.profile)
      ensures old(profileService.profile).None? ==> profileService.profile == Some(profileService.defaultProfile)
      ensures profileService.profile.Some?
      ensures board == FriendLeaderboard(GetFriends(), limit, profileService.profile.value)
    {
      var top := TopFriends(GetFriends(), limit);
      var user := profileService.GetProfile();
      var entries := SortDesc(Unsorted(user, top), EntryScore);
      board := entries;
      var i := 0;
      while i < |board|
        invariant 0 <= i <= |board| == |entries|
        invariant forall j :: 0 <= j < i ==> board[j] == entries[j].(rank := j + 1)
        invariant forall j :: i <= j < |board| ==> board[j] == entries[j]
        modifies {}
      {
        board := board[i := board[i].(rank := i + 1)];
        i := i + 1;
      }
      assert board == Ranked(entries);
    }

    /** `createClan`: the profile is read first; a player already in a clan gets nothing. */
    method CreateClan(name: string, description: string, now: int) returns (clan: Option<ClanData>)
      modifies this`currentClan, profileService`profile
      ensures old(profileService.profile).Some? ==> profileService.profile == old(profileService.profile)
      ensures old(profileService.profile).None? ==> profileService.profile == Some(profileService.defaultProfile)
      ensures profileService.profile.Some?
      ensures old(currentClan).Some? ==> clan.None? && currentClan == old(currentClan)
      ensures old(currentClan).None? ==>
                clan == currentClan == Some(Founded(profileService.profile.value.userId, name, description, now))
    {
      var user := profileService.GetProfile();
      if currentClan.Some? {
        return None;
      }
      currentClan := Some(Founded(user.userId, name, description, now));
      clan := currentClan;
    }

    /** `joinClan`: the profile is read first; a player already in a clan stays where they are. */
    method JoinClan(clanId: string, now: int) returns (joined: bool)
      modifies this`currentClan, profileService`profile
      ensures old(profileService.profile).Some? ==> profileService.profile == old(profileService.profile)
      ensures old(profileService.profile).None? ==> profileService.profile == Some(profileService.defaultProfile)
      ensures profileService.profile.Some?
      ensures joined <==> old(currentClan).None?
      ensures !joined ==> currentClan == old(currentClan)
      ensures joined ==> currentClan == Some(Joined(profileService.profile.value.userId, clanId, now))
    {
      var user := profileService.GetProfile();
      if currentClan.Some? {
        return false;
      }
      currentClan := Some(Joined(user.userId, clanId, now));
      joined := true;
    }

    function GetCurrentClan(): (c: Option<ClanData>)
      reads this
      ensures c == currentClan
    {
      currentClan
    }
  }
}
