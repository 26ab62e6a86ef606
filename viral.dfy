// Viral growth: help requests that friends fulfil (each friend once, while
// the request is fresh), the one-shot helps they leave behind, referral
// codes and the reward for sharing a result. `Date.now()` is the `now`
// parameter (milliseconds); the Telegram user's first name is a parameter.
module Viral {
  import opened Common
  import opened Profiles

  datatype HelpType = Freeze | Damage | Coins | Shield

  datatype ShareSettings = ShareSettings(inviteBonus: int, helpCooldown: int, maxFriendsHelped: int,
                                         clanSizeLimit: int, shareReward: int)

  /** The configured value of a damage or coins help (its cooldown is not read). */
  datatype ValueHelp = ValueHelp(value: int, cooldown: int)

  /** `helpTypes`; the freeze and shield settings are never read, so they are not kept. */
  datatype HelpTypes = HelpTypes(damage: Option<ValueHelp>, coins: Option<ValueHelp>)

  datatype ViralConfig = ViralConfig(shareSettings: ShareSettings, helpTypes: Option<HelpTypes>)

  /**
   * A request for help. `fulfilledBy` is optional in the stored shape, but
   * every request here is made by `requestHelp`, which sets it to a list.
   */
  datatype HelpRequest = HelpRequest(requestId: string, requesterId: string, requesterName: string,
                                     helpType: HelpType, message: string, createdAt: int, expiresAt: int,
                                     fulfilledBy: seq<string>)

  /** A help a friend left; `fulfillHelp` always sets its value, possibly to 0. */
  datatype FriendHelp = FriendHelp(friendId: string, friendName: string, helpType: HelpType, used: bool,
                                   expiresAt: int, value: int)

  datatype HelpEffect = FreezeEffect(duration: int) | DamageEffect(value: int) | CoinsEffect(value: int)
                      | ShieldEffect(lives: int)

  /** A fulfilled help lasts a day. */
  const HelpLifetime := 24 * 60 * 60 * 1000

  /** `x || d` for a number: 0 is falsy. */
  function OrElse(x: int, d: int): (r: int)
    ensures x != 0 ==> r == x
    ensures x == 0 ==> r == d
  {
    if x == 0 then d else x
  }

  /** `config?.shareSettings.shareReward || 50`. */
  function ShareReward(config: Option<ViralConfig>): (r: int)
    ensures config.None? ==> r == 50
  {
    if config.None? then 50 else OrElse(config.value.shareSettings.shareReward, 50)
  }

  /** `config?.shareSettings.inviteBonus || 100`. */
  function InviteBonus(config: Option<ViralConfig>): (r: int)
    ensures config.None? ==> r == 100
  {
    if config.None? then 100 else OrElse(config.value.shareSettings.inviteBonus, 100)
  }

  /**
   * `getHelpValue`: nothing without help settings; a damage help is worth
   * its configured value or 50, a coins help its value or 100, the others 0
   * (`damage?.value || 50` and `coins?.value || 100`).
   */
  function HelpValue(config: Option<ViralConfig>, t: HelpType): (v: int)
    ensures (t.Freeze? || t.Shield?) ==> v == 0
    ensures config.Some? && config.value.helpTypes.Some? && t.Damage? ==> v != 0
    ensures config.Some? && config.value.helpTypes.Some? && t.Coins? ==> v != 0
  {
    if config.None? || config.value.helpTypes.None? then 0
    else
      var types := config.value.helpTypes.value;
      match t
      case Damage => if types.damage.Some? then OrElse(types.damage.value.value, 50) else 50
      case Coins => if types.coins.Some? then OrElse(types.coins.value.value, 100) else 100
      case _ => 0
  }

  function DefaultHelpMessage(t: HelpType): string
  {
    match t
    case Freeze => "Помоги заморозить врагов! \U{2744}\U{FE0F}"
    case Damage => "Нужна помощь! Нанеси урон врагам! \U{1F4A5}"
    case Coins => "Дай немного монет, пожалуйста! \U{1F4B0}"
    case Shield => "Защити меня! Нужен щит! \U{1F6E1}\U{FE0F}"
  }

  /** `getUserName`: the Telegram first name, or "Игрок" when there is none or it is empty. */
  function UserName(firstName: Option<string>): (n: string)
    ensures n != []
  {
    if firstName.None? || firstName.value == "" then "Игрок" else firstName.value
  }

  /** The request `requestHelp` makes: open for `helpCooldown` seconds, fulfilled by nobody yet. */
  function NewRequest(config: ViralConfig, userId: string, firstName: Option<string>, t: HelpType,
                      message: Option<string>, now: int): (r: HelpRequest)
    ensures r.requestId == "help_" + IntString(now) && r.requesterId == userId && r.helpType == t
    ensures r.expiresAt == now + config.shareSettings.helpCooldown * 1000
    ensures r.fulfilledBy == []
  {
    var text := if message.None? || message.value == "" then DefaultHelpMessage(t) else message.value;
    HelpRequest("help_" + IntString(now), userId, UserName(firstName), t, text, now,
                now + config.shareSettings.helpCooldown * 1000, [])
  }

  /** A help that can still be used at `now`. */
  predicate Usable(h: FriendHelp, now: int)
  {
    !h.used && h.expiresAt > now
  }

  /** `getAvailableHelps`: the usable helps, in order. */
  function Available(hs: seq<FriendHelp>, now: int): (r: seq<FriendHelp>)
    ensures |r| <= |hs|
    ensures forall i :: 0 <= i < |r| ==> Usable(r[i], now)
  {
    if hs == [] then [] else (if Usable(hs[0], now) then [hs[0]] else []) + Available(hs[1..], now)
  }

  /** A help is available exactly when it is in the list and usable. */
  lemma {:induction false} AvailableExactly(hs: seq<FriendHelp>, now: int)
    ensures forall h :: h in Available(hs, now) <==> h in hs && Usable(h, now)
    decreases |hs|
  {
    if hs != [] {
      AvailableExactly(hs[1..], now);
      assert hs == [hs[0]] + hs[1..];
    }
  }

  lemma {:induction false} AvailableConcat(a: seq<FriendHelp>, b: seq<FriendHelp>, now: int)
    ensures Available(a + b, now) == Available(a, now) + Available(b, now)
    decreases |a|
  {
    if a != [] {
      assert (a + b)[0] == a[0] && (a + b)[1..] == a[1..] + b;
      AvailableConcat(a[1..], b, now);
    } else {
      assert a + b == b;
    }
  }

  lemma AvailableCons(h: FriendHelp, hs: seq<FriendHelp>, now: int)
    ensures Available([h] + hs, now) == (if Usable(h, now) then [h] else []) + Available(hs, now)
  {
    assert ([h] + hs)[1..] == hs;
  }

  /** The `find` in `useFriendHelp`: the first usable help from this friend. */
  function FirstUsable(hs: seq<FriendHelp>, friendId: string, now: int): (r: Option<nat>)
    ensures r.Some? ==> r.value < |hs| && Usable(hs[r.value], now) && hs[r.value].friendId == friendId
    ensures r.Some? ==> forall j :: 0 <= j < r.value ==> !(Usable(hs[j], now) && hs[j].friendId == friendId)
    ensures r.None? ==> forall j :: 0 <= j < |hs| ==> !(Usable(hs[j], now) && hs[j].friendId == friendId)
  {
    if hs == [] then None
    else if Usable(hs[0], now) && hs[0].friendId == friendId then Some(0)
    else
      var rest := FirstUsable(hs[1..], friendId, now);
      if rest.None? then None else Some(rest.value + 1)
  }

  /** What using a help gives: a freeze of 10, its damage or 50, its coins or 100, or a shield of 3 lives. */
  function EffectOf(h: FriendHelp): HelpEffect
  {
    match h.helpType
    case Freeze => FreezeEffect(10)
    case Damage => DamageEffect(OrElse(h.value, 50))
    case Coins => CoinsEffect(OrElse(h.value, 100))
    case Shield => ShieldEffect(3)
  }

  /** The available helps around one position of the list. */
  lemma AvailableAround(hs: seq<FriendHelp>, i: nat, now: int)
    requires i < |hs|
    ensures Available(hs, now) == Available(hs[..i], now) + Available([hs[i]], now) + Available(hs[i + 1..], now)
  {
    var front, back := hs[..i], hs[i + 1..];
    assert hs == front + ([hs[i]] + back);
    AvailableConcat(front, [hs[i]] + back, now);
    AvailableConcat([hs[i]], back, now);
  }

  /**
   * Using a help takes exactly that help out of the available ones and
   * leaves the others, in order.
   */
  lemma UsingRemovesFromAvailable(hs: seq<FriendHelp>, i: nat, now: int)
    requires i < |hs| && Usable(hs[i], now)
    ensures Available(hs, now) == Available(hs[..i], now) + [hs[i]] + Available(hs[i + 1..], now)
    ensures Available(hs[i := hs[i].(used := true)], now) == Available(hs[..i], now) + Available(hs[i + 1..], now)
  {
    var used := hs[i := hs[i].(used := true)];
    AvailableAround(hs, i, now);
    AvailableAround(used, i, now);
    assert used[..i] == hs[..i] && used[i + 1..] == hs[i + 1..];
    AvailableCons(hs[i], [], now);
    AvailableCons(used[i], [], now);
    assert [hs[i]] + [] == [hs[i]] && [used[i]] + [] == [used[i]];
  }

  /** Whether `p` occurs in `s` at index `i`. */
  predicate OccursAt(s: string, p: string, i: int)
  {
    0 <= i && i + |p| <= |s| && s[i..i + |p|] == p
  }

  /** `s.indexOf(p, k)`: the first index from `k` on where `p` occurs, or -1 when there is none. */
  function IndexFrom(s: string, p: string, k: nat): (i: int)
    ensures i == -1 <==> forall j :: k <= j ==> !OccursAt(s, p, j)
    ensures i != -1 ==> k <= i && OccursAt(s, p, i) && forall j :: k <= j < i ==> !OccursAt(s, p, j)
    decreases |s| - k
  {
    if k + |p| > |s| then -1
    else if OccursAt(s, p, k) then k
    else IndexFrom(s, p, k + 1)
  }

  /** `s.replace(p, "")` for a string pattern: the first occurrence of `p`, wherever it is, is cut out. */
  function CutFirst(s: string, p: string): (r: string)
    ensures OccursAt(s, p, 0) ==> r == s[|p|..]
    ensures r == s || |r| == |s| - |p|
    ensures forall i :: OccursAt(s, p, i) && (forall j :: 0 <= j < i ==> !OccursAt(s, p, j)) ==> r == s[..i] + s[i + |p|..]
  {
    var i := IndexFrom(s, p, 0);
    if i == -1 then s else s[..i] + s[i + |p|..]
  }

  /** A string in which the pattern does not occur is left as it is. */
  lemma CutFirstAbsent(s: string, p: string)
    requires forall i :: !OccursAt(s, p, i)
    ensures CutFirst(s, p) == s
  {
  }

  /** The referral prefix. */
  const ReferralPrefix := "REF_"

  /** The referrer a code names: the code with its first "REF_" cut out. */
  function ReferrerOf(code: string): string
  {
    CutFirst(code, ReferralPrefix)
  }

  /** A player's own referral code names the player, and a code without the prefix names itself. */
  lemma ReferrerOfOwnCode(userId: string)
    ensures ReferrerOf(ReferralPrefix + userId) == userId
    ensures (forall i :: !OccursAt(userId, ReferralPrefix, i)) ==> ReferrerOf(userId) == userId
  {
    assert (ReferralPrefix + userId)[..|ReferralPrefix|] == ReferralPrefix;
    assert (ReferralPrefix + userId)[|ReferralPrefix|..] == userId;
    if forall i :: !OccursAt(userId, ReferralPrefix, i) {
      CutFirstAbsent(userId, ReferralPrefix);
    }
  }

  class ViralGrowthManager {
    var config: Option<ViralConfig>
    var helpRequests: OrderedMap<HelpRequest>
    var friendHelps: seq<FriendHelp>
    const profileService: PlayerProfileService

    /** Every request is stored under its id, and no friend has fulfilled a request twice. */
    ghost predicate Valid()
      reads this
    {
      MapValid(helpRequests)
      && forall k :: k in helpRequests.entries ==>
           helpRequests.entries[k].requestId == k && NoDuplicates(helpRequests.entries[k].fulfilledBy)
    }

    constructor (profileService: PlayerProfileService)
      ensures this.profileService == profileService && Valid()
      ensures config.None? && helpRequests == EmptyMap() && friendHelps == []
    {
      this.profileService := profileService;
      config := None;
      helpRequests := EmptyMap();
      friendHelps := [];
    }

    /** `loadConfig`: a fetched configuration replaces the current one; a failed fetch changes nothing. */
    method LoadConfig(fetched: Option<ViralConfig>)
      modifies this`config
      ensures fetched.Some? ==> config == fetched
      ensures fetched.None? ==> config == old(config)
    {
      if fetched.Some? {
        config := fetched;
      }
    }

    /** `requestHelp`: nothing before the configuration is loaded; otherwise a fresh request is stored under its id. */
    method RequestHelp(helpType: HelpType, message: Option<string>, firstName: Option<string>, now: int)
      returns (request: Option<HelpRequest>)
      requires Valid()
      modifies this`helpRequests, profileService`profile
      ensures Valid()
      ensures old(config).None? ==> request.None? && helpRequests == old(helpRequests)
                                    && profileService.profile == old(profileService.profile)
      ensures old(config).Some? ==> old(profileService.profile).Some? ==> profileService.profile == old(profileService.profile)
      ensures old(config).Some? ==> old(profileService.profile).None? ==>
                profileService.profile == Some(profileService.defaultProfile)
      ensures old(config).Some? ==>
                profileService.profile.Some?
                && request == Some(NewRequest(config.value, profileService.profile.value.userId, firstName, helpType,
                                              message, now))
                && helpRequests == Put(old(helpRequests), request.value.requestId, request.value)
    {
      if config.None? {
        return None;
      }
      var user := profileService.GetProfile();
      var r := NewRequest(config.value, user.userId, firstName, helpType, message, now);
      helpRequests := Put(helpRequests, r.requestId, r);
      request := Some(r);
    }

    /**
     * `fulfillHelp`: refused for an unknown request, one that expired before
     * `now`, or a friend who already helped; otherwise one help is appended,
     * the friend is recorded on the request and the reward is paid.
     */
    method FulfillHelp(requestId: string, friendId: string, friendName: string, now: int) returns (ok: bool)
      requires Valid()
      modifies this`helpRequests, this`friendHelps, profileService`profile
      ensures Valid()
      ensures ok <==> requestId in old(helpRequests.entries) && old(helpRequests.entries[requestId]).expiresAt >= now
                      && friendId !in old(helpRequests.entries[requestId]).fulfilledBy
      ensures !ok ==> helpRequests == old(helpRequests) && friendHelps == old(friendHelps)
                      && profileService.profile == old(profileService.profile)
      ensures ok ==>
                var request := old(helpRequests.entries[requestId]);
                && friendHelps == old(friendHelps) + [FriendHelp(friendId, friendName, request.helpType, false,
                                                                 now + HelpLifetime,
                                                                 HelpValue(config, request.helpType))]
                && helpRequests == Put(old(helpRequests), requestId, request.(fulfilledBy := request.fulfilledBy + [friendId]))
                && helpRequests.keys == old(helpRequests.keys)
      ensures ok && old(profileService.profile).Some? ==>
                profileService.profile == Some(WithCoins(old(profileService.profile).value, ShareReward(config)))
      ensures ok && old(profileService.profile).None? ==> profileService.profile.None?
    {
      if requestId !in helpRequests.entries || helpRequests.entries[requestId].expiresAt < now {
        return false;
      }
      var request := helpRequests.entries[requestId];
      if friendId in request.fulfilledBy {
        return false;
      }
      friendHelps := friendHelps + [FriendHelp(friendId, friendName, request.helpType, false, now + HelpLifetime,
                                               HelpValue(config, request.helpType))];
      profileService.AddCoins(ShareReward(config));
      NoDuplicatesSnoc(request.fulfilledBy, friendId);
      helpRequests := Put(helpRequests, requestId, request.(fulfilledBy := request.fulfilledBy + [friendId]));
      ok := true;
    }

    /**
     * `useFriendHelp`: the first usable help from this friend is marked used
     * and its effect returned (a coins help also pays its coins); none when
     * there is no such help.
     */
    method UseFriendHelp(helpId: string, now: int) returns (effect: Option<HelpEffect>)
      modifies this`friendHelps, profileService`profile
      ensures FirstUsable(old(friendHelps), helpId, now).None? ==>
                effect.None? && friendHelps == old(friendHelps) && profileService.profile == old(profileService.profile)
      ensures FirstUsable(old(friendHelps), helpId, now).Some? ==>
                var i := FirstUsable(old(friendHelps), helpId, now).value;
                var help := old(friendHelps)[i];
                && friendHelps == old(friendHelps)[i := help.(used := true)]
                && effect == Some(EffectOf(help))
                && (help.helpType.Coins? && old(profileService.profile).Some? ==>
                      profileService.profile == Some(WithCoins(old(profileService.profile).value, OrElse(help.value, 100))))
                && (!help.helpType.Coins? || old(profileService.profile).None? ==>
                      profileService.profile == old(profileService.profile))
    {
      var found := FirstUsable(friendHelps, helpId, now);
      if found.None? {
        return None;
      }
      var i := found.value;
      var help := friendHelps[i];
      friendHelps := friendHelps[i := help.(used := true)];
      if help.helpType.Coins? {
        profileService.AddCoins(OrElse(help.value, 100));
      }
      effect := Some(EffectOf(help));
    }

    /**
     * `processReferral`: the profile is read first; a code naming the player
     * gives nothing, any other gives the invite bonus. No referral is ever on
     * record, so the "already used" check never refuses.
     */
    method ProcessReferral(referralCode: string) returns (bonus: int)
      modifies profileService`profile
      ensures var start := if old(profileService.profile).Some? then old(profileService.profile).value
                           else profileService.defaultProfile;
              && (ReferrerOf(referralCode) == start.userId ==> bonus == 0 && profileService.profile == Some(start))
              && (ReferrerOf(referralCode) != start.userId ==>
                    bonus == InviteBonus(config) && profileService.profile == Some(WithCoins(start, bonus)))
    {
      var user := profileService.GetProfile();
      if ReferrerOf(referralCode) == user.userId {
        return 0;
      }
      bonus := InviteBonus(config);
      profileService.AddCoins(bonus);
    }

    /** `shareResult`: the share reward is paid (the share itself goes to Telegram). */
    method ShareResult(score: int, wave: int)
      modifies profileService`profile
      ensures old(profileService.profile).None? ==> profileService.profile.None?
      ensures old(profileService.profile).Some? ==>
                profileService.profile == Some(WithCoins(old(profileService.profile).value, ShareReward(config)))
    {
      profileService.AddCoins(ShareReward(config));
    }

    function GetAvailableHelps(now: int): (hs: seq<FriendHelp>)
      reads this
      ensures forall h :: h in hs <==> h in friendHelps && Usable(h, now)
    {
      AvailableExactly(friendHelps, now);
      Available(friendHelps, now)
    }
  }
}
