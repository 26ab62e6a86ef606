// The shop and the battle pass: products bought with Telegram Stars, the
// rewards they grant on the player's profile, skins owned, and battle-pass
// levelling that climbs while the XP covers the current level's requirement.
// The fetched configuration, the Telegram availability and `Date.now()` are
// parameters; the Stars payment itself always succeeds, as its stub does.
module Monetization {
  import opened Common
  import opened Profiles

  /** What a product grants, by its `type` and `value`. */
  datatype ProductKind = CoinsPack(coins: int) | SkinProduct(skinId: string) | Boost | BattlePassProduct | RemoveAds

  datatype StarsProduct = StarsProduct(id: string, name: string, starsPrice: int, kind: ProductKind)

  datatype TowerSkin = TowerSkin(id: string, name: string, texture: string, starsPrice: Option<int>)

  /** Products and skins are keyed by their ids. */
  const ProductId: StarsProduct -> string := (p: StarsProduct) => p.id
  const SkinId: TowerSkin -> string := (s: TowerSkin) => s.id

  /** A battle-pass reward; boosts and Stars grant nothing on the profile. */
  datatype Reward = CoinsReward(amount: int) | SkinReward(skinId: string) | BoostReward | StarsReward(stars: int)

  datatype BattlePassLevel = BattlePassLevel(level: int, requiredXP: int, freeRewards: seq<Reward>,
                                             premiumRewards: seq<Reward>)

  /** The season's pass; `stamp` is the `Date.now()` in its id `pass_<stamp>`, and it ends 30 days later. */
  datatype BattlePass = BattlePass(stamp: int, season: string, startTime: int, endTime: int,
                                   levels: seq<BattlePassLevel>, currentLevel: int, currentXP: int,
                                   premiumUnlocked: bool)

  datatype BattlePassConfig = BattlePassConfig(currentSeason: string, levels: seq<BattlePassLevel>)

  datatype MonetizationConfig = MonetizationConfig(products: Option<seq<StarsProduct>>,
                                                   towerSkins: Option<seq<TowerSkin>>,
                                                   battlePass: Option<BattlePassConfig>)

  datatype PurchaseStatus = Pending | Completed | Failed

  /** A purchase; `stamp` is the `Date.now()` in its id `purchase_<stamp>`. */
  datatype Purchase = Purchase(stamp: int, userId: string, productId: string, starsSpent: int, timestamp: int,
                               status: PurchaseStatus)

  const DayMillis := 24 * 60 * 60 * 1000

  /** `unlockSkin` on a profile: the skin added to the owned skins (an empty list when none) unless already there. */
  function WithSkin(p: Profile, skinId: string): (r: Profile)
    ensures r.ownedSkins.Some? && skinId in r.ownedSkins.value
    ensures p.ownedSkins.Some? && skinId in p.ownedSkins.value ==> r == p
    ensures skinId !in Given(p.ownedSkins, []) ==> r.ownedSkins.value == Given(p.ownedSkins, []) + [skinId]
    ensures r == p.(ownedSkins := r.ownedSkins)
  {
    p.(ownedSkins := Some(Unlock(Given(p.ownedSkins, []), skinId)))
  }

  /** A skin is owned at most once however often it is unlocked. */
  lemma WithSkinIdempotent(p: Profile, skinId: string)
    ensures WithSkin(WithSkin(p, skinId), skinId) == WithSkin(p, skinId)
    ensures NoDuplicates(Given(p.ownedSkins, [])) ==> NoDuplicates(WithSkin(p, skinId).ownedSkins.value)
  {
    UnlockLaws(Given(p.ownedSkins, []), skinId);
  }

  /** `claimReward`: coins are added, a skin is unlocked, anything else leaves the profile alone. */
  function Claim(p: Profile, r: Reward): (q: Profile)
    ensures r.CoinsReward? ==> q == WithCoins(p, r.amount)
    ensures r.SkinReward? ==> q == WithSkin(p, r.skinId)
    ensures r.BoostReward? || r.StarsReward? ==> q == p
  {
    match r
    case CoinsReward(n) => WithCoins(p, n)
    case SkinReward(s) => WithSkin(p, s)
    case _ => p
  }

  /** The rewards claimed in order. */
  function ClaimAll(p: Profile, rs: seq<Reward>): Profile
  {
    if rs == [] then p else Claim(ClaimAll(p, rs[..|rs| - 1]), rs[|rs| - 1])
  }

  /** The coins granted by a list of rewards. */
  function CoinsIn(rs: seq<Reward>): int
  {
    if rs == [] then 0 else CoinsIn(rs[..|rs| - 1]) + (if rs[|rs| - 1].CoinsReward? then rs[|rs| - 1].amount else 0)
  }

  /** Claiming rewards raises the coins by exactly the coins they grant, and changes only coins, statistics and skins. */
  lemma {:induction false} ClaimAllCoins(p: Profile, rs: seq<Reward>)
    ensures ClaimAll(p, rs).coins == p.coins + CoinsIn(rs)
    ensures ClaimAll(p, rs) == p.(coins := ClaimAll(p, rs).coins, stats := ClaimAll(p, rs).stats,
                                  ownedSkins := ClaimAll(p, rs).ownedSkins)
  {
    if rs != [] {
      ClaimAllCoins(p, rs[..|rs| - 1]);
    }
  }

  /** The rewards of reaching a level: the free ones, then the premium ones when premium is unlocked. */
  function LevelRewards(p: Profile, level: BattlePassLevel, premium: bool): Profile
  {
    ClaimAll(ClaimAll(p, level.freeRewards), if premium then level.premiumRewards else [])
  }

  /**
   * `canLevelUp`: the current level exists, the XP covers its requirement,
   * and it is not the last level.
   */
  predicate CanLevelUp(levels: seq<BattlePassLevel>, prog: BattlePassProgress)
  {
    0 <= prog.currentLevel < |levels| && prog.currentXP >= levels[prog.currentLevel].requiredXP
    && prog.currentLevel < |levels| - 1
  }

  datatype Climbed = Climbed(progress: BattlePassProgress, profile: Profile)

  /**
   * `levelUpBattlePass`: one level up with the XP reset to 0 (any excess is
   * lost), the new level's rewards claimed, and the new level recorded.
   */
  function LevelUp(levels: seq<BattlePassLevel>, prog: BattlePassProgress, p: Profile): (c: Climbed)
    requires CanLevelUp(levels, prog)
    ensures c.progress == prog.(currentLevel := prog.currentLevel + 1, currentXP := 0,
                                claimedLevels := prog.claimedLevels + [prog.currentLevel + 1])
  {
    var next := prog.currentLevel + 1;
    Climbed(prog.(currentLevel := next, currentXP := 0, claimedLevels := prog.claimedLevels + [next]),
            LevelRewards(p, levels[next], prog.premiumUnlocked))
  }

  /** The levels a..b-1 in order. */
  function Range(a: int, b: int): (r: seq<int>)
    ensures |r| == if a < b then b - a else 0
    ensures forall i :: 0 <= i < |r| ==> r[i] == a + i
    decreases b - a
  {
    if a >= b then [] else [a] + Range(a + 1, b)
  }

  /**
   * The levelling loop of `addBattlePassXP`: level up while `canLevelUp`
   * holds. It stops below the last level's index, on a state where no
   * further level up is possible, having recorded every level passed once
   * and in order.
   */
  function Climb(levels: seq<BattlePassLevel>, prog: BattlePassProgress, p: Profile): (c: Climbed)
    ensures !CanLevelUp(levels, c.progress)
    ensures c.progress.currentLevel >= prog.currentLevel
    ensures 0 <= prog.currentLevel < |levels| ==> c.progress.currentLevel < |levels|
    ensures c.progress.claimedLevels == prog.claimedLevels + Range(prog.currentLevel + 1, c.progress.currentLevel + 1)
    ensures c.progress.passId == prog.passId && c.progress.premiumUnlocked == prog.premiumUnlocked
    ensures c.progress.currentLevel > prog.currentLevel ==> c.progress.currentXP == 0
    ensures c.progress.currentLevel == prog.currentLevel ==> c == Climbed(prog, p)
    decreases |levels| - prog.currentLevel
  {
    if CanLevelUp(levels, prog) then
      var step := LevelUp(levels, prog, p);
      var c := Climb(levels, step.progress, step.profile);
      assert Range(prog.currentLevel + 1, c.progress.currentLevel + 1)
          == [prog.currentLevel + 1] + Range(prog.currentLevel + 2, c.progress.currentLevel + 1);
      c
    else Climbed(prog, p)
  }

  /** XP short of the current level's requirement never levels up; XP that covers it passes at least one level. */
  lemma ClimbStops(levels: seq<BattlePassLevel>, prog: BattlePassProgress, p: Profile)
    requires 0 <= prog.currentLevel < |levels| - 1
    ensures prog.currentXP < levels[prog.currentLevel].requiredXP ==> Climb(levels, prog, p) == Climbed(prog, p)
    ensures prog.currentXP >= levels[prog.currentLevel].requiredXP ==>
      Climb(levels, prog, p).progress.currentLevel > prog.currentLevel
  {
  }

  /** `processPurchase` on the profile (which it never creates, except through a skin unlock). */
  function Processed(p: Option<Profile>, defaults: Profile, kind: ProductKind): (r: Option<Profile>)
    ensures kind.SkinProduct? ==> r == Some(WithSkin(Given(p, defaults), kind.skinId))
    ensures p.None? && !kind.SkinProduct? ==> r.None?
    ensures kind.CoinsPack? && p.Some? ==> r == Some(WithCoins(p.value, kind.coins))
    ensures kind.RemoveAds? && p.Some? ==> r == Some(p.value.(settings := p.value.settings.(adsRemoved := Some(true))))
    ensures kind.Boost? || kind.BattlePassProduct? ==> r == p
  {
    match kind
    case CoinsPack(n) => if p.Some? then Some(WithCoins(p.value, n)) else None
    case SkinProduct(s) => Some(WithSkin(Given(p, defaults), s))
    case RemoveAds => if p.Some? then Some(p.value.(settings := p.value.settings.(adsRemoved := Some(true)))) else None
    case _ => p
  }

  /**
   * The defaults after `processPurchase`: without a profile, `remove_ads`
   * sets the flag on the settings `getSettings` returned, which are the
   * defaults' own; every other case leaves the defaults alone.
   */
  function DefaultsAfter(p: Option<Profile>, defaults: Profile, kind: ProductKind): (d: Profile)
    ensures p.None? && kind.RemoveAds? ==> d.settings.adsRemoved == Some(true)
    ensures d == defaults.(settings := d.settings)
    ensures d.settings == defaults.settings.(adsRemoved := d.settings.adsRemoved)
    ensures p.Some? || !kind.RemoveAds? ==> d == defaults
  {
    if p.None? && kind.RemoveAds? then defaults.(settings := defaults.settings.(adsRemoved := Some(true)))
    else defaults
  }

  /**
   * A `remove_ads` purchase always lands: the profile it leaves, or the one
   * created from the defaults it leaves, has the ads flag set.
   */
  lemma RemoveAdsLands(p: Option<Profile>, defaults: Profile)
    ensures Given(Processed(p, defaults, RemoveAds), DefaultsAfter(p, defaults, RemoveAds)).settings.adsRemoved
            == Some(true)
  {
  }

  /** The settings as a patch that sets every field. */
  function AsPatch(s: Settings): (u: SettingsPatch)
    ensures forall t :: PatchSettings(t, u) == s.(adsRemoved := if s.adsRemoved.Some? then s.adsRemoved else t.adsRemoved)
  {
    SettingsPatch(Some(s.soundEnabled), Some(s.musicEnabled), Some(s.soundVolume), Some(s.musicVolume),
                  Some(s.gameSpeed), Some(s.showTutorial), s.adsRemoved)
  }

  class MonetizationStack {
    var products: OrderedMap<StarsProduct>
    var towerSkins: OrderedMap<TowerSkin>
    var battlePass: Option<BattlePass>
    /** The purchases stored so far. */
    var purchases: seq<Purchase>
    const profileService: PlayerProfileService

    constructor (profileService: PlayerProfileService)
      ensures this.profileService == profileService
      ensures products == EmptyMap() && towerSkins == EmptyMap() && battlePass.None? && purchases == []
    {
      this.profileService := profileService;
      products := EmptyMap();
      towerSkins := EmptyMap();
      battlePass := None;
      purchases := [];
    }

    /**
     * `loadProducts`: every product and skin set under its id, and the
     * pass created when configured; a failed fetch changes nothing.
     */
    method LoadProducts(fetched: Option<MonetizationConfig>, now: int)
      modifies this`products, this`towerSkins, this`battlePass, profileService`profile
      ensures fetched.None? ==> products == old(products) && towerSkins == old(towerSkins)
                                && battlePass == old(battlePass) && profileService.profile == old(profileService.profile)
      ensures fetched.Some? ==>
        products == PutAll(old(products), KeyedBy(Given(fetched.value.products, []), ProductId))
        && towerSkins == PutAll(old(towerSkins), KeyedBy(Given(fetched.value.towerSkins, []), SkinId))
      ensures fetched.Some? && fetched.value.battlePass.Some? ==>
        profileService.profile.Some?
        && battlePass == Some(NewPass(fetched.value.battlePass.value, now,
                                      StoredProgress(profileService.profile.value, old(battlePass))))
      ensures fetched.Some? && fetched.value.battlePass.None? ==>
        battlePass == old(battlePass) && profileService.profile == old(profileService.profile)
    {
      if fetched.None? {
        return;
      }
      var config := fetched.value;
      LoadProductList(Given(config.products, []));
      LoadSkinList(Given(config.towerSkins, []));
      if config.battlePass.Some? {
        var progress := GetBattlePassProgress();
        battlePass := Some(NewPass(config.battlePass.value, now, progress));
      }
    }

    /** `Object.values(config.products).forEach(p => products.set(p.id, p))`. */
    method LoadProductList(ps: seq<StarsProduct>)
      modifies this`products
      ensures products == PutAll(old(products), KeyedBy(ps, ProductId))
    {
      var i := 0;
      while i < |ps|
        invariant 0 <= i <= |ps|
        invariant products == PutAll(old(products), KeyedBy(ps[..i], ProductId))
      {
        PutAllKeyedStep(old(products), ps, i, ProductId);
        products := Put(products, ps[i].id, ps[i]);
        i := i + 1;
      }
      assert ps[..i] == ps;
    }

    /** `Object.values(config.towerSkins).forEach(s => towerSkins.set(s.id, s))`. */
    method LoadSkinList(ss: seq<TowerSkin>)
      modifies this`towerSkins
      ensures towerSkins == PutAll(old(towerSkins), KeyedBy(ss, SkinId))
    {
      var i := 0;
      while i < |ss|
        invariant 0 <= i <= |ss|
        invariant towerSkins == PutAll(old(towerSkins), KeyedBy(ss[..i], SkinId))
      {
        PutAllKeyedStep(old(towerSkins), ss, i, SkinId);
        towerSkins := Put(towerSkins, ss[i].id, ss[i]);
        i := i + 1;
      }
      assert ss[..i] == ss;
    }

    /**
     * `getBattlePassProgress`: the progress stored on the profile (created
     * when missing), or a fresh one at level 0 with no XP, nothing claimed
     * and no premium.
     */
    method GetBattlePassProgress() returns (progress: BattlePassProgress)
      modifies profileService`profile
      ensures old(profileService.profile).Some? ==> profileService.profile == old(profileService.profile)
      ensures old(profileService.profile).None? ==> profileService.profile == Some(profileService.defaultProfile)
      ensures profileService.profile.Some? && progress == StoredProgress(profileService.profile.value, battlePass)
    {
      var profile := profileService.GetProfile();
      progress := StoredProgress(profile, battlePass);
    }

    /** `updateBattlePassProgress`: the progress stored on the profile. */
    method UpdateBattlePassProgress(progress: BattlePassProgress)
      modifies profileService`profile
      ensures profileService.profile == Some(Given(old(profileService.profile), profileService.defaultProfile)
                                               .(battlePass := Some(progress)))
    {
      var profile := profileService.GetProfile();
      profileService.profile := Some(profile.(battlePass := Some(progress)));
    }

    /** `unlockSkin`. */
    method UnlockSkin(skinId: string)
      modifies profileService`profile
      ensures profileService.profile == Some(WithSkin(Given(old(profileService.profile), profileService.defaultProfile),
                                                      skinId))
    {
      var profile := profileService.GetProfile();
      var owned := Given(profile.ownedSkins, []);
      if skinId !in owned {
        profileService.profile := Some(profile.(ownedSkins := Some(owned + [skinId])));
      }
    }

    /** `processPurchase`. */
    method ProcessPurchase(product: StarsProduct)
      modifies profileService`profile, profileService`defaultProfile
      ensures profileService.profile == Processed(old(profileService.profile), old(profileService.defaultProfile),
                                                  product.kind)
      ensures profileService.defaultProfile
              == DefaultsAfter(old(profileService.profile), old(profileService.defaultProfile), product.kind)
    {
      match product.kind {
        case CoinsPack(n) =>
          profileService.AddCoins(n);
        case SkinProduct(s) =>
          UnlockSkin(s);
        case RemoveAds =>
          var settings := profileService.GetSettings();
          settings := settings.(adsRemoved := Some(true));
          if profileService.profile.None? {
            // the settings written are the defaults' own
            profileService.defaultProfile := profileService.defaultProfile.(settings := settings);
          }
          profileService.UpdateSettings(AsPatch(settings));
        case _ =>
      }
    }

    /**
     * `purchaseProduct`: `None` for an unknown product. Without Telegram the
     * purchase is granted first and the profile fetched after; with it the
     * profile is fetched (created when missing) before the purchase is
     * granted and stored. Either way the purchase completes.
     */
    method PurchaseProduct(productId: string, telegramAvailable: bool, now: int) returns (r: Option<Purchase>)
      modifies this`purchases, profileService`profile, profileService`defaultProfile
      ensures productId !in products.entries ==>
        r.None? && purchases == old(purchases) && profileService.profile == old(profileService.profile)
        && profileService.defaultProfile == old(profileService.defaultProfile)
      ensures productId in products.entries ==>
        var product := products.entries[productId];
        && profileService.profile.Some?
        && r == Some(Purchase(now, profileService.profile.value.userId, productId, product.starsPrice, now, Completed))
        && (!telegramAvailable ==>
              purchases == old(purchases)
              && var defaults := DefaultsAfter(old(profileService.profile), old(profileService.defaultProfile),
                                               product.kind);
                 var granted := Processed(old(profileService.profile), old(profileService.defaultProfile),
                                          product.kind);
                 && profileService.defaultProfile == defaults
                 && profileService.profile == (if granted.Some? then granted else Some(defaults)))
        && (telegramAvailable ==>
              purchases == old(purchases) + [r.value]
              && profileService.defaultProfile == old(profileService.defaultProfile)
              && profileService.profile
                 == Processed(Some(Given(old(profileService.profile), old(profileService.defaultProfile))),
                              old(profileService.defaultProfile), product.kind))
      ensures productId in products.entries && products.entries[productId].kind.RemoveAds? ==>
        profileService.profile.value.settings.adsRemoved == Some(true)
    {
      if productId !in products.entries {
        return None;
      }
      var product := products.entries[productId];
      if !telegramAvailable {
        ProcessPurchase(product);
        var profile := profileService.GetProfile();
        return Some(Purchase(now, profile.userId, productId, product.starsPrice, now, Completed));
      }
      var profile := profileService.GetProfile();
      var purchase := Purchase(now, profile.userId, productId, product.starsPrice, now, Pending);
      purchase := purchase.(status := Completed);
      ProcessPurchase(product);
      purchases := purchases + [purchase];
      return Some(purchase);
    }

    /** `purchaseBattlePass`: refused without a pass; otherwise premium is unlocked on the pass and on the stored progress. */
    method PurchaseBattlePass() returns (ok: bool)
      modifies this`battlePass, profileService`profile
      ensures ok <==> old(battlePass).Some?
      ensures !ok ==> battlePass == old(battlePass) && profileService.profile == old(profileService.profile)
      ensures ok ==>
        battlePass == Some(old(battlePass).value.(premiumUnlocked := true))
        && var p := Given(old(profileService.profile), profileService.defaultProfile);
           profileService.profile == Some(p.(battlePass := Some(StoredProgress(p, old(battlePass))
                                                                  .(premiumUnlocked := true))))
    {
      if battlePass.None? {
        return false;
      }
      battlePass := Some(battlePass.value.(premiumUnlocked := true));
      var progress := GetBattlePassProgress();
      progress := progress.(premiumUnlocked := true);
      UpdateBattlePassProgress(progress);
      return true;
    }

    /** `claimReward`. */
    method ClaimReward(reward: Reward)
      requires profileService.profile.Some?
      modifies profileService`profile
      ensures profileService.profile == Some(Claim(old(profileService.profile).value, reward))
    {
      match reward {
        case CoinsReward(n) =>
          profileService.AddCoins(n);
        case SkinReward(s) =>
          UnlockSkin(s);
        case _ =>
      }
    }

    /** `rewards.forEach(claimReward)`. */
    method ClaimRewards(rewards: seq<Reward>)
      requires profileService.profile.Some?
      modifies profileService`profile
      ensures profileService.profile == Some(ClaimAll(old(profileService.profile).value, rewards))
    {
      var i := 0;
      while i < |rewards|
        invariant 0 <= i <= |rewards|
        invariant profileService.profile == Some(ClaimAll(old(profileService.profile).value, rewards[..i]))
      {
        assert rewards[..i + 1][..i] == rewards[..i];
        ClaimReward(rewards[i]);
        i := i + 1;
      }
      assert rewards[..i] == rewards;
    }

    /** `levelUpBattlePass`. */
    method LevelUpBattlePass(progress: BattlePassProgress) returns (next: BattlePassProgress)
      requires battlePass.Some? && CanLevelUp(battlePass.value.levels, progress) && profileService.profile.Some?
      modifies profileService`profile
      ensures profileService.profile.Some?
      ensures Climbed(next, profileService.profile.value)
              == LevelUp(battlePass.value.levels, progress, old(profileService.profile).value)
    {
      next := progress.(currentLevel := progress.currentLevel + 1, currentXP := 0);
      var level := battlePass.value.levels[next.currentLevel];
      ClaimRewards(level.freeRewards);
      if next.premiumUnlocked {
        ClaimRewards(level.premiumRewards);
      } else {
        assert ClaimAll(profileService.profile.value, []) == profileService.profile.value;
      }
      next := next.(claimedLevels := next.claimedLevels + [next.currentLevel]);
    }

    /**
     * `addBattlePassXP`: nothing without a pass; otherwise the XP is added
     * to the stored progress (created when missing), the pass climbs as far
     * as the XP allows, and the result is stored.
     */
    method AddBattlePassXP(amount: int)
      modifies profileService`profile
      ensures battlePass.None? ==> profileService.profile == old(profileService.profile)
      ensures battlePass.Some? ==>
        var p := Given(old(profileService.profile), profileService.defaultProfile);
        var start := StoredProgress(p, battlePass);
        var c := Climb(battlePass.value.levels, start.(currentXP := start.currentXP + amount), p);
        profileService.profile == Some(c.profile.(battlePass := Some(c.progress)))
    {
      if battlePass.None? {
        return;
      }
      var levels := battlePass.value.levels;
      var progress := GetBattlePassProgress();
      progress := progress.(currentXP := progress.currentXP + amount);
      ghost var goal := Climb(levels, progress, profileService.profile.value);
      while CanLevelUp(levels, progress)
        invariant profileService.profile.Some?
        invariant Climb(levels, progress, profileService.profile.value) == goal
        decreases |levels| - progress.currentLevel
      {
        progress := LevelUpBattlePass(progress);
      }
      UpdateBattlePassProgress(progress);
    }

    function GetAvailableProducts(): (r: seq<StarsProduct>)
      reads this
      requires MapValid(products)
      ensures |r| == |products.keys|
      ensures forall i :: 0 <= i < |r| ==> r[i] == products.entries[products.keys[i]]
    {
      Values(products)
    }

    function GetAvailableSkins(): (r: seq<TowerSkin>)
      reads this
      requires MapValid(towerSkins)
      ensures |r| == |towerSkins.keys|
      ensures forall i :: 0 <= i < |r| ==> r[i] == towerSkins.entries[towerSkins.keys[i]]
    {
      Values(towerSkins)
    }
  }

  /** The progress stored on a profile, or a fresh one for the current pass. */
  function StoredProgress(p: Profile, pass: Option<BattlePass>): (r: BattlePassProgress)
    ensures p.battlePass.Some? ==> r == p.battlePass.value
    ensures p.battlePass.None? ==> r.currentLevel == 0 && r.currentXP == 0 && r.claimedLevels == [] && !r.premiumUnlocked
  {
    if p.battlePass.Some? then p.battlePass.value
    else BattlePassProgress(if pass.Some? then "pass_" + IntString(pass.value.stamp) else "", 0, 0, [], false)
  }

  /** `createBattlePass`: the configured season and levels, with the level, XP and premium flag of the stored progress. */
  function NewPass(config: BattlePassConfig, now: int, progress: BattlePassProgress): (b: BattlePass)
    ensures b.levels == config.levels && b.season == config.currentSeason
    ensures b.currentLevel == progress.currentLevel && b.currentXP == progress.currentXP
    ensures b.premiumUnlocked == progress.premiumUnlocked
    ensures b.endTime - b.startTime == 30 * DayMillis
  {
    BattlePass(now, config.currentSeason, now, now + 30 * DayMillis, config.levels, progress.currentLevel,
               progress.currentXP, progress.premiumUnlocked)
  }
}
