/**
 * The reward and level-up rule that the quest board, the post composer and the home screen
 * each spell out in their own handler: add the experience, compare against `level * 100`,
 * and on reaching it gain one level, keep the remainder and collect the level-up bonus.
 */
module Progress {
  import opened Wrappers
  import Leaderboard

  /** The part of the signed-in user's record that rewards change. */
  datatype Standing = Standing(level: int, xp: int, gold: int, gems: int)

  /** What one action grants before the level-up bonus. */
  datatype Reward = Reward(xp: int, gold: int, gems: int)

  const XpPerLevel := 100
  const LevelUpGold := 50
  const LevelUpGems := 5

  /** `user.level! * 100`: the experience at which the current level is left. */
  function Threshold(level: int): int {
    level * XpPerLevel
  }

  /** `user.level || 1`: JavaScript turns a zero level into 1 before adding one. */
  function OrOne(level: int): (r: int)
    ensures r != 0
    ensures level != 0 ==> r == level
  {
    if level == 0 then 1 else level
  }

  /** `Math.floor(x * 1.5)`, exactly, for every integer amount. */
  function Boost(x: int): (r: int)
    ensures 2 * r <= 3 * x < 2 * r + 2
  {
    (3 * x) / 2
  }

  /** `list && cls && list.includes(cls)`: an absent list or an empty class never qualifies. */
  predicate HasClassBonus(list: Option<seq<string>>, cls: string) {
    list.Some? && cls != "" && cls in list.value
  }

  /** Whether granting `r` reaches the threshold of the current level. */
  predicate LevelsUp(s: Standing, r: Reward) {
    s.xp + r.xp >= Threshold(s.level)
  }

  /** The shared rule: at most one level per action, the remainder carried over. */
  function Resolve(s: Standing, r: Reward): (t: Standing)
    ensures LevelsUp(s, r) ==> t.level == OrOne(s.level) + 1 && t.xp == s.xp + r.xp - Threshold(s.level)
    ensures !LevelsUp(s, r) ==> t.level == s.level && t.xp == s.xp + r.xp
    ensures t.gold == s.gold + r.gold + (if LevelsUp(s, r) then LevelUpGold else 0)
    ensures t.gems == s.gems + r.gems + (if LevelsUp(s, r) then LevelUpGems else 0)
  {
    var newXP := s.xp + r.xp;
    var xpForNextLevel := Threshold(s.level);
    if newXP >= xpForNextLevel then
      Standing(OrOne(s.level) + 1, newXP - xpForNextLevel, s.gold + r.gold + LevelUpGold, s.gems + r.gems + LevelUpGems)
    else
      Standing(s.level, newXP, s.gold + r.gold, s.gems + r.gems)
  }

  /** The state every handler assumes of a live user: a real level and experience below its threshold. */
  predicate WellFormed(s: Standing) {
    s.level >= 1 && 0 <= s.xp < Threshold(s.level)
  }

  /**
   * One action never gains more than one level, even when the leftover experience already
   * reaches the next threshold.
   */
  lemma ResolveAtMostOneLevel(s: Standing, r: Reward)
    requires s.level >= 1
    ensures var t := Resolve(s, r); t.level == s.level || t.level == s.level + 1
    ensures var t := Resolve(s, r); t.level == s.level + 1 <==> LevelsUp(s, r)
  {
  }

  /** A weekly quest with the class bonus lifts a fresh level-1 user to level 2 with 200 XP left, already the level-2 threshold. */
  lemma LeftoverCanReachNextThreshold()
    ensures var t := Resolve(Standing(1, 0, 0, 0), Reward(Boost(200), Boost(100), 5));
      && t == Standing(2, 200, 200, 10)
      && t.xp >= Threshold(t.level)
  {
  }

  /**
   * Starting well formed at level `L` and gaining a non-negative amount, the result is well
   * formed exactly when `xp + gain` stays below what clearing this level and the next costs,
   * `100 * (2L + 1)`.
   */
  lemma {:induction false} ResolveWellFormedIff(s: Standing, r: Reward)
    requires WellFormed(s) && r.xp >= 0
    ensures WellFormed(Resolve(s, r)) <==> s.xp + r.xp < XpPerLevel * (2 * s.level + 1)
  {
    var t := Resolve(s, r);
    if LevelsUp(s, r) {
      assert t.level == s.level + 1;
      assert Threshold(t.level) == Threshold(s.level) + XpPerLevel;
    } else {
      assert Threshold(s.level) <= XpPerLevel * (2 * s.level + 1);
    }
  }

  /** Any gain of at most one hundred XP keeps a well-formed user well formed. */
  lemma SmallGainKeepsWellFormed(s: Standing, r: Reward)
    requires WellFormed(s) && 0 <= r.xp <= XpPerLevel
    ensures WellFormed(Resolve(s, r))
  {
    ResolveWellFormedIff(s, r);
  }

  /**
   * Experience earned in total to stand at `level` with `xp`, given the thresholds 100, 200,
   * 300, ...: `100 + 200 + ... + 100 * (level - 1)` is `50 * level * (level - 1)`.
   */
  function Cumulative(level: int, xp: int): int {
    (XpPerLevel / 2) * (level * (level - 1)) + xp
  }

  /** Each action adds exactly its experience to the cumulative total: nothing is lost on a level-up. */
  lemma {:induction false} ResolveConservesExperience(s: Standing, r: Reward)
    requires s.level >= 1
    ensures Cumulative(Resolve(s, r).level, Resolve(s, r).xp) == Cumulative(s.level, s.xp) + r.xp
  {
    var l := s.level;
    if LevelsUp(s, r) {
      assert OrOne(l) == l;
      assert (l + 1) * ((l + 1) - 1) == l * (l - 1) + 2 * l;
    }
  }

  /**
   * The leaderboard's `(level - 1) * 100 + xp` equals the cumulative experience only at
   * levels 1 and 2.
   */
  lemma {:induction false} LeaderboardTotalMatchesOnlyEarlyLevels(level: int, xp: int)
    ensures Leaderboard.TotalXPFormula(level, xp) == Cumulative(level, xp) <==> level == 1 || level == 2
  {
    var l := level;
    assert l * (l - 1) - 2 * (l - 1) == (l - 1) * (l - 2);
    assert Cumulative(l, xp) - Leaderboard.TotalXPFormula(l, xp) == 50 * ((l - 1) * (l - 2));
    if l != 1 && l != 2 {
      NonZeroProduct(l - 1, l - 2);
    }
  }

  lemma NonZeroProduct(a: int, b: int)
    requires a != 0 && b != 0
    ensures a * b != 0
  {
  }

  /** A level-up from level 2 lowers the leaderboard total: 190 XP plus 25 goes from 290 to 215. */
  lemma LeaderboardTotalCanDrop()
    ensures var s := Standing(2, 190, 0, 0);
      var t := Resolve(s, Reward(25, 0, 0));
      && t == Standing(3, 15, 50, 5)
      && Leaderboard.TotalXPFormula(s.level, s.xp) == 290
      && Leaderboard.TotalXPFormula(t.level, t.xp) == 215
  {
  }

  /** The signed-in user's record, whose fields `updateUser` overwrites. */
  class Player {
    const id: string
    const username: string
    const cls: string
    var level: int
    var xp: int
    var gold: int
    var gems: int

    constructor (id: string, username: string, cls: string, s: Standing)
      ensures this.id == id && this.username == username && this.cls == cls
      ensures Current() == s
    {
      this.id := id;
      this.username := username;
      this.cls := cls;
      level := s.level;
      xp := s.xp;
      gold := s.gold;
      gems := s.gems;
    }

    function Current(): Standing
      reads this
    {
      Standing(level, xp, gold, gems)
    }
  }
}
