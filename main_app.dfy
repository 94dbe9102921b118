/**
 * The home screen's "gain XP" button: a fixed 25 XP, no class bonus, through the shared
 * level-up rule.
 */
module MainApp {
  import opened Progress

  const GainXp := 25

  /** `handleGainXP()`: nothing without a signed-in user; otherwise 25 XP and, on a level-up, its bonus. */
  method HandleGainXP(user: Player?)
    modifies user
    ensures user != null ==> user.Current() == Resolve(old(user.Current()), Reward(GainXp, 0, 0))
    ensures user != null && WellFormed(old(user.Current())) ==> WellFormed(user.Current())
  {
    if user == null {
      return;
    }
    ghost var before := user.Current();
    var xpGain := GainXp;
    var newXP := user.xp + xpGain;
    var xpForNextLevel := Threshold(user.level);
    if newXP >= xpForNextLevel {
      user.level, user.xp := OrOne(user.level) + 1, newXP - xpForNextLevel;
      user.gold, user.gems := user.gold + LevelUpGold, user.gems + LevelUpGems;
    } else {
      user.xp := newXP;
    }
    if WellFormed(before) {
      SmallGainKeepsWellFormed(before, Reward(GainXp, 0, 0));
    }
  }

  /** The button never lifts a well-formed user by more than one level, and keeps the user well formed. */
  lemma GainXPKeepsWellFormed(s: Standing)
    requires WellFormed(s)
    ensures var t := Resolve(s, Reward(GainXp, 0, 0));
      && WellFormed(t)
      && (t.level == s.level + 1 <==> s.xp + GainXp >= Threshold(s.level))
      && Cumulative(t.level, t.xp) == Cumulative(s.level, s.xp) + GainXp
  {
    SmallGainKeepsWellFormed(s, Reward(GainXp, 0, 0));
    ResolveAtMostOneLevel(s, Reward(GainXp, 0, 0));
    ResolveConservesExperience(s, Reward(GainXp, 0, 0));
  }
}
