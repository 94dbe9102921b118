/**
 * The quest board screen: completing a quest pays its reward into the signed-in user's
 * record, with the class bonus and the level-up rule, and the board lists the quests in
 * daily, weekly and special groups, each card showing the reward it pays.
 */
module QuestBoard {
  import opened Wrappers
  import opened Quests
  import opened Progress

  /** The reward of completing `q` for a user of class `cls`: XP and gold boosted by half for a bonus class, gems never. */
  function QuestReward(q: Quest, cls: string): (r: Reward)
    ensures HasClassBonus(q.classBonus, cls) ==> r.xp == Boost(q.xpReward) && r.gold == Boost(q.goldReward)
    ensures !HasClassBonus(q.classBonus, cls) ==> r.xp == q.xpReward && r.gold == q.goldReward
    ensures r.gems == q.gemReward.GetOr(0)
  {
    if HasClassBonus(q.classBonus, cls) then Reward(Boost(q.xpReward), Boost(q.goldReward), q.gemReward.GetOr(0))
    else Reward(q.xpReward, q.goldReward, q.gemReward.GetOr(0))
  }

  /**
   * `handleCompleteQuest(quest)` once the dialog is confirmed: a quest already done is
   * ignored; otherwise the store marks it done and a signed-in user collects the reward.
   */
  method HandleCompleteQuest(store: QuestStore, user: Player?, quest: Quest)
    modifies store, user
    ensures quest.completed ==> store.quests == old(store.quests)
    ensures quest.completed && user != null ==> user.Current() == old(user.Current())
    ensures !quest.completed ==> store.quests == CompleteIn(old(store.quests), quest.id)
    ensures !quest.completed && user != null ==> user.Current() == Resolve(old(user.Current()), QuestReward(quest, user.cls))
  {
    if quest.completed {
      return;
    }
    store.CompleteQuest(quest.id);
    if user != null {
      var xpReward := quest.xpReward;
      var goldReward := quest.goldReward;
      var gemReward := quest.gemReward.GetOr(0);
      if HasClassBonus(quest.classBonus, user.cls) {
        xpReward := Boost(xpReward);
        goldReward := Boost(goldReward);
      }
      var newXP := user.xp + xpReward;
      var xpForNextLevel := Threshold(user.level);
      if newXP >= xpForNextLevel {
        user.level, user.xp := OrOne(user.level) + 1, newXP - xpForNextLevel;
        user.gold, user.gems := user.gold + goldReward + LevelUpGold, user.gems + gemReward + LevelUpGems;
      } else {
        user.xp, user.gold, user.gems := newXP, user.gold + goldReward, user.gems + gemReward;
      }
    }
  }

  /** What a quest card shows under "Rewards:"; the gem line only for a non-zero gem reward. */
  datatype ShownRewards = ShownRewards(xp: int, gold: int, gems: Option<int>)

  /** `renderQuest`'s reward row for the signed-in user's class (`None` when nobody is signed in). */
  function ShownRewardsFor(q: Quest, userClass: Option<string>): (d: ShownRewards)
    ensures userClass.None? ==> d.xp == q.xpReward && d.gold == q.goldReward
  {
    var isClassBonus := HasClassBonus(q.classBonus, userClass.GetOr(""));
    ShownRewards(
      if isClassBonus then Boost(q.xpReward) else q.xpReward,
      if isClassBonus then Boost(q.goldReward) else q.goldReward,
      if q.gemReward.Some? && q.gemReward.value != 0 then Some(q.gemReward.value) else None)
  }

  /** The card shows the amounts the handler pays: XP and gold exactly, and the gems whenever any are paid. */
  lemma ShownRewardsArePaid(q: Quest, cls: string)
    ensures var d, r := ShownRewardsFor(q, Some(cls)), QuestReward(q, cls);
      && d.xp == r.xp && d.gold == r.gold
      && (d.gems.Some? <==> r.gems != 0)
      && (d.gems.Some? ==> d.gems.value == r.gems)
  {
  }

  /** `quests.filter(q => q.type === t)`. */
  function OfType(qs: seq<Quest>, t: QuestType): (r: seq<Quest>)
    ensures |r| <= |qs|
  {
    if qs == [] then [] else (if qs[0].questType == t then [qs[0]] else []) + OfType(qs[1..], t)
  }

  /** Every quest lands in the group of its type and in no other. */
  lemma {:induction false} OfTypeMembers(qs: seq<Quest>, t: QuestType)
    ensures forall q :: q in OfType(qs, t) <==> q in qs && q.questType == t
  {
    if qs != [] {
      OfTypeMembers(qs[1..], t);
      assert qs == [qs[0]] + qs[1..];
    }
  }

  /** The group of a list with a given first quest. */
  lemma OfTypeCons(x: Quest, t: seq<Quest>, ty: QuestType)
    ensures OfType([x] + t, ty) == (if x.questType == ty then [x] else []) + OfType(t, ty)
  {
    assert ([x] + t)[1..] == t;
  }

  /** The same, counted as multisets. */
  lemma OfTypeConsMultiset(x: Quest, t: seq<Quest>, ty: QuestType)
    ensures multiset(OfType([x] + t, ty)) == (if x.questType == ty then multiset{x} else multiset{}) + multiset(OfType(t, ty))
  {
    OfTypeCons(x, t, ty);
  }

  /** Adding one element to exactly one of three parts adds it to their sum. */
  lemma AddToOnePart(x: Quest, a: multiset<Quest>, b: multiset<Quest>, c: multiset<Quest>,
                     ea: multiset<Quest>, eb: multiset<Quest>, ec: multiset<Quest>)
    requires ea + eb + ec == multiset{x}
    ensures (ea + a) + (eb + b) + (ec + c) == multiset{x} + (a + b + c)
  {
  }

  /** The daily, weekly and special groups together hold the list's quests, each as often as the list does. */
  lemma {:induction false} GroupsPartition(qs: seq<Quest>)
    ensures multiset(OfType(qs, Daily)) + multiset(OfType(qs, Weekly)) + multiset(OfType(qs, Special)) == multiset(qs)
  {
    if qs != [] {
      var q, rest := qs[0], qs[1..];
      GroupsPartition(rest);
      assert qs == [q] + rest;
      OfTypeConsMultiset(q, rest, Daily);
      OfTypeConsMultiset(q, rest, Weekly);
      OfTypeConsMultiset(q, rest, Special);
      var ed := if q.questType == Daily then multiset{q} else multiset{};
      var ew := if q.questType == Weekly then multiset{q} else multiset{};
      var es := if q.questType == Special then multiset{q} else multiset{};
      AddToOnePart(q, multiset(OfType(rest, Daily)), multiset(OfType(rest, Weekly)), multiset(OfType(rest, Special)), ed, ew, es);
      assert multiset(qs) == multiset{q} + multiset(rest);
    }
  }
}
