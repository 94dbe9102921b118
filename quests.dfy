/**
 * The quest store: the list of quests the quest board shows, with completion, progress
 * updates and the daily refresh. Every operation builds a new list and saves it as the state.
 */
module Quests {
  import opened Wrappers

  datatype QuestType = Daily | Weekly | Special

  datatype Difficulty = Easy | Medium | Hard

  /** A quest; `expiresAt` is a millisecond timestamp. */
  datatype Quest = Quest(
    id: string,
    title: string,
    description: string,
    questType: QuestType,
    difficulty: Difficulty,
    xpReward: int,
    goldReward: int,
    gemReward: Option<int>,
    requirements: seq<string>,
    progress: int,
    maxProgress: int,
    completed: bool,
    expiresAt: Option<int>,
    classBonus: Option<seq<string>>)

  /** Twenty-four hours in milliseconds, the lifetime of a generated daily quest. */
  const DayMs := 24 * 60 * 60 * 1000

  /** `generateDailyQuests()` at instant `now`: two open quests that expire a day later and a login quest already done. */
  function DailyQuests(now: int): (r: seq<Quest>)
    ensures |r| == 3
    ensures forall q :: q in r ==> q.questType == Daily
    ensures forall q :: q in r && q.expiresAt.Some? ==> q.expiresAt.value == now + DayMs
  {
    [ Quest("daily_post", "Share Your Adventure", "Post a photo or video to share your journey",
        Daily, Easy, 50, 25, None, ["Create 1 post"], 0, 1, false, Some(now + DayMs), None),
      Quest("daily_interact", "Spread Kindness", "Like and comment on other adventurers' posts",
        Daily, Easy, 30, 15, None, ["Like 5 posts", "Comment on 3 posts"], 0, 8, false, Some(now + DayMs), None),
      Quest("daily_login", "Daily Devotion", "Log in to Questagram every day this week",
        Daily, Easy, 20, 10, Some(1), ["Log in for 1 day"], 1, 1, true, None, None) ]
  }

  // ---------------------------------------------------------------------------------------
  // completeQuest and updateQuestProgress
  // ---------------------------------------------------------------------------------------

  /** A quest marked done: `completed` set and the progress filled up. */
  function Completed(q: Quest): (r: Quest)
    ensures r.completed && r.progress == r.maxProgress
    ensures r.(completed := q.completed, progress := q.progress) == q
  {
    q.(completed := true, progress := q.maxProgress)
  }

  /** The list after `completeQuest(questId)`. */
  function CompleteIn(qs: seq<Quest>, questId: string): (r: seq<Quest>)
    ensures |r| == |qs|
    ensures forall i :: 0 <= i < |qs| && qs[i].id != questId ==> r[i] == qs[i]
    ensures forall i :: 0 <= i < |qs| && qs[i].id == questId ==> r[i] == Completed(qs[i])
  {
    if qs == [] then []
    else [if qs[0].id == questId then Completed(qs[0]) else qs[0]] + CompleteIn(qs[1..], questId)
  }

  /** There is no guard for a quest already done: completing twice is completing once. */
  lemma CompleteIdempotent(qs: seq<Quest>, questId: string)
    ensures CompleteIn(CompleteIn(qs, questId), questId) == CompleteIn(qs, questId)
  {
  }

  /** A quest with its progress set to `p`: clamped to the maximum, done exactly when `p` reaches it. */
  function WithProgress(q: Quest, p: int): (r: Quest)
    ensures r.progress <= q.maxProgress && r.progress <= p
    ensures r.progress == p || r.progress == q.maxProgress
    ensures r.completed <==> p >= q.maxProgress
    ensures r.(completed := q.completed, progress := q.progress) == q
  {
    q.(progress := if p < q.maxProgress then p else q.maxProgress, completed := p >= q.maxProgress)
  }

  /** The list after `updateQuestProgress(questId, p)`. */
  function ProgressIn(qs: seq<Quest>, questId: string, p: int): (r: seq<Quest>)
    ensures |r| == |qs|
    ensures forall i :: 0 <= i < |qs| && qs[i].id != questId ==> r[i] == qs[i]
    ensures forall i :: 0 <= i < |qs| && qs[i].id == questId ==> r[i] == WithProgress(qs[i], p)
  {
    if qs == [] then []
    else [if qs[0].id == questId then WithProgress(qs[0], p) else qs[0]] + ProgressIn(qs[1..], questId, p)
  }

  /** A progress update below the maximum reopens a completed quest. */
  lemma ProgressCanReopen(q: Quest, p: int)
    requires q.completed && p < q.maxProgress
    ensures var r := ProgressIn([q], q.id, p); r[0].progress == p && !r[0].completed
  {
  }

  /** With an id no quest has, neither operation changes the list. */
  lemma {:induction false} UnknownQuestUnchanged(qs: seq<Quest>, questId: string, p: int)
    requires forall q :: q in qs ==> q.id != questId
    ensures CompleteIn(qs, questId) == qs
    ensures ProgressIn(qs, questId, p) == qs
  {
    assert forall i :: 0 <= i < |qs| ==> qs[i] in qs;
  }

  // ---------------------------------------------------------------------------------------
  // refreshQuests
  // ---------------------------------------------------------------------------------------

  /** The quests the refresh drops: daily ones that have an expiry earlier than `now`. */
  predicate Expired(q: Quest, now: int) {
    q.questType == Daily && q.expiresAt.Some? && q.expiresAt.value < now
  }

  /** `quests.filter(...)` keeping everything that has not expired. */
  function Unexpired(qs: seq<Quest>, now: int): (r: seq<Quest>)
    ensures |r| <= |qs|
  {
    if qs == [] then [] else (if Expired(qs[0], now) then [] else [qs[0]]) + Unexpired(qs[1..], now)
  }

  /** Exactly the quests that have not expired survive. */
  lemma {:induction false} UnexpiredMembers(qs: seq<Quest>, now: int)
    ensures forall q :: q in Unexpired(qs, now) <==> q in qs && !Expired(q, now)
  {
    if qs != [] {
      UnexpiredMembers(qs[1..], now);
      assert qs == [qs[0]] + qs[1..];
    }
  }

  /** The filter of a list with a given first quest. */
  lemma UnexpiredCons(x: Quest, t: seq<Quest>, now: int)
    ensures Unexpired([x] + t, now) == (if Expired(x, now) then [] else [x]) + Unexpired(t, now)
  {
    assert ([x] + t)[1..] == t;
  }

  /** The filter works piecewise, so survivors keep their original order. */
  lemma {:induction false} UnexpiredConcat(a: seq<Quest>, b: seq<Quest>, now: int)
    ensures Unexpired(a + b, now) == Unexpired(a, now) + Unexpired(b, now)
  {
    if a == [] {
      assert a + b == b;
    } else {
      var t := a[1..];
      assert a == [a[0]] + t;
      assert a + b == [a[0]] + (t + b);
      UnexpiredConcat(t, b, now);
      UnexpiredCons(a[0], t + b, now);
      UnexpiredCons(a[0], t, now);
      var head := if Expired(a[0], now) then [] else [a[0]];
      assert head + (Unexpired(t, now) + Unexpired(b, now)) == (head + Unexpired(t, now)) + Unexpired(b, now);
    }
  }

  /** When nothing has expired, the filter keeps the list as it is. */
  lemma {:induction false} UnexpiredNoneExpired(qs: seq<Quest>, now: int)
    requires forall q :: q in qs ==> !Expired(q, now)
    ensures Unexpired(qs, now) == qs
  {
    if qs != [] {
      assert qs[0] in qs;
      assert forall q :: q in qs[1..] ==> q in qs;
      UnexpiredNoneExpired(qs[1..], now);
    }
  }

  predicate HasDaily(qs: seq<Quest>) {
    exists q :: q in qs && q.questType == Daily
  }

  /** The list after `refreshQuests()` at instant `now`. */
  function Refreshed(qs: seq<Quest>, now: int): (r: seq<Quest>)
    ensures HasDaily(r)
  {
    var kept := Unexpired(qs, now);
    if HasDaily(kept) then kept
    else
      assert DailyQuests(now)[0] in kept + DailyQuests(now);
      kept + DailyQuests(now)
  }

  /**
   * The refresh removes exactly the expired daily quests, in order, and appends the fresh
   * daily set only when no daily quest survived.
   */
  lemma RefreshedShape(qs: seq<Quest>, now: int)
    ensures var kept := Unexpired(qs, now);
      && (HasDaily(kept) ==> Refreshed(qs, now) == kept)
      && (!HasDaily(kept) ==> Refreshed(qs, now) == kept + DailyQuests(now))
      && (forall q :: q in kept <==> q in qs && !Expired(q, now))
  {
    UnexpiredMembers(qs, now);
  }

  /** A second refresh at the same instant changes nothing. */
  lemma RefreshIdempotent(qs: seq<Quest>, now: int)
    ensures Refreshed(Refreshed(qs, now), now) == Refreshed(qs, now)
  {
    var kept := Unexpired(qs, now);
    var r := Refreshed(qs, now);
    UnexpiredMembers(qs, now);
    assert forall q :: q in DailyQuests(now) ==> !Expired(q, now);
    assert forall q :: q in r ==> !Expired(q, now);
    UnexpiredNoneExpired(r, now);
  }

  // ---------------------------------------------------------------------------------------
  // The store
  // ---------------------------------------------------------------------------------------

  /** The provider's `quests` state. */
  class QuestStore {
    var quests: seq<Quest>

    /** The list as loaded (from storage, or the seeded daily and weekly quests). */
    constructor (loaded: seq<Quest>)
      ensures quests == loaded
    {
      quests := loaded;
    }

    /** `completeQuest(questId)`. */
    method CompleteQuest(questId: string)
      modifies this
      ensures quests == CompleteIn(old(quests), questId)
    {
      quests := CompleteIn(quests, questId);
    }

    /** `updateQuestProgress(questId, progress)`. */
    method UpdateQuestProgress(questId: string, progress: int)
      modifies this
      ensures quests == ProgressIn(old(quests), questId, progress)
    {
      quests := ProgressIn(quests, questId, progress);
    }

    /** `refreshQuests()`: filter, then push the daily set onto the filtered list when it has none. */
    method RefreshQuests(now: int)
      modifies this
      ensures quests == Refreshed(old(quests), now)
      ensures HasDaily(quests)
    {
      var updatedQuests := Unexpired(quests, now);
      if !HasDaily(updatedQuests) {
        updatedQuests := updatedQuests + DailyQuests(now);
      }
      quests := updatedQuests;
    }
  }
}
