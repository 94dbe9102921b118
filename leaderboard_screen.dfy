/**
 * The leaderboard screen: an overall tab and one tab per class, each listing at most twenty
 * players best first, with a medal for the top three ranks and `#rank` for the others.
 */
module LeaderboardScreen {
  import opened Wrappers
  import Text
  import opened Leaderboard

  datatype Tab = Overall | ClassTab(cls: string)

  /** How many players a tab lists. */
  const DisplayLimit := 20

  /** `getDisplayUsers()`; the overall tab goes through `getTopUsers`, which sorts the stored list. */
  method GetDisplayUsers(store: LeaderboardStore, tab: Tab) returns (shown: seq<Entry>)
    modifies store
    ensures tab.Overall? ==> shown == TopUsers(old(store.users), DisplayLimit) && store.users == SortByXP(old(store.users))
    ensures tab.ClassTab? ==> shown == TopUsersByClass(old(store.users), tab.cls, DisplayLimit) && store.users == old(store.users)
    ensures |shown| <= DisplayLimit
    ensures SortedByXP(shown)
    ensures forall e :: e in shown ==> e in old(store.users)
  {
    if tab.Overall? {
      shown := store.GetTopUsers(DisplayLimit);
    } else {
      shown := TopUsersByClass(store.users, tab.cls, DisplayLimit);
    }
  }

  /** The rank a row shows: the overall rank on the overall tab, the class rank on a class tab. */
  function DisplayedRank(tab: Tab, e: Entry): int {
    if tab.Overall? then e.rank else e.classRank
  }

  /** Whether a row gets the top-three styling. */
  predicate IsTopThree(rank: int) {
    rank <= 3
  }

  const FirstMedal := "\U{1F947}"
  const SecondMedal := "\U{1F948}"
  const ThirdMedal := "\U{1F949}"

  /** `getRankMedal(rank)`. */
  function RankMedal(rank: int): (m: string)
    ensures rank == 1 ==> m == FirstMedal
    ensures rank == 2 ==> m == SecondMedal
    ensures rank == 3 ==> m == ThirdMedal
    ensures !(1 <= rank <= 3) ==> m == "#" + Text.IntToString(rank)
  {
    match rank
    case 1 => FirstMedal
    case 2 => SecondMedal
    case 3 => ThirdMedal
    case _ => "#" + Text.IntToString(rank)
  }

  /** Different ranks never show the same label. */
  lemma RankMedalInjective(a: int, b: int)
    requires RankMedal(a) == RankMedal(b)
    ensures a == b
  {
    if !(1 <= a <= 3) && !(1 <= b <= 3) {
      assert Text.IntToString(a) == RankMedal(a)[1..];
      assert Text.IntToString(b) == RankMedal(b)[1..];
      Text.IntToStringInjective(a, b);
    }
  }

  /** For a real rank (1 or more), a medal is shown exactly when the row is styled as top three. */
  lemma MedalIffTopThree(rank: int)
    requires rank >= 1
    ensures RankMedal(rank)[0] != '#' <==> IsTopThree(rank)
  {
  }

  /** On a freshly ranked list the overall tab styles exactly the first three rows, with medals in order. */
  lemma OverallTopThree(s: seq<Entry>, i: int)
    requires 0 <= i < |CalculateRanks(s)|
    ensures var r := CalculateRanks(s);
      && (IsTopThree(DisplayedRank(Overall, r[i])) <==> i < 3)
      && RankMedal(DisplayedRank(Overall, r[i])) == RankMedal(i + 1)
  {
    CalculateRanksOrdered(s);
  }

  /** On a freshly ranked list with distinct ids, a class tab shows class ranks 1, 2, 3, ... down the rows. */
  lemma ClassTabRanksArePositions(s: seq<Entry>, c: string)
    requires UniqueIds(s)
    ensures var shown := TopUsersByClass(CalculateRanks(s), c, DisplayLimit);
      forall j :: 0 <= j < |shown| ==> DisplayedRank(ClassTab(c), shown[j]) == j + 1
  {
    var r := CalculateRanks(s);
    CalculateRanksOrdered(s);
    ClassOfSorted(r, c);
    SortSortedIdentity(ClassOf(r, c));
    CalculateRanksClassRanksContiguous(s, c);
    assert UsersByClass(r, c) == ClassOf(r, c);
  }

  /** `user ? getCurrentUserRank(user.id) : null`. */
  function CurrentUserRankFor(users: seq<Entry>, signedIn: Option<string>): (r: Option<UserRank>)
    ensures signedIn.None? ==> r.None?
    ensures signedIn.Some? ==> r == CurrentUserRank(users, signedIn.value)
  {
    match signedIn
    case None => None
    case Some(id) => CurrentUserRank(users, id)
  }
}
