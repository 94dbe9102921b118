/**
 * The leaderboard store (frontend/context/LeaderboardContext.tsx): one list of entries that
 * every write replaces with a freshly ranked copy. Ranking sorts by total XP, highest first,
 * with the engine's stable sort (ties keep their input order), gives every entry its 1-based
 * position as `rank`, and gives it its 1-based position among entries of its own class as
 * `classRank`.
 */
module Leaderboard {
  import opened Wrappers

  /** One leaderboard row: a denormalised copy of a user's progression plus the two ranks. */
  datatype Entry = Entry(
    id: string, username: string, cls: string,
    level: int, xp: int, totalXP: int,
    gold: int, gems: int, postsCount: int, questsCompleted: int,
    rank: int, classRank: int)

  /** What `getCurrentUserRank` returns for a user it finds. */
  datatype UserRank = UserRank(overall: int, classRank: int)

  /** A `Partial<LeaderboardUser>`: every field may be absent. */
  datatype StatsPatch = StatsPatch(
    id: Option<string>, username: Option<string>, cls: Option<string>,
    level: Option<int>, xp: Option<int>, totalXP: Option<int>,
    gold: Option<int>, gems: Option<int>, postsCount: Option<int>, questsCompleted: Option<int>,
    rank: Option<int>, classRank: Option<int>)

  /** Default `limit` of `getTopUsers` and of `getTopUsersByClass`. */
  const TopUsersDefaultLimit := 10
  const TopUsersByClassDefaultLimit := 5

  // ---------------------------------------------------------------------------------------
  // Sorting by total XP, highest first, stably
  // ---------------------------------------------------------------------------------------

  /** Non-increasing total XP: the order the comparator `b.totalXP - a.totalXP` produces. */
  predicate SortedByXP(s: seq<Entry>)
  {
    forall i, j :: 0 <= i < j < |s| ==> s[i].totalXP >= s[j].totalXP
  }

  /** Puts `e` in front of the first entry whose total XP does not exceed its own. */
  function Insert(e: Entry, s: seq<Entry>): (r: seq<Entry>)
    ensures |r| == |s| + 1
    ensures multiset(r) == multiset(s) + multiset{e}
  {
    if s == [] || e.totalXP >= s[0].totalXP then [e] + s
    else
      assert s == [s[0]] + s[1..];
      [s[0]] + Insert(e, s[1..])
  }

  lemma SortedCons(x: Entry, t: seq<Entry>)
    requires SortedByXP(t)
    requires forall y :: y in t ==> x.totalXP >= y.totalXP
    ensures SortedByXP([x] + t)
  {
    forall i, j | 0 <= i < j < |[x] + t| ensures ([x] + t)[i].totalXP >= ([x] + t)[j].totalXP {
      assert ([x] + t)[j] == t[j - 1];
      if i == 0 {
        assert t[j - 1] in t;
      } else {
        assert ([x] + t)[i] == t[i - 1];
      }
    }
  }

  lemma {:induction false} InsertSorted(e: Entry, s: seq<Entry>)
    requires SortedByXP(s)
    ensures SortedByXP(Insert(e, s))
  {
    if s == [] || e.totalXP >= s[0].totalXP {
      forall y | y in s ensures e.totalXP >= y.totalXP {
        var k :| 0 <= k < |s| && s[k] == y;
      }
      SortedCons(e, s);
    } else {
      assert SortedByXP(s[1..]) by {
        forall i, j | 0 <= i < j < |s[1..]| ensures s[1..][i].totalXP >= s[1..][j].totalXP {
          assert s[1..][i] == s[i + 1] && s[1..][j] == s[j + 1];
        }
      }
      InsertSorted(e, s[1..]);
      var t := Insert(e, s[1..]);
      forall y | y in t ensures s[0].totalXP >= y.totalXP {
        assert y in multiset(t);
        if y != e {
          assert y in multiset(s[1..]);
          var k :| 0 <= k < |s[1..]| && s[1..][k] == y;
          assert s[k + 1] == y;
        }
      }
      SortedCons(s[0], t);
    }
  }

  /**
   * `[...userList].sort((a, b) => b.totalXP - a.totalXP)`: a permutation of the input in
   * non-increasing total XP. Each entry is inserted in front of the equal ones already
   * placed, which come after it in the input, so the sort is stable (SortStable).
   */
  function SortByXP(s: seq<Entry>): (r: seq<Entry>)
    ensures |r| == |s|
    ensures multiset(r) == multiset(s)
    ensures SortedByXP(r)
  {
    if s == [] then []
    else
      assert s == [s[0]] + s[1..];
      var t := SortByXP(s[1..]);
      InsertSorted(s[0], t);
      Insert(s[0], t)
  }

  /** The entries whose total XP is exactly `k`, in list order. */
  function WithXP(s: seq<Entry>, k: int): seq<Entry>
  {
    if s == [] then [] else (if s[0].totalXP == k then [s[0]] else []) + WithXP(s[1..], k)
  }

  lemma WithXPCons(x: Entry, t: seq<Entry>, k: int)
    ensures WithXP([x] + t, k) == (if x.totalXP == k then [x] else []) + WithXP(t, k)
  {
    assert ([x] + t)[1..] == t;
  }

  lemma {:induction false} InsertStable(e: Entry, s: seq<Entry>, k: int)
    ensures WithXP(Insert(e, s), k) == (if e.totalXP == k then [e] else []) + WithXP(s, k)
  {
    if s == [] || e.totalXP >= s[0].totalXP {
      WithXPCons(e, s, k);
    } else {
      var h, t := s[0], s[1..];
      assert s == [h] + t;
      assert Insert(e, s) == [h] + Insert(e, t);
      InsertStable(e, t, k);
      WithXPCons(h, Insert(e, t), k);
      WithXPCons(h, t, k);
      var w := WithXP(t, k);
      var hs := if h.totalXP == k then [h] else [];
      var es := if e.totalXP == k then [e] else [];
      if hs == [] {
        assert hs + (es + w) == es + w == es + (hs + w);
      } else {
        assert es == [];
        assert hs + (es + w) == hs + w == es + (hs + w);
      }
    }
  }

  /** Stability: the sort keeps every group of equal-XP entries in its input order. */
  lemma {:induction false} SortStable(s: seq<Entry>, k: int)
    ensures WithXP(SortByXP(s), k) == WithXP(s, k)
  {
    if s != [] {
      SortStable(s[1..], k);
      InsertStable(s[0], SortByXP(s[1..]), k);
    }
  }

  /** Sorting an already sorted list changes nothing. */
  lemma {:induction false} SortSortedIdentity(s: seq<Entry>)
    requires SortedByXP(s)
    ensures SortByXP(s) == s
  {
    if s != [] {
      SortSortedIdentity(s[1..]);
      assert s == [s[0]] + s[1..];
    }
  }

  // ---------------------------------------------------------------------------------------
  // Projections and filters
  // ---------------------------------------------------------------------------------------

  /** An entry with its two rank fields cleared: what ranking must not change. */
  function Unranked(e: Entry): Entry
  {
    e.(rank := 0, classRank := 0)
  }

  function UnrankedAll(s: seq<Entry>): (r: seq<Entry>)
    ensures |r| == |s|
    ensures forall i :: 0 <= i < |s| ==> r[i] == Unranked(s[i])
  {
    if s == [] then [] else [Unranked(s[0])] + UnrankedAll(s[1..])
  }

  lemma {:induction false} InsertUnrankedPerm(e: Entry, s: seq<Entry>)
    ensures multiset(UnrankedAll(Insert(e, s))) == multiset(UnrankedAll(s)) + multiset{Unranked(e)}
  {
    if s == [] || e.totalXP >= s[0].totalXP {
      assert ([e] + s)[1..] == s;
    } else {
      InsertUnrankedPerm(e, s[1..]);
      assert ([s[0]] + Insert(e, s[1..]))[1..] == Insert(e, s[1..]);
    }
  }

  lemma {:induction false} SortUnrankedPerm(s: seq<Entry>)
    ensures multiset(UnrankedAll(SortByXP(s))) == multiset(UnrankedAll(s))
  {
    if s != [] {
      SortUnrankedPerm(s[1..]);
      InsertUnrankedPerm(s[0], SortByXP(s[1..]));
    }
  }

  lemma {:induction false} WithXPUnranked(s: seq<Entry>, k: int)
    ensures WithXP(UnrankedAll(s), k) == UnrankedAll(WithXP(s, k))
  {
    if s != [] {
      WithXPUnranked(s[1..], k);
      if s[0].totalXP == k {
        assert ([s[0]] + WithXP(s[1..], k))[1..] == WithXP(s[1..], k);
      }
    }
  }

  /** `users.filter(u => u.class === c)`. */
  function ClassOf(s: seq<Entry>, c: string): (r: seq<Entry>)
    ensures |r| <= |s|
  {
    if s == [] then [] else (if s[0].cls == c then [s[0]] else []) + ClassOf(s[1..], c)
  }

  /** Exactly the entries of class `c` survive the filter. */
  lemma {:induction false} ClassOfMembers(s: seq<Entry>, c: string)
    ensures forall x :: x in ClassOf(s, c) <==> x in s && x.cls == c
  {
    if s != [] {
      ClassOfMembers(s[1..], c);
      assert s == [s[0]] + s[1..];
    }
  }

  /** The number of entries of class `c`. */
  function CountClass(s: seq<Entry>, c: string): nat
  {
    |ClassOf(s, c)|
  }

  /** The filter on a list with a known first entry. */
  lemma ClassOfCons(x: Entry, t: seq<Entry>, c: string)
    ensures ClassOf([x] + t, c) == (if x.cls == c then [x] else []) + ClassOf(t, c)
  {
    assert ([x] + t)[1..] == t;
  }

  lemma {:induction false} ClassOfConcat(a: seq<Entry>, b: seq<Entry>, c: string)
    ensures ClassOf(a + b, c) == ClassOf(a, c) + ClassOf(b, c)
  {
    if a == [] {
      assert a + b == b;
    } else {
      var x, t := a[0], a[1..];
      assert a == [x] + t;
      assert a + b == [x] + (t + b);
      ClassOfConcat(t, b, c);
      ClassOfCons(x, t + b, c);
      ClassOfCons(x, t, c);
      var head := if x.cls == c then [x] else [];
      assert head + (ClassOf(t, c) + ClassOf(b, c)) == (head + ClassOf(t, c)) + ClassOf(b, c);
    }
  }

  lemma {:induction false} ClassOfSorted(s: seq<Entry>, c: string)
    requires SortedByXP(s)
    ensures SortedByXP(ClassOf(s, c))
  {
    if s != [] {
      assert SortedByXP(s[1..]) by {
        forall i, j | 0 <= i < j < |s[1..]| ensures s[1..][i].totalXP >= s[1..][j].totalXP {
          assert s[1..][i] == s[i + 1] && s[1..][j] == s[j + 1];
        }
      }
      ClassOfSorted(s[1..], c);
      var t := ClassOf(s[1..], c);
      if s[0].cls == c {
        ClassOfMembers(s[1..], c);
        forall y | y in t ensures s[0].totalXP >= y.totalXP {
          var k :| 0 <= k < |s[1..]| && s[1..][k] == y;
          assert s[k + 1] == y;
        }
        SortedCons(s[0], t);
      }
    }
  }

  /** The `j`-th entry of class `c` sits at a position preceded by exactly `j` such entries. */
  lemma {:induction false} ClassOfAt(s: seq<Entry>, c: string, j: nat)
    requires j < |ClassOf(s, c)|
    ensures exists i :: 0 <= i < |s| && s[i] == ClassOf(s, c)[j] && s[i].cls == c && CountClass(s[..i], c) == j
  {
    var t := s[1..];
    var head := if s[0].cls == c then [s[0]] else [];
    assert ClassOf(s, c) == head + ClassOf(t, c);
    if s[0].cls == c && j == 0 {
      assert s[..0] == [];
      assert s[0] == ClassOf(s, c)[0];
    } else {
      var j' := j - |head|;
      assert ClassOf(s, c)[j] == ClassOf(t, c)[j'];
      ClassOfAt(t, c, j');
      var i' :| 0 <= i' < |t| && t[i'] == ClassOf(t, c)[j'] && t[i'].cls == c && CountClass(t[..i'], c) == j';
      assert s[..i' + 1] == [s[0]] + t[..i'];
      ClassOfCons(s[0], t[..i'], c);
      assert CountClass(s[..i' + 1], c) == j;
      assert s[i' + 1] == t[i'];
    }
  }

  // ---------------------------------------------------------------------------------------
  // Identifiers
  // ---------------------------------------------------------------------------------------

  /** No two entries share an id. */
  predicate UniqueIds(s: seq<Entry>)
  {
    forall i, j :: 0 <= i < j < |s| ==> s[i].id != s[j].id
  }

  lemma ConsUnique(x: Entry, t: seq<Entry>)
    requires UniqueIds(t)
    requires forall y :: y in t ==> y.id != x.id
    ensures UniqueIds([x] + t)
  {
    forall i, j | 0 <= i < j < |[x] + t| ensures ([x] + t)[i].id != ([x] + t)[j].id {
      if i == 0 {
        assert ([x] + t)[j] == t[j - 1] && t[j - 1] in t;
      } else {
        assert ([x] + t)[i] == t[i - 1] && ([x] + t)[j] == t[j - 1];
      }
    }
  }

  lemma {:induction false} InsertUnique(e: Entry, s: seq<Entry>)
    requires UniqueIds(s)
    requires forall y :: y in s ==> y.id != e.id
    ensures UniqueIds(Insert(e, s))
  {
    if s == [] || e.totalXP >= s[0].totalXP {
      ConsUnique(e, s);
    } else {
      assert s == [s[0]] + s[1..];
      assert UniqueIds(s[1..]) by {
        forall i, j | 0 <= i < j < |s[1..]| ensures s[1..][i].id != s[1..][j].id {
          assert s[1..][i] == s[i + 1] && s[1..][j] == s[j + 1];
        }
      }
      InsertUnique(e, s[1..]);
      var t := Insert(e, s[1..]);
      forall y | y in t ensures y.id != s[0].id {
        assert y in multiset(t);
        if y != e {
          assert y in s[1..];
          var k :| 0 <= k < |s[1..]| && s[1..][k] == y;
          assert s[k + 1] == y;
        }
      }
      ConsUnique(s[0], t);
    }
  }

  lemma TailUnique(s: seq<Entry>)
    requires s != [] && UniqueIds(s)
    ensures UniqueIds(s[1..])
    ensures forall y :: y in s[1..] ==> y.id != s[0].id
  {
    forall i, j | 0 <= i < j < |s[1..]| ensures s[1..][i].id != s[1..][j].id {
      assert s[1..][i] == s[i + 1] && s[1..][j] == s[j + 1];
    }
    forall y | y in s[1..] ensures y.id != s[0].id {
      var k :| 0 <= k < |s[1..]| && s[1..][k] == y;
      assert s[k + 1] == y;
    }
  }

  lemma {:induction false} SortUnique(s: seq<Entry>)
    requires UniqueIds(s)
    ensures UniqueIds(SortByXP(s))
  {
    if s != [] {
      TailUnique(s);
      SortUnique(s[1..]);
      forall y | y in SortByXP(s[1..]) ensures y.id != s[0].id {
        assert y in multiset(SortByXP(s[1..]));
      }
      InsertUnique(s[0], SortByXP(s[1..]));
    }
  }

  lemma {:induction false} ClassOfUnique(s: seq<Entry>, c: string)
    requires UniqueIds(s)
    ensures UniqueIds(ClassOf(s, c))
  {
    if s != [] {
      TailUnique(s);
      ClassOfUnique(s[1..], c);
      if s[0].cls == c {
        ClassOfMembers(s[1..], c);
        ConsUnique(s[0], ClassOf(s[1..], c));
      }
    }
  }

  /** Membership in a non-empty list: the first entry or one of the rest. */
  lemma InCons(s: seq<Entry>)
    requires s != []
    ensures forall x :: x in s <==> x == s[0] || x in s[1..]
  {
    assert s == [s[0]] + s[1..];
  }

  /** Two lists with the same multiset have the same members. */
  lemma SameMembers(a: seq<Entry>, b: seq<Entry>)
    requires multiset(a) == multiset(b)
    ensures forall x :: x in a <==> x in b
  {
    forall x ensures x in a <==> x in b {
      assert x in a <==> x in multiset(a);
      assert x in b <==> x in multiset(b);
    }
  }

  /** `findIndex(u => u.id === id)`: the first position holding `id`, or -1. */
  function IndexOfId(s: seq<Entry>, id: string): (k: int)
    ensures -1 <= k < |s|
    ensures k == -1 <==> forall x :: x in s ==> x.id != id
    ensures 0 <= k ==> s[k].id == id && forall j :: 0 <= j < k ==> s[j].id != id
  {
    if s == [] then -1
    else if s[0].id == id then 0
    else
      var k := IndexOfId(s[1..], id);
      InCons(s);
      if k == -1 then -1 else k + 1
  }

  /** Same ids, classes and total XP position by position: all that ranking looks at. */
  predicate SameKeys(a: seq<Entry>, b: seq<Entry>)
  {
    && |a| == |b|
    && forall k :: 0 <= k < |a| ==> a[k].id == b[k].id && a[k].cls == b[k].cls && a[k].totalXP == b[k].totalXP
  }

  lemma {:induction false} ClassOfSameKeys(a: seq<Entry>, b: seq<Entry>, c: string)
    requires SameKeys(a, b)
    ensures SameKeys(ClassOf(a, c), ClassOf(b, c))
  {
    if a != [] {
      ClassOfSameKeys(a[1..], b[1..], c);
    }
  }

  lemma {:induction false} IndexOfIdSameKeys(a: seq<Entry>, b: seq<Entry>, id: string)
    requires SameKeys(a, b)
    ensures IndexOfId(a, id) == IndexOfId(b, id)
  {
    if a != [] {
      IndexOfIdSameKeys(a[1..], b[1..], id);
    }
  }

  // ---------------------------------------------------------------------------------------
  // calculateRanks
  // ---------------------------------------------------------------------------------------

  /** `sortedUsers.map((user, index) => ({...user, rank: index + 1}))`. */
  function WithOverallRanks(s: seq<Entry>): (r: seq<Entry>)
    ensures |r| == |s|
  {
    seq(|s|, i requires 0 <= i < |s| => s[i].(rank := i + 1))
  }

  /**
   * The class rank the source computes for the entry at `i`: filter the list to the entry's
   * class, sort that again, and take the first position holding the entry's id, plus one.
   */
  function ClassRankAt(s: seq<Entry>, i: int): (k: int)
    requires 0 <= i < |s|
    ensures 1 <= k <= CountClass(s, s[i].cls)
  {
    var sorted := SortByXP(ClassOf(s, s[i].cls));
    ClassOfMembers(s, s[i].cls);
    assert s[i] in multiset(sorted);
    IndexOfId(sorted, s[i].id) + 1
  }

  /** The class-rank map: only the class ranks change, each to a position within the class. */
  function WithClassRanks(s: seq<Entry>): (r: seq<Entry>)
    ensures |r| == |s|
    ensures forall i :: 0 <= i < |s| ==> r[i].(classRank := s[i].classRank) == s[i]
    ensures forall i :: 0 <= i < |s| ==> 1 <= r[i].classRank <= CountClass(s, s[i].cls)
  {
    seq(|s|, i requires 0 <= i < |s| => s[i].(classRank := ClassRankAt(s, i)))
  }

  /** `calculateRanks(userList)`. */
  function CalculateRanks(userList: seq<Entry>): (r: seq<Entry>)
    ensures |r| == |userList|
  {
    WithClassRanks(WithOverallRanks(SortByXP(userList)))
  }

  /** What ranking leaves of each sorted entry: everything but the two rank fields. */
  lemma RankedKeys(s: seq<Entry>)
    ensures var r, w := CalculateRanks(s), SortByXP(s);
      && SameKeys(r, w)
      && SameKeys(r, WithOverallRanks(w))
      && UnrankedAll(r) == UnrankedAll(w)
      && SortedByXP(r)
      && (forall i :: 0 <= i < |r| ==> r[i].rank == i + 1)
  {
    var r, w := CalculateRanks(s), SortByXP(s);
    assert forall k :: 0 <= k < |r| ==> Unranked(r[k]) == Unranked(w[k]);
  }

  /** Where each class rank comes from: the overall-ranked list, which is still sorted. */
  lemma RankedClassRanks(s: seq<Entry>)
    ensures var r, w := CalculateRanks(s), WithOverallRanks(SortByXP(s));
      && SortedByXP(w)
      && SameKeys(r, w)
      && (forall i :: 0 <= i < |r| ==> r[i] == w[i].(classRank := ClassRankAt(w, i)))
  {
    var w := WithOverallRanks(SortByXP(s));
    assert forall k :: 0 <= k < |w| ==> w[k].totalXP == SortByXP(s)[k].totalXP;
  }

  /** Distinct ids stay distinct through ranking. */
  lemma RankedUnique(s: seq<Entry>)
    requires UniqueIds(s)
    ensures UniqueIds(WithOverallRanks(SortByXP(s)))
    ensures UniqueIds(CalculateRanks(s))
  {
    SortUnique(s);
    var w := WithOverallRanks(SortByXP(s));
    assert forall k :: 0 <= k < |w| ==> w[k].id == SortByXP(s)[k].id;
    RankedKeys(s);
  }

  /**
   * Ranking permutes the list: same length, and apart from `rank` and `classRank` the same
   * entries with the same multiplicities.
   */
  lemma CalculateRanksPermutation(s: seq<Entry>)
    ensures |CalculateRanks(s)| == |s|
    ensures multiset(UnrankedAll(CalculateRanks(s))) == multiset(UnrankedAll(s))
  {
    RankedKeys(s);
    SortUnrankedPerm(s);
  }

  /**
   * The ranked list is in non-increasing total XP and `rank` is position + 1, so the ranks
   * are exactly 1..n; a strictly higher total XP always means a strictly better rank, and
   * rank 1 holds the maximum.
   */
  lemma CalculateRanksOrdered(s: seq<Entry>)
    ensures var r := CalculateRanks(s);
      && SortedByXP(r)
      && (forall i :: 0 <= i < |r| ==> r[i].rank == i + 1)
      && (forall i, j :: 0 <= i < |r| && 0 <= j < |r| && r[i].totalXP > r[j].totalXP ==> r[i].rank < r[j].rank)
      && (forall x :: x in s ==> r[0].totalXP >= x.totalXP)
  {
    RankedKeys(s);
    var r := CalculateRanks(s);
    HigherTotalBetterRank(r);
    FirstIsBest(s);
  }

  /** In a sorted list ranked by position, strictly more total XP means a strictly smaller rank. */
  lemma HigherTotalBetterRank(r: seq<Entry>)
    requires SortedByXP(r)
    requires forall i :: 0 <= i < |r| ==> r[i].rank == i + 1
    ensures forall i, j :: 0 <= i < |r| && 0 <= j < |r| && r[i].totalXP > r[j].totalXP ==> r[i].rank < r[j].rank
  {
    forall i, j | 0 <= j <= i < |r| ensures r[j].totalXP >= r[i].totalXP {
      if j < i {
        assert r[j].totalXP >= r[i].totalXP;
      }
    }
  }

  /** The first ranked entry holds the highest total XP of the input. */
  lemma FirstIsBest(s: seq<Entry>)
    ensures forall x :: x in s ==> CalculateRanks(s)[0].totalXP >= x.totalXP
  {
    var w := SortByXP(s);
    RankedKeys(s);
    forall x | x in s ensures CalculateRanks(s)[0].totalXP >= x.totalXP {
      assert x in multiset(w);
      var k :| 0 <= k < |w| && w[k] == x;
      assert w[0].totalXP >= w[k].totalXP;
    }
  }

  /** Entries with equal total XP keep their input order (the sort is stable). */
  lemma CalculateRanksStable(s: seq<Entry>, k: int)
    ensures WithXP(UnrankedAll(CalculateRanks(s)), k) == WithXP(UnrankedAll(s), k)
  {
    RankedKeys(s);
    WithXPUnranked(SortByXP(s), k);
    SortStable(s, k);
    WithXPUnranked(s, k);
  }

  lemma {:induction false} IndexOfIdAt(s: seq<Entry>, i: int)
    requires UniqueIds(s) && 0 <= i < |s|
    ensures IndexOfId(s, s[i].id) == i
  {
    if i > 0 {
      TailUnique(s);
      IndexOfIdAt(s[1..], i - 1);
    }
  }

  /** In a sorted list with unique ids, the class rank counts the same-class entries before. */
  lemma ClassRankAtCounts(w: seq<Entry>, i: int)
    requires SortedByXP(w) && UniqueIds(w) && 0 <= i < |w|
    ensures ClassRankAt(w, i) == CountClass(w[..i], w[i].cls) + 1
  {
    var c := w[i].cls;
    ClassOfSorted(w, c);
    SortSortedIdentity(ClassOf(w, c));
    assert w == w[..i] + [w[i]] + w[i + 1..];
    ClassOfConcat(w[..i] + [w[i]], w[i + 1..], c);
    ClassOfConcat(w[..i], [w[i]], c);
    assert ClassOf([w[i]], c) == [w[i]];
    var f := ClassOf(w, c);
    var p := |ClassOf(w[..i], c)|;
    assert f[p] == w[i];
    ClassOfUnique(w, c);
    IndexOfIdAt(f, p);
  }

  lemma CountClassSameKeys(a: seq<Entry>, b: seq<Entry>, c: string)
    requires SameKeys(a, b)
    ensures CountClass(a, c) == CountClass(b, c)
  {
    ClassOfSameKeys(a, b, c);
  }

  /**
   * With distinct ids, `classRank` is one more than the number of same-class entries ranked
   * above the entry.
   */
  lemma CalculateRanksClassRank(s: seq<Entry>)
    requires UniqueIds(s)
    ensures var r := CalculateRanks(s);
      forall i :: 0 <= i < |r| ==> r[i].classRank == 1 + CountClass(r[..i], r[i].cls)
  {
    var w := WithOverallRanks(SortByXP(s));
    var r := CalculateRanks(s);
    RankedClassRanks(s);
    RankedUnique(s);
    forall i | 0 <= i < |r|
      ensures r[i].classRank == 1 + CountClass(r[..i], r[i].cls)
    {
      ClassRankFromCounts(r, w, i);
    }
  }

  /** One step of the above: the rank map at `i` over a sorted list with distinct ids. */
  lemma ClassRankFromCounts(r: seq<Entry>, w: seq<Entry>, i: int)
    requires SortedByXP(w) && UniqueIds(w) && SameKeys(r, w) && 0 <= i < |r|
    requires r[i] == w[i].(classRank := ClassRankAt(w, i))
    ensures r[i].classRank == 1 + CountClass(r[..i], r[i].cls)
  {
    ClassRankAtCounts(w, i);
    assert SameKeys(r[..i], w[..i]);
    CountClassSameKeys(r[..i], w[..i], w[i].cls);
  }

  /** With distinct ids, the class ranks within each class are exactly 1..k, in list order. */
  lemma CalculateRanksClassRanksContiguous(s: seq<Entry>, c: string)
    requires UniqueIds(s)
    ensures forall j :: 0 <= j < CountClass(CalculateRanks(s), c) ==> ClassOf(CalculateRanks(s), c)[j].classRank == j + 1
  {
    var r := CalculateRanks(s);
    CalculateRanksClassRank(s);
    forall j | 0 <= j < CountClass(r, c) ensures ClassOf(r, c)[j].classRank == j + 1 {
      ClassOfAt(r, c, j);
    }
  }

  /** Ranking a ranked list gives it back unchanged; so `refreshLeaderboard` ranks once. */
  lemma CalculateRanksIdempotent(s: seq<Entry>)
    ensures CalculateRanks(CalculateRanks(s)) == CalculateRanks(s)
  {
    var w := WithOverallRanks(SortByXP(s));
    var r := CalculateRanks(s);
    RankedKeys(s);
    RankedClassRanks(s);
    SortSortedIdentity(r);
    OverallRanksKept(r);
    ClassRanksKept(r, w);
  }

  /** A list already ranked by position keeps its overall ranks. */
  lemma OverallRanksKept(r: seq<Entry>)
    requires forall i :: 0 <= i < |r| ==> r[i].rank == i + 1
    ensures WithOverallRanks(r) == r
  {
  }

  /** A sorted list whose class ranks are those of a list with the same keys keeps them. */
  lemma ClassRanksKept(r: seq<Entry>, w: seq<Entry>)
    requires SortedByXP(r) && SortedByXP(w) && SameKeys(r, w)
    requires forall i :: 0 <= i < |r| ==> r[i].classRank == ClassRankAt(w, i)
    ensures WithClassRanks(r) == r
  {
    forall i | 0 <= i < |r| ensures ClassRankAt(r, i) == ClassRankAt(w, i) {
      SameClassRank(r, w, i);
    }
  }

  /** The class rank only depends on ids, classes and total XP, and not on the ranks. */
  lemma SameClassRank(r: seq<Entry>, w: seq<Entry>, i: int)
    requires SortedByXP(r) && SortedByXP(w) && SameKeys(r, w) && 0 <= i < |r|
    ensures ClassRankAt(r, i) == ClassRankAt(w, i)
  {
    var c := r[i].cls;
    ClassOfSameKeys(r, w, c);
    ClassOfSorted(r, c);
    ClassOfSorted(w, c);
    SortSortedIdentity(ClassOf(r, c));
    SortSortedIdentity(ClassOf(w, c));
    IndexOfIdSameKeys(ClassOf(r, c), ClassOf(w, c), r[i].id);
  }

  // ---------------------------------------------------------------------------------------
  // updateUserStats
  // ---------------------------------------------------------------------------------------

  /** The leaderboard's total-XP formula, `((level - 1) * 100) + xp`. */
  function TotalXPFormula(level: int, xp: int): int
  {
    (level - 1) * 100 + xp
  }

  /** The patch that names no field. */
  const NoChange := StatsPatch(None, None, None, None, None, None, None, None, None, None, None, None)

  /** `{ ...user, ...stats }`: a present patch field wins. */
  function Merge(e: Entry, p: StatsPatch): (r: Entry)
    ensures p == NoChange ==> r == e
    ensures p.id.Some? ==> r.id == p.id.value
    ensures p.id.None? ==> r.id == e.id
  {
    Entry(
      p.id.GetOr(e.id), p.username.GetOr(e.username), p.cls.GetOr(e.cls),
      p.level.GetOr(e.level), p.xp.GetOr(e.xp), p.totalXP.GetOr(e.totalXP),
      p.gold.GetOr(e.gold), p.gems.GetOr(e.gems), p.postsCount.GetOr(e.postsCount),
      p.questsCompleted.GetOr(e.questsCompleted), p.rank.GetOr(e.rank), p.classRank.GetOr(e.classRank))
  }

  /** Spreading the same patch a second time changes nothing more. */
  lemma MergeIdempotent(e: Entry, p: StatsPatch)
    ensures Merge(Merge(e, p), p) == Merge(e, p)
  {
  }

  /**
   * The update of one matching entry: the merge, with total XP recomputed from the patched
   * (or old) level and xp whenever the patch names either of them.
   */
  function ApplyStatsTo(e: Entry, p: StatsPatch): (r: Entry)
    ensures r.(totalXP := 0) == Merge(e, p).(totalXP := 0)
    ensures p.level.Some? || p.xp.Some? ==> r.totalXP == TotalXPFormula(r.level, r.xp)
    ensures p.level.None? && p.xp.None? ==> r == Merge(e, p)
  {
    var merged := Merge(e, p);
    if p.level.Some? || p.xp.Some? then
      merged.(totalXP := TotalXPFormula(p.level.GetOr(e.level), p.xp.GetOr(e.xp)))
    else merged
  }

  /** `users.map(user => user.id === userId ? <patched> : user)`. */
  function ApplyStats(users: seq<Entry>, userId: string, p: StatsPatch): (r: seq<Entry>)
    ensures |r| == |users|
    ensures forall i :: 0 <= i < |users| && users[i].id != userId ==> r[i] == users[i]
    ensures forall i :: 0 <= i < |users| && users[i].id == userId ==> r[i] == ApplyStatsTo(users[i], p)
  {
    if users == [] then []
    else [if users[0].id == userId then ApplyStatsTo(users[0], p) else users[0]] + ApplyStats(users[1..], userId, p)
  }

  /** An update for an id that no entry has leaves the list as it was. */
  lemma ApplyStatsUnknownId(users: seq<Entry>, userId: string, p: StatsPatch)
    requires forall x :: x in users ==> x.id != userId
    ensures ApplyStats(users, userId, p) == users
  {
    var r := ApplyStats(users, userId, p);
    assert forall i :: 0 <= i < |users| ==> users[i] in users;
  }

  // ---------------------------------------------------------------------------------------
  // Queries
  // ---------------------------------------------------------------------------------------

  /** `array.slice(0, limit)`: a negative limit counts back from the end. */
  function SliceEnd(n: nat, limit: int): (k: nat)
    ensures k <= n
    ensures 0 <= limit ==> k == if limit < n then limit else n
    ensures limit < 0 ==> k == if n + limit < 0 then 0 else n + limit
  {
    if limit < 0 then (if n + limit < 0 then 0 else n + limit)
    else if limit < n then limit else n
  }

  /** `s.slice(0, limit)`: the prefix of `s` that ends at `SliceEnd`. */
  function Slice(s: seq<Entry>, limit: int): (r: seq<Entry>)
    ensures |r| == SliceEnd(|s|, limit)
    ensures r <= s
  {
    s[..SliceEnd(|s|, limit)]
  }

  /** `getUsersByClass(c)`: every entry of class `c` and no other, best first. */
  function UsersByClass(users: seq<Entry>, c: string): (r: seq<Entry>)
    ensures SortedByXP(r)
    ensures forall x :: x in r <==> x in users && x.cls == c
    ensures multiset(r) == multiset(ClassOf(users, c))
  {
    var r := SortByXP(ClassOf(users, c));
    ClassOfMembers(users, c);
    assert forall x :: x in r <==> x in ClassOf(users, c) by {
      forall x ensures x in r <==> x in ClassOf(users, c) {
        assert x in r <==> x in multiset(r);
      }
    }
    r
  }

  /**
   * `getTopUsers(limit)`: the best `min(limit, n)` entries by total XP, in order (for a
   * non-negative limit).
   */
  function TopUsers(users: seq<Entry>, limit: int): (r: seq<Entry>)
    ensures |r| == SliceEnd(|users|, limit)
    ensures 0 <= limit ==> |r| == if limit < |users| then limit else |users|
    ensures SortedByXP(r)
    ensures multiset(r) <= multiset(users)
    ensures forall x :: x in r ==> x in users
    ensures forall x, y :: x in r && y in users && y !in r ==> x.totalXP >= y.totalXP
  {
    var sorted := SortByXP(users);
    var k := SliceEnd(|sorted|, limit);
    SameMembers(sorted, users);
    SortedPrefix(sorted, k);
    PrefixMultiset(sorted, k);
    var r := Slice(sorted, limit);
    assert r == sorted[..k];
    r
  }

  /** A prefix holds no entry more often than the whole list. */
  lemma PrefixMultiset(s: seq<Entry>, k: nat)
    requires k <= |s|
    ensures multiset(s[..k]) <= multiset(s)
  {
    assert s == s[..k] + s[k..];
  }

  /** The class filter holds no entry more often than the list. */
  lemma {:induction false} ClassOfSubMultiset(s: seq<Entry>, c: string)
    ensures multiset(ClassOf(s, c)) <= multiset(s)
  {
    if s != [] {
      var t := s[1..];
      assert s == [s[0]] + t;
      ClassOfSubMultiset(t, c);
      ClassOfCons(s[0], t, c);
      assert multiset(s) == multiset{s[0]} + multiset(t);
      assert multiset(ClassOf(s, c)) == multiset(if s[0].cls == c then [s[0]] else []) + multiset(ClassOf(t, c));
    }
  }

  /** A prefix of a sorted list is sorted and holds entries at least as good as all the others. */
  lemma SortedPrefix(s: seq<Entry>, k: nat)
    requires SortedByXP(s) && k <= |s|
    ensures SortedByXP(s[..k])
    ensures forall x :: x in s[..k] ==> x in s
    ensures forall x, y :: x in s[..k] && y in s && y !in s[..k] ==> x.totalXP >= y.totalXP
  {
    var p := s[..k];
    forall i, j | 0 <= i < j < |p| ensures p[i].totalXP >= p[j].totalXP {
      assert p[i] == s[i] && p[j] == s[j];
    }
    forall x | x in p ensures x in s {
      var a :| 0 <= a < k && p[a] == x;
      assert s[a] == x;
    }
    forall m | 0 <= m < k ensures s[m] in p {
      assert p[m] == s[m];
    }
    forall x, y | x in p && y in s && y !in p ensures x.totalXP >= y.totalXP {
      var a :| 0 <= a < k && p[a] == x;
      var b :| 0 <= b < |s| && s[b] == y;
      assert s[a] == x;
    }
  }

  /**
   * `getTopUsersByClass(c, limit)`: the best `min(limit, k)` of the `k` entries of class `c`
   * (for a non-negative limit), best first.
   */
  function TopUsersByClass(users: seq<Entry>, c: string, limit: int): (r: seq<Entry>)
    ensures |r| == SliceEnd(CountClass(users, c), limit)
    ensures 0 <= limit ==> |r| == if limit < CountClass(users, c) then limit else CountClass(users, c)
    ensures SortedByXP(r)
    ensures multiset(r) <= multiset(users)
    ensures forall x :: x in r ==> x in users && x.cls == c
    ensures forall x, y :: x in r && y in users && y.cls == c && y !in r ==> x.totalXP >= y.totalXP
  {
    var byClass := UsersByClass(users, c);
    assert |byClass| == CountClass(users, c) by {
      assert |multiset(byClass)| == |multiset(ClassOf(users, c))|;
    }
    var k := SliceEnd(|byClass|, limit);
    SortedPrefix(byClass, k);
    PrefixMultiset(byClass, k);
    ClassOfSubMultiset(users, c);
    var r := Slice(byClass, limit);
    assert r == byClass[..k];
    r
  }

  /** `users.find(u => u.id === id)`. */
  function FindById(users: seq<Entry>, id: string): (r: Option<Entry>)
    ensures r.None? <==> forall x :: x in users ==> x.id != id
    ensures r.Some? ==> r.value == users[IndexOfId(users, id)]
  {
    var k := IndexOfId(users, id);
    if k == -1 then None else Some(users[k])
  }

  /**
   * `getCurrentUserRank(id)`: absent exactly when no entry has the id; otherwise the stored
   * `rank` and `classRank` of the first entry that has it.
   */
  function CurrentUserRank(users: seq<Entry>, id: string): (r: Option<UserRank>)
    ensures r.None? <==> forall x :: x in users ==> x.id != id
    ensures r.Some? ==>
      exists i :: 0 <= i < |users| && users[i].id == id
        && r.value == UserRank(users[i].rank, users[i].classRank)
        && (forall j :: 0 <= j < i ==> users[j].id != id)
  {
    match FindById(users, id)
    case None => None
    case Some(u) => Some(UserRank(u.rank, u.classRank))
  }

  /** On a freshly ranked list with distinct ids, a user's overall rank is its position + 1. */
  lemma CurrentUserRankOfRanked(s: seq<Entry>, i: int)
    requires UniqueIds(s) && 0 <= i < |s|
    ensures CurrentUserRank(CalculateRanks(s), CalculateRanks(s)[i].id) == Some(UserRank(i + 1, CalculateRanks(s)[i].classRank))
  {
    var r := CalculateRanks(s);
    RankedUnique(s);
    RankedKeys(s);
    IndexOfIdAt(r, i);
    assert FindById(r, r[i].id) == Some(r[i]);
  }

  // ---------------------------------------------------------------------------------------
  // The store
  // ---------------------------------------------------------------------------------------

  /** The provider's `users` state; every write goes through `saveLeaderboard`. */
  class LeaderboardStore {
    var users: seq<Entry>

    /** The list as loaded (from storage, or the ranked sample list on first start). */
    constructor (loaded: seq<Entry>)
      ensures users == loaded
    {
      users := loaded;
    }

    /** `saveLeaderboard(updated)`: rank the list and make it the state. */
    method SaveLeaderboard(updated: seq<Entry>)
      modifies this
      ensures users == CalculateRanks(updated)
    {
      users := CalculateRanks(updated);
    }

    /** `updateUserStats(userId, stats)`: patch the matching entries, then save. */
    method UpdateUserStats(userId: string, stats: StatsPatch)
      modifies this
      ensures users == CalculateRanks(ApplyStats(old(users), userId, stats))
    {
      var updatedUsers := ApplyStats(users, userId, stats);
      SaveLeaderboard(updatedUsers);
    }

    /** `getTopUsers(limit)`: sorts the state list in place, then returns its first entries. */
    method GetTopUsers(limit: int) returns (top: seq<Entry>)
      modifies this
      ensures users == SortByXP(old(users))
      ensures top == TopUsers(old(users), limit)
    {
      users := SortByXP(users);
      top := Slice(users, limit);
    }

    /** `refreshLeaderboard()`: ranks twice, which is the same as ranking once. */
    method RefreshLeaderboard()
      modifies this
      ensures users == CalculateRanks(old(users))
    {
      var rankedUsers := CalculateRanks(users);
      SaveLeaderboard(rankedUsers);
      CalculateRanksIdempotent(old(users));
    }
  }
}
