/**
 * The feed screen: the posts of the selected zone (or all of them), each with its age in
 * words and a preview of its first two comments.
 */
module Feed {
  import opened Wrappers
  import Text
  import opened Posts

  const HourMs := 1000 * 60 * 60

  /** The zone selection that shows every post. */
  const AllSelection := "all"

  /** `selectedZone === 'all' ? posts : getPostsByZone(selectedZone)`. */
  function DisplayPosts(posts: seq<Post>, selectedZone: string): (r: seq<Post>)
    ensures selectedZone == AllSelection ==> r == posts
    ensures selectedZone != AllSelection ==> r == PostsByZone(posts, selectedZone)
  {
    if selectedZone == AllSelection then posts else PostsByZone(posts, selectedZone)
  }

  /** A zone selection shows exactly that zone's posts, in feed order; a new post heads its own zone's list. */
  lemma DisplayPostsSelects(posts: seq<Post>, selectedZone: string, p: Post)
    requires selectedZone != AllSelection
    ensures forall q :: q in DisplayPosts(posts, selectedZone) <==> q in posts && q.zone == selectedZone
    ensures p.zone == selectedZone ==> DisplayPosts(Created(posts, p), selectedZone) == [p] + DisplayPosts(posts, selectedZone)
    ensures p.zone != selectedZone ==> DisplayPosts(Created(posts, p), selectedZone) == DisplayPosts(posts, selectedZone)
  {
    PostsByZoneMembers(posts, selectedZone);
    CreatedInZone(posts, p, selectedZone);
  }

  /**
   * `formatTimeAgo(date)` at instant `now`, both in milliseconds. `Math.floor` of the
   * quotient is Dafny's division, since the divisor is positive.
   */
  function FormatTimeAgo(now: int, created: int): (s: string)
    ensures now - created < HourMs ==> s == "Just now"
    ensures HourMs <= now - created < 24 * HourMs ==> s == Text.NatToString((now - created) / HourMs) + "h ago"
    ensures 24 * HourMs <= now - created ==> s == Text.NatToString((now - created) / (24 * HourMs)) + "d ago"
  {
    var diffInHours := (now - created) / HourMs;
    HoursFloor(now - created);
    if diffInHours < 1 then "Just now"
    else if diffInHours < 24 then Text.NatToString(diffInHours) + "h ago"
    else
      DaysFloor(now - created);
      Text.NatToString(diffInHours / 24) + "d ago"
  }

  /** The whole hours in `diff` milliseconds, rounded down, also for a negative difference. */
  lemma HoursFloor(diff: int)
    ensures diff / HourMs < 1 <==> diff < HourMs
    ensures diff / HourMs < 24 <==> diff < 24 * HourMs
  {
  }

  /** Whole days counted in whole hours are whole days counted in milliseconds. */
  lemma DaysFloor(diff: int)
    requires diff >= 0
    ensures diff / HourMs / 24 == diff / (24 * HourMs)
  {
    var h := diff / HourMs;
    var d := h / 24;
    assert d * 24 <= h < d * 24 + 24;
    assert h * HourMs <= diff < h * HourMs + HourMs;
    assert d * (24 * HourMs) <= diff < (d + 1) * (24 * HourMs);
  }

  /** What the age label tells apart. */
  datatype Age = JustNow | HoursAgo(hours: nat) | DaysAgo(days: nat)

  function AgeOf(now: int, created: int): Age {
    var diff := now - created;
    if diff < HourMs then JustNow
    else if diff < 24 * HourMs then HoursAgo(diff / HourMs)
    else DaysAgo(diff / (24 * HourMs))
  }

  /** The label of each bucket. */
  function AgeLabel(age: Age): string {
    match age
    case JustNow => "Just now"
    case HoursAgo(h) => Text.NatToString(h) + "h ago"
    case DaysAgo(d) => Text.NatToString(d) + "d ago"
  }

  /** The fifth character from the end tells the kind of bucket apart. */
  lemma AgeLabelKind(x: Age)
    ensures var l := AgeLabel(x);
      && |l| >= 5
      && l[|l| - 5] == (match x case JustNow => 't' case HoursAgo(_) => 'h' case DaysAgo(_) => 'd')
  {
  }

  /** Different buckets get different labels. */
  lemma AgeLabelInjective(x: Age, y: Age)
    requires AgeLabel(x) == AgeLabel(y)
    ensures x == y
  {
    var s, t := AgeLabel(x), AgeLabel(y);
    AgeLabelKind(x);
    AgeLabelKind(y);
    if x.HoursAgo? && y.HoursAgo? {
      assert Text.NatToString(x.hours) == s[..|s| - 5];
      assert Text.NatToString(y.hours) == t[..|t| - 5];
      Text.NatToStringInjective(x.hours, y.hours);
    } else if x.DaysAgo? && y.DaysAgo? {
      assert Text.NatToString(x.days) == s[..|s| - 5];
      assert Text.NatToString(y.days) == t[..|t| - 5];
      Text.NatToStringInjective(x.days, y.days);
    }
  }

  /**
   * The label names the age bucket and nothing else: two posts get the same label exactly
   * when their ages fall in the same bucket.
   */
  lemma FormatTimeAgoDeterminesAge(now: int, a: int, b: int)
    ensures FormatTimeAgo(now, a) == AgeLabel(AgeOf(now, a))
    ensures FormatTimeAgo(now, a) == FormatTimeAgo(now, b) <==> AgeOf(now, a) == AgeOf(now, b)
  {
    assert FormatTimeAgo(now, b) == AgeLabel(AgeOf(now, b));
    if FormatTimeAgo(now, a) == FormatTimeAgo(now, b) {
      AgeLabelInjective(AgeOf(now, a), AgeOf(now, b));
    }
  }

  /** How many comments a post card shows before the "more" line. */
  const PreviewCount := 2

  /** The comments block of a post card. */
  datatype CommentsPreview = CommentsPreview(shown: seq<Comment>, more: Option<string>)

  /** The comments block: absent without comments, else the first two and a line counting the rest. */
  function PreviewComments(comments: seq<Comment>): (r: Option<CommentsPreview>)
    ensures r.None? <==> comments == []
  {
    if |comments| == 0 then None
    else
      Some(CommentsPreview(
        comments[..if |comments| < PreviewCount then |comments| else PreviewCount],
        if |comments| > PreviewCount then Some("View " + Text.NatToString(|comments| - PreviewCount) + " more comments...") else None))
  }

  /**
   * The block shows the first `min(2, n)` comments in order, and its "more" line appears only
   * when some are hidden and counts exactly those.
   */
  lemma PreviewCommentsCounts(comments: seq<Comment>)
    requires comments != []
    ensures var p := PreviewComments(comments).value;
      && |p.shown| == (if |comments| < 2 then |comments| else 2)
      && p.shown <= comments
      && (p.more.Some? <==> |p.shown| < |comments|)
      && (p.more.Some? ==> p.more.value == "View " + Text.NatToString(|comments[|p.shown|..]|) + " more comments...")
  {
  }
}
