/**
 * The post store: the feed's posts, newest first, with likes and comments, and the fixed
 * table of zones a post can belong to, each opened at some level.
 */
module Posts {
  import opened Wrappers
  import Text

  /** A comment; `createdAt` is a millisecond timestamp. */
  datatype Comment = Comment(id: string, userId: string, username: string, content: string, createdAt: int)

  /** A post; `createdAt` is a millisecond timestamp. */
  datatype Post = Post(
    id: string,
    userId: string,
    username: string,
    userClass: string,
    content: string,
    imageUri: Option<string>,
    zone: string,
    likes: int,
    comments: seq<Comment>,
    createdAt: int,
    xpEarned: int)

  datatype Zone = Zone(id: string, name: string, description: string, requiredLevel: int, classBonus: Option<seq<string>>)

  /** The seven zones, in table order. */
  const AllZones: seq<Zone> := [
    Zone("artisan_valley", "Artisan's Valley", "Art, crafts, and creative content", 1, Some(["mage"])),
    Zone("arena_trends", "Arena of Trends", "Trending challenges and viral content", 1, Some(["rogue"])),
    Zone("the_library", "The Library", "Educational and insightful content", 1, Some(["mage"])),
    Zone("training_grounds", "Training Grounds", "Fitness, sports, and physical activities", 1, Some(["warrior"])),
    Zone("sanctuary", "The Sanctuary", "Support, kindness, and community", 1, Some(["cleric"])),
    Zone("mystic_realm", "Mystic Realm", "Advanced magical content", 5, Some(["mage"])),
    Zone("champions_hall", "Champions Hall", "Elite achievements and competitions", 10, Some(["warrior", "rogue"]))
  ]

  /** Fixed author fields of everything written from this device. */
  const CurrentUserId := "current-user"
  const CurrentUsername := "You"
  const PostXp := 25

  /** The post `createPost(content, zone, imageUri)` builds at instant `now` (also its id). */
  function NewPost(content: string, zone: string, imageUri: Option<string>, now: nat): (p: Post)
    ensures p.content == content && p.zone == zone && p.imageUri == imageUri
    ensures p.likes == 0 && p.comments == [] && p.xpEarned == PostXp
    ensures p.id == Text.NatToString(now) && p.createdAt == now
  {
    Post(Text.NatToString(now), CurrentUserId, CurrentUsername, "warrior", content, imageUri, zone, 0, [], now, PostXp)
  }

  /** The comment `addComment(postId, content)` builds at instant `now`. */
  function NewComment(content: string, now: nat): (c: Comment)
    ensures c.content == content && c.id == Text.NatToString(now) && c.createdAt == now
  {
    Comment(Text.NatToString(now), CurrentUserId, CurrentUsername, content, now)
  }

  /** `createPost`: the new post first, then the old posts as they were. */
  function Created(posts: seq<Post>, p: Post): (r: seq<Post>)
    ensures |r| == |posts| + 1 && r[0] == p && r[1..] == posts
  {
    [p] + posts
  }

  /** `likePost(postId)`: one more like on every post with that id. */
  function Liked(posts: seq<Post>, postId: string): (r: seq<Post>)
    ensures |r| == |posts|
    ensures forall i :: 0 <= i < |posts| && posts[i].id != postId ==> r[i] == posts[i]
    ensures forall i :: 0 <= i < |posts| && posts[i].id == postId ==>
      r[i].likes == posts[i].likes + 1 && r[i].(likes := posts[i].likes) == posts[i]
  {
    if posts == [] then []
    else
      [if posts[0].id == postId then posts[0].(likes := posts[0].likes + 1) else posts[0]]
      + Liked(posts[1..], postId)
  }

  /** `addComment(postId, ...)`: the comment appended to every post with that id. */
  function Commented(posts: seq<Post>, postId: string, c: Comment): (r: seq<Post>)
    ensures |r| == |posts|
    ensures forall i :: 0 <= i < |posts| && posts[i].id != postId ==> r[i] == posts[i]
    ensures forall i :: 0 <= i < |posts| && posts[i].id == postId ==>
      r[i].comments == posts[i].comments + [c] && r[i].(comments := posts[i].comments) == posts[i]
  {
    if posts == [] then []
    else
      [if posts[0].id == postId then posts[0].(comments := posts[0].comments + [c]) else posts[0]]
      + Commented(posts[1..], postId, c)
  }

  /** A comment keeps the earlier comments in order and adds exactly one. */
  lemma CommentAppends(posts: seq<Post>, postId: string, c: Comment, i: int)
    requires 0 <= i < |posts| && posts[i].id == postId
    ensures var r := Commented(posts, postId, c);
      && |r[i].comments| == |posts[i].comments| + 1
      && r[i].comments[..|posts[i].comments|] == posts[i].comments
      && r[i].comments[|posts[i].comments|] == c
  {
    var r := Commented(posts, postId, c);
    assert r[i].comments == posts[i].comments + [c];
  }

  /** With an id no post has, liking and commenting change nothing. */
  lemma {:induction false} UnknownPostUnchanged(posts: seq<Post>, postId: string, c: Comment)
    requires forall p :: p in posts ==> p.id != postId
    ensures Liked(posts, postId) == posts
    ensures Commented(posts, postId, c) == posts
  {
    assert forall i :: 0 <= i < |posts| ==> posts[i] in posts;
  }

  /** `getPostsByZone(zoneId)`. */
  function PostsByZone(posts: seq<Post>, zoneId: string): (r: seq<Post>)
    ensures |r| <= |posts|
  {
    if posts == [] then [] else (if posts[0].zone == zoneId then [posts[0]] else []) + PostsByZone(posts[1..], zoneId)
  }

  /** Exactly the posts of the zone are selected. */
  lemma {:induction false} PostsByZoneMembers(posts: seq<Post>, zoneId: string)
    ensures forall p :: p in PostsByZone(posts, zoneId) <==> p in posts && p.zone == zoneId
  {
    if posts != [] {
      PostsByZoneMembers(posts[1..], zoneId);
      assert posts == [posts[0]] + posts[1..];
    }
  }

  /** The selection of a list with a given first post. */
  lemma PostsByZoneCons(p: Post, t: seq<Post>, zoneId: string)
    ensures PostsByZone([p] + t, zoneId) == (if p.zone == zoneId then [p] else []) + PostsByZone(t, zoneId)
  {
    assert ([p] + t)[1..] == t;
  }

  /** The selection works piecewise, so it keeps the feed's order. */
  lemma {:induction false} PostsByZoneConcat(a: seq<Post>, b: seq<Post>, zoneId: string)
    ensures PostsByZone(a + b, zoneId) == PostsByZone(a, zoneId) + PostsByZone(b, zoneId)
  {
    if a == [] {
      assert a + b == b;
    } else {
      var t := a[1..];
      assert a == [a[0]] + t;
      assert a + b == [a[0]] + (t + b);
      PostsByZoneConcat(t, b, zoneId);
      PostsByZoneCons(a[0], t + b, zoneId);
      PostsByZoneCons(a[0], t, zoneId);
      var head := if a[0].zone == zoneId then [a[0]] else [];
      assert head + (PostsByZone(t, zoneId) + PostsByZone(b, zoneId))
        == (head + PostsByZone(t, zoneId)) + PostsByZone(b, zoneId);
    }
  }

  /** A new post shows up first in its own zone and nowhere else. */
  lemma CreatedInZone(posts: seq<Post>, p: Post, zoneId: string)
    ensures PostsByZone(Created(posts, p), zoneId) == (if p.zone == zoneId then [p] else []) + PostsByZone(posts, zoneId)
  {
    PostsByZoneConcat([p], posts, zoneId);
  }

  /** `allZones.filter(zone => zone.requiredLevel <= userLevel)`. */
  function ZonesUpTo(zones: seq<Zone>, level: int): (r: seq<Zone>)
    ensures |r| <= |zones|
    ensures forall z :: z in r ==> z in zones && z.requiredLevel <= level
  {
    if zones == [] then []
    else (if zones[0].requiredLevel <= level then [zones[0]] else []) + ZonesUpTo(zones[1..], level)
  }

  /** A zone is kept exactly when it is in the table and open at the level. */
  lemma {:induction false} ZonesUpToMembers(zones: seq<Zone>, level: int)
    ensures forall z :: z in ZonesUpTo(zones, level) <==> z in zones && z.requiredLevel <= level
  {
    if zones != [] {
      ZonesUpToMembers(zones[1..], level);
      assert zones == [zones[0]] + zones[1..];
    }
  }

  /** `getAvailableZones(userLevel)`: the zones of the table whose required level has been reached. */
  function AvailableZones(level: int): (r: seq<Zone>)
    ensures forall z :: z in r <==> z in AllZones && z.requiredLevel <= level
  {
    ZonesUpToMembers(AllZones, level);
    ZonesUpTo(AllZones, level)
  }

  /** The required levels never decrease along a table. */
  predicate LevelsAscending(zones: seq<Zone>) {
    forall i, j :: 0 <= i < j < |zones| ==> zones[i].requiredLevel <= zones[j].requiredLevel
  }

  /** The number of leading zones of a table open at `level`. */
  function OpenPrefix(zones: seq<Zone>, level: int): (k: nat)
    ensures k <= |zones|
  {
    if zones == [] || zones[0].requiredLevel > level then 0 else 1 + OpenPrefix(zones[1..], level)
  }

  /** In a table with ascending levels the open zones are a prefix of the table. */
  lemma {:induction false} ZonesUpToPrefix(zones: seq<Zone>, level: int)
    requires LevelsAscending(zones)
    ensures ZonesUpTo(zones, level) == zones[..OpenPrefix(zones, level)]
  {
    if zones != [] {
      if zones[0].requiredLevel <= level {
        ZonesUpToPrefix(zones[1..], level);
      } else {
        ZonesUpToNone(zones, level);
      }
    }
  }

  lemma {:induction false} ZonesUpToNone(zones: seq<Zone>, level: int)
    requires forall i :: 0 <= i < |zones| ==> zones[i].requiredLevel > level
    ensures ZonesUpTo(zones, level) == []
  {
    if zones != [] {
      ZonesUpToNone(zones[1..], level);
    }
  }

  /** The open zones depend on the level only through which of the steps 1, 5 and 10 it has reached. */
  function ZoneCount(level: int): nat {
    if level < 1 then 0 else if level < 5 then 5 else if level < 10 then 6 else 7
  }

  lemma AllZonesOpenPrefix(level: int)
    ensures OpenPrefix(AllZones, level) == ZoneCount(level)
  {
    var z := AllZones;
    assert z[7..] == [];
    assert OpenPrefix(z[6..], level) == if level < 10 then 0 else 1 by {
      assert z[6..][1..] == z[7..];
    }
    assert OpenPrefix(z[5..], level) == if level < 5 then 0 else 1 + OpenPrefix(z[6..], level) by {
      assert z[5..][1..] == z[6..];
    }
    assert OpenPrefix(z[4..], level) == if level < 1 then 0 else 1 + OpenPrefix(z[5..], level) by {
      assert z[4..][1..] == z[5..];
    }
    assert OpenPrefix(z[3..], level) == if level < 1 then 0 else 1 + OpenPrefix(z[4..], level) by {
      assert z[3..][1..] == z[4..];
    }
    assert OpenPrefix(z[2..], level) == if level < 1 then 0 else 1 + OpenPrefix(z[3..], level) by {
      assert z[2..][1..] == z[3..];
    }
    assert OpenPrefix(z[1..], level) == if level < 1 then 0 else 1 + OpenPrefix(z[2..], level) by {
      assert z[1..][1..] == z[2..];
    }
  }

  /**
   * The zones a user of `level` may post in: the first 0, 5, 6 or 7 zones of the table for
   * a level below 1, from 1 to 4, from 5 to 9 and from 10 up.
   */
  lemma AvailableZonesTable(level: int)
    ensures AvailableZones(level) == AllZones[..ZoneCount(level)]
  {
    assert LevelsAscending(AllZones);
    ZonesUpToPrefix(AllZones, level);
    AllZonesOpenPrefix(level);
  }

  /** A higher level never loses a zone: the lower level's zones are a prefix of the higher's. */
  lemma AvailableZonesMonotone(l1: int, l2: int)
    requires l1 <= l2
    ensures AvailableZones(l1) <= AvailableZones(l2)
  {
    AvailableZonesTable(l1);
    AvailableZonesTable(l2);
  }

  /** `zones.find(z => z.id === id)`. */
  function FindZone(zones: seq<Zone>, id: string): (r: Option<Zone>)
    ensures r.None? <==> forall z :: z in zones ==> z.id != id
    ensures r.Some? ==> r.value in zones && r.value.id == id
    ensures forall i :: 0 <= i < |zones| && zones[i].id == id && (forall j :: 0 <= j < i ==> zones[j].id != id) ==> r == Some(zones[i])
  {
    if zones == [] then None else if zones[0].id == id then Some(zones[0]) else FindZone(zones[1..], id)
  }

  // ---------------------------------------------------------------------------------------
  // The store
  // ---------------------------------------------------------------------------------------

  /** The provider's `posts` state. */
  class PostStore {
    var posts: seq<Post>

    /** The list as loaded (from storage, or the sample posts). */
    constructor (loaded: seq<Post>)
      ensures posts == loaded
    {
      posts := loaded;
    }

    /** `createPost(content, zone, imageUri)` at instant `now`. */
    method CreatePost(content: string, zone: string, imageUri: Option<string>, now: nat)
      modifies this
      ensures posts == Created(old(posts), NewPost(content, zone, imageUri, now))
    {
      var newPost := NewPost(content, zone, imageUri, now);
      posts := [newPost] + posts;
    }

    /** `likePost(postId)`. */
    method LikePost(postId: string)
      modifies this
      ensures posts == Liked(old(posts), postId)
    {
      posts := Liked(posts, postId);
    }

    /** `addComment(postId, content)` at instant `now`. */
    method AddComment(postId: string, content: string, now: nat)
      modifies this
      ensures posts == Commented(old(posts), postId, NewComment(content, now))
    {
      var newComment := NewComment(content, now);
      posts := Commented(posts, postId, newComment);
    }

    /** `getPostsByZone(zoneId)`. */
    function GetPostsByZone(zoneId: string): (r: seq<Post>)
      reads this
      ensures forall p :: p in r <==> p in posts && p.zone == zoneId
    {
      PostsByZoneMembers(posts, zoneId);
      PostsByZone(posts, zoneId)
    }
  }
}
