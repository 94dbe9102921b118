/**
 * The post composer: a post needs non-blank text and a zone; posting pays 25 XP, half as
 * much again in a zone that favours the user's class, through the shared level-up rule.
 */
module CreatePost {
  import opened Wrappers
  import Text
  import opened Posts
  import opened Progress

  /** How a press of the post button ends. */
  datatype PostOutcome =
    | EmptyPost
    | NoZoneSelected
    | Posted(xpGain: Option<int>)   // `None` when nobody is signed in

  const BaseXp := 25

  /** Whether posting in the zone `selectedZone`, looked up among `zones`, earns the class bonus. */
  predicate ZoneBonus(zones: seq<Zone>, selectedZone: string, cls: string) {
    var zone := FindZone(zones, selectedZone);
    zone.Some? && HasClassBonus(zone.value.classBonus, cls)
  }

  /** The XP a post earns: 25, or 37 with the zone's class bonus. */
  function PostXpGain(zones: seq<Zone>, selectedZone: string, cls: string): (g: int)
    ensures g == 25 || g == 37
    ensures g == 37 <==> ZoneBonus(zones, selectedZone, cls)
  {
    if ZoneBonus(zones, selectedZone, cls) then Boost(BaseXp) else BaseXp
  }

  /**
   * `handleCreatePost()` at instant `now`: blank text is refused first, then a missing zone;
   * both leave the posts and the user alone. Otherwise the post is created and a signed-in
   * user is paid through the level-up rule, with no currency reward apart from its bonus.
   */
  method HandleCreatePost(store: PostStore, user: Player?, content: string, selectedZone: string, imageUri: Option<string>, now: nat)
    returns (outcome: PostOutcome)
    modifies store, user
    ensures Text.IsBlank(content) ==> outcome == EmptyPost
    ensures !Text.IsBlank(content) && selectedZone == "" ==> outcome == NoZoneSelected
    ensures outcome.EmptyPost? || outcome.NoZoneSelected? ==> store.posts == old(store.posts)
    ensures outcome.EmptyPost? || outcome.NoZoneSelected? ==> user != null ==> user.Current() == old(user.Current())
    ensures outcome.Posted? <==> !Text.IsBlank(content) && selectedZone != ""
    ensures outcome.Posted? ==> store.posts == Created(old(store.posts), NewPost(content, selectedZone, imageUri, now))
    ensures outcome.Posted? && user == null ==> outcome.xpGain == None
    ensures outcome.Posted? && user != null ==>
      var gain := PostXpGain(AvailableZones(OrOne(old(user.level))), selectedZone, user.cls);
      && outcome.xpGain == Some(gain)
      && user.Current() == Resolve(old(user.Current()), Reward(gain, 0, 0))
  {
    if Text.IsBlank(content) {
      return EmptyPost;
    }
    if selectedZone == "" {
      return NoZoneSelected;
    }
    var availableZones := AvailableZones(if user == null then 1 else OrOne(user.level));
    store.CreatePost(content, selectedZone, imageUri, now);
    if user == null {
      return Posted(None);
    }
    var xpGain := AwardPostXp(user, availableZones, selectedZone);
    outcome := Posted(Some(xpGain));
  }

  /** The award branch of `handleCreatePost`: the XP for the zone, paid through the level-up rule. */
  method AwardPostXp(user: Player, availableZones: seq<Zone>, selectedZone: string) returns (xpGain: int)
    modifies user
    ensures xpGain == PostXpGain(availableZones, selectedZone, user.cls)
    ensures user.Current() == Resolve(old(user.Current()), Reward(xpGain, 0, 0))
  {
    xpGain := BaseXp;
    var zone := FindZone(availableZones, selectedZone);
    if zone.Some? && HasClassBonus(zone.value.classBonus, user.cls) {
      xpGain := Boost(xpGain);
    }
    var newXP := user.xp + xpGain;
    var xpForNextLevel := Threshold(user.level);
    if newXP >= xpForNextLevel {
      user.level, user.xp := OrOne(user.level) + 1, newXP - xpForNextLevel;
      user.gold, user.gems := user.gold + LevelUpGold, user.gems + LevelUpGems;
    } else {
      user.xp := newXP;
    }
  }

  /** The "Expected Rewards" line, shown only once a zone is selected. */
  function PreviewText(zones: seq<Zone>, selectedZone: string, userClass: Option<string>): (r: Option<string>)
    ensures r.None? <==> selectedZone == ""
  {
    if selectedZone == "" then None
    else
      var zone := FindZone(zones, selectedZone);
      if zone.Some? && userClass.Some? && HasClassBonus(zone.value.classBonus, userClass.value) then
        Some("Base XP: 25 → 37 XP (Class Bonus!)")
      else
        Some("Base XP: 25 XP")
  }

  /** The preview promises 37 XP exactly when the post will earn 37. */
  lemma PreviewMatchesGain(zones: seq<Zone>, selectedZone: string, cls: string)
    requires selectedZone != ""
    ensures PreviewText(zones, selectedZone, Some(cls)) == Some("Base XP: 25 → 37 XP (Class Bonus!)")
      <==> PostXpGain(zones, selectedZone, cls) == 37
    ensures PreviewText(zones, selectedZone, Some(cls)) == Some("Base XP: 25 XP")
      <==> PostXpGain(zones, selectedZone, cls) == 25
  {
  }

  /** The accent colour of each zone. */
  const ZoneColors: map<string, string> := map[
    "artisan_valley" := "#9b59b6",
    "arena_trends" := "#e74c3c",
    "the_library" := "#3498db",
    "training_grounds" := "#e67e22",
    "sanctuary" := "#f1c40f",
    "mystic_realm" := "#8e44ad",
    "champions_hall" := "#d4af37"
  ]

  const DefaultZoneColor := "#666"

  /** `getZoneColor(zoneId)`: the table colour, or grey for an id outside the table. */
  function ZoneColor(zoneId: string): (c: string)
    ensures zoneId !in ZoneColors ==> c == DefaultZoneColor
    ensures zoneId in ZoneColors ==> c == ZoneColors[zoneId]
  {
    if zoneId in ZoneColors && ZoneColors[zoneId] != "" then ZoneColors[zoneId] else DefaultZoneColor
  }

  /** The colour table covers exactly the zone table. */
  lemma ColorTableCoversZones()
    ensures ZoneColors.Keys == set i | 0 <= i < |AllZones| :: AllZones[i].id
  {
    var ids := set i | 0 <= i < |AllZones| :: AllZones[i].id;
    assert ids == {AllZones[0].id, AllZones[1].id, AllZones[2].id, AllZones[3].id, AllZones[4].id, AllZones[5].id, AllZones[6].id};
  }

  /** No zone of the table falls back to grey. */
  lemma EveryZoneHasColor()
    ensures forall i :: 0 <= i < |AllZones| ==> ZoneColor(AllZones[i].id) != DefaultZoneColor
  {
    ColorTableCoversZones();
  }
}
