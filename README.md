# Questagram game core in Dafny

Questagram is a social app styled as a role-playing game. Players pick a class: warrior, mage, rogue or cleric. They post to themed zones and complete daily, weekly and special quests. In return they earn XP, gold and gems, level up every `level * 100` XP, and compete on overall and per-class leaderboards. A small Express backend keeps accounts in an in-memory list.

This project models that game state and its progression rules.

- **Stores.** There are three client-side stores:
  - the leaderboard (`Leaderboard`);
  - the quest list (`Quests`);
  - the post list (`Posts`).

  Each is a class with one sequence field. Every operation replaces that field. A pure function states what each replacement is, and lemmas state what it promises.
- **Level-up rule.** The rule the quest board, post composer and home screen each spell out (`Progress.Resolve`) is stated once. Each screen handler is a method that writes the player record step by step, as the handler does, and is proved equal to that rule:
  - `QuestBoard.HandleCompleteQuest`;
  - `CreatePost.HandleCreatePost` and `CreatePost.AwardPostXp`;
  - `MainApp.HandleGainXP`.
- **Screen helpers.** The screens' pure helpers are modelled:
  - leaderboard tabs and medals (`LeaderboardScreen`);
  - the feed's zone selection, relative-time labels and comment preview (`Feed`);
  - the validation chains of the sign-up screen and the sign-up form (`SignupScreen`, `SignupForm`).
- **Backend.** The backend's `/signup` and `/login` routes over the module-level `users` array are modelled (`AuthRoutes`).

JavaScript details are written out:
- `slice` with a negative limit;
- `findIndex` returning -1;
- `||` and `??` defaults;
- `Math.floor(1.5 * x)`, which is `(3 * x) / 2` on whole numbers;
- `Math.floor` of a millisecond difference divided by a positive constant, which is Dafny's `/`;
- `String.prototype.length`, which counts UTF-16 code units;
- the white space `trim` removes;
- the stable array sort.

Two observations on the design, proved rather than assumed:
- **The leaderboard total is not cumulative experience.** `updateUserStats` sets `totalXP = (level - 1) * 100 + xp`. Leaving level `L` costs `L * 100` XP, though, so the total equals the experience earned only at levels 1 and 2 (`Progress.LeaderboardTotalMatchesOnlyEarlyLevels`). A level-up can lower it, for example from 290 to 215 (`Progress.LeaderboardTotalCanDrop`).
- **One reward never gains two levels.** A single reward lifts a player at most one level, even when the XP left over already reaches the next threshold (`Progress.LeftoverCanReachNextThreshold`). A well-formed player at level `L` stays well formed exactly when `xp + gain` stays below what clearing this level and the next costs, `100 * (2L + 1)` (`Progress.ResolveWellFormedIff`).

## Model

| member | source | states |
|---|---|---|
| Leaderboard.SortByXP | frontend/context/LeaderboardContext.tsx:194 | the sorted copy has the same length and the same multiset of entries, in non-increasing total XP |
| Leaderboard.Insert | frontend/context/LeaderboardContext.tsx:194 | one insertion step adds exactly one entry to the multiset |
| Leaderboard.InsertSorted | frontend/context/LeaderboardContext.tsx:194 | inserting into a sorted list keeps it sorted |
| Leaderboard.SortStable | frontend/context/LeaderboardContext.tsx:194 | for every total XP value, the entries with that value keep their input order |
| Leaderboard.SortSortedIdentity | frontend/context/LeaderboardContext.tsx:194 | sorting an already sorted list returns it unchanged |
| Leaderboard.SortUnrankedPerm | frontend/context/LeaderboardContext.tsx:194 | ignoring the two rank fields, sorting is a permutation |
| Leaderboard.ClassOf | frontend/context/LeaderboardContext.tsx:205-206 | the `filter` on the class; ClassOfSubMultiset and ClassOfMembers state what it keeps |
| Leaderboard.ClassOfSubMultiset | frontend/context/LeaderboardContext.tsx:252 | the filter holds no entry more often than the list |
| Leaderboard.ClassOfMembers | frontend/context/LeaderboardContext.tsx:205-206 | the class filter keeps exactly the entries of that class |
| Leaderboard.ClassOfSorted | frontend/context/LeaderboardContext.tsx:205-207 | filtering a sorted list gives a sorted list, so the second sort changes nothing |
| Leaderboard.ClassOfAt | frontend/context/LeaderboardContext.tsx:205-209 | the j-th entry of a class is an entry with exactly j entries of its class before it |
| Leaderboard.IndexOfId | frontend/context/LeaderboardContext.tsx:209 | `findIndex` gives -1 exactly when no entry has the id, otherwise the first index that has it |
| Leaderboard.SortUnique | frontend/context/LeaderboardContext.tsx:194 | sorting keeps ids distinct |
| Leaderboard.WithOverallRanks | frontend/context/LeaderboardContext.tsx:197-200 | assigning overall ranks keeps the length |
| Leaderboard.ClassRankAt | frontend/context/LeaderboardContext.tsx:205-209 | the class rank of an entry is between 1 and the size of its class: its own id is always found |
| Leaderboard.WithClassRanks | frontend/context/LeaderboardContext.tsx:204-215 | only the class ranks change, and each lies between 1 and the size of the entry's class |
| Leaderboard.CalculateRanks | frontend/context/LeaderboardContext.tsx:192-218 | ranking keeps the length |
| Leaderboard.RankedKeys | frontend/context/LeaderboardContext.tsx:192-218 | apart from the two rank fields, the ranked list is the sorted list, and every `rank` is its position + 1 |
| Leaderboard.RankedClassRanks | frontend/context/LeaderboardContext.tsx:204-215 | every class rank is computed on the overall-ranked list, which is still sorted |
| Leaderboard.CalculateRanksPermutation | frontend/context/LeaderboardContext.tsx:192-218 | same length, and apart from `rank` and `classRank` the same entries with the same multiplicities |
| Leaderboard.CalculateRanksOrdered | frontend/context/LeaderboardContext.tsx:194-200 | sorted by non-increasing total XP; `rank` is position + 1, so ranks are exactly 1..n; strictly more total XP gives a strictly smaller rank; rank 1 holds the maximum |
| Leaderboard.CalculateRanksStable | frontend/context/LeaderboardContext.tsx:194 | entries with equal total XP keep their input order |
| Leaderboard.CalculateRanksClassRank | frontend/context/LeaderboardContext.tsx:204-215 | with distinct ids, `classRank` is 1 + the number of same-class entries ranked above |
| Leaderboard.CalculateRanksClassRanksContiguous | frontend/context/LeaderboardContext.tsx:204-215 | with distinct ids, the class ranks within each class are exactly 1..k, in list order |
| Leaderboard.CalculateRanksIdempotent | frontend/context/LeaderboardContext.tsx:276-279 | ranking a ranked list changes nothing |
| Leaderboard.SameClassRank | frontend/context/LeaderboardContext.tsx:204-215 | a class rank depends only on ids, classes and total XP, not on the rank fields |
| Leaderboard.Merge | frontend/context/LeaderboardContext.tsx:233 | an empty patch leaves the entry as it is, and the id changes only when the patch names one |
| Leaderboard.MergeIdempotent | frontend/context/LeaderboardContext.tsx:233 | spreading the same patch twice gives what spreading it once gives |
| Leaderboard.ApplyStatsTo | frontend/context/LeaderboardContext.tsx:233-241 | the patch wins field by field; if it names a level or an XP, the total is `(level - 1) * 100 + xp` over the patched-or-old values; otherwise the merge alone |
| Leaderboard.ApplyStats | frontend/context/LeaderboardContext.tsx:231-245 | same length; entries with another id are unchanged; entries with the id are patched |
| Leaderboard.ApplyStatsUnknownId | frontend/context/LeaderboardContext.tsx:231-245 | an id no entry has leaves the list unchanged |
| Leaderboard.SliceEnd | frontend/context/LeaderboardContext.tsx:259 | `slice(0, limit)` ends at min(limit, n), or at n + limit (at least 0) for a negative limit |
| Leaderboard.Slice | frontend/context/LeaderboardContext.tsx:259 | `slice(0, limit)` is the prefix of the list that ends at SliceEnd |
| Leaderboard.PrefixMultiset | frontend/context/LeaderboardContext.tsx:259 | a prefix holds no entry more often than the list |
| Leaderboard.UsersByClass | frontend/context/LeaderboardContext.tsx:250-254 | exactly the entries of the class, with their multiplicities, in non-increasing total XP |
| Leaderboard.TopUsers | frontend/context/LeaderboardContext.tsx:256-260 | exactly as many entries as `slice(0, limit)` keeps (min(limit, n) for a non-negative limit), taken from the list with no entry more often than there, sorted, and none of the entries left out has more total XP than a chosen one |
| Leaderboard.TopUsersByClass | frontend/context/LeaderboardContext.tsx:262-264 | exactly as many entries as `slice(0, limit)` keeps of the class (min(limit, k) for a non-negative limit), all of that class and taken from the list with no entry more often than there, sorted, and no entry of the class left out has more total XP than a chosen one |
| Leaderboard.FindById | frontend/context/LeaderboardContext.tsx:267 | `find` is absent exactly when no entry has the id, otherwise the first match |
| Leaderboard.CurrentUserRank | frontend/context/LeaderboardContext.tsx:266-274 | null exactly when no entry has the id; otherwise the stored `rank` and `classRank` of the first entry with it |
| Leaderboard.CurrentUserRankOfRanked | frontend/context/LeaderboardContext.tsx:266-274 | on a freshly ranked list with distinct ids, a user's overall rank is its position + 1 |
| Leaderboard.LeaderboardStore.SaveLeaderboard | frontend/context/LeaderboardContext.tsx:220-228 | the state becomes the ranked copy of the given list |
| Leaderboard.LeaderboardStore.UpdateUserStats | frontend/context/LeaderboardContext.tsx:230-248 | the state becomes the ranked copy of the patched list |
| Leaderboard.LeaderboardStore.GetTopUsers | frontend/context/LeaderboardContext.tsx:256-260 | sorts the stored list in place and returns its top entries |
| Leaderboard.LeaderboardStore.RefreshLeaderboard | frontend/context/LeaderboardContext.tsx:276-279 | ranking twice leaves the state ranked once |
| Progress.OrOne | frontend/app/quests.tsx:53 | `level \|\| 1` is never 0 and keeps any non-zero level |
| Progress.Boost | frontend/app/quests.tsx:43-44 | `Math.floor(x * 1.5)`: 2r <= 3x < 2r + 2 |
| Progress.Resolve | frontend/app/quests.tsx:47-66 | at `xp + gain >= level * 100`: one more level, the remainder kept, gold + reward + 50, gems + reward + 5; otherwise the same level, `xp + gain`, and exactly the reward's gold and gems |
| Progress.ResolveAtMostOneLevel | frontend/app/quests.tsx:50-57 | one reward raises the level by at most one, and by one exactly when the threshold is reached |
| Progress.LeftoverCanReachNextThreshold | frontend/app/quests.tsx:50-57 | a boosted 300 XP takes a fresh player to level 2 with 200 XP, already the level-2 threshold, and no second level |
| Progress.ResolveWellFormedIff | frontend/app/main-app.tsx:32-45 | from `0 <= xp < level * 100`, the invariant survives a non-negative gain exactly when `xp + gain < 100 * (2 * level + 1)` |
| Progress.SmallGainKeepsWellFormed | frontend/app/main-app.tsx:32-45 | a gain of at most 100 keeps `0 <= xp < level * 100` |
| Progress.ResolveConservesExperience | frontend/app/quests.tsx:47-66 | experience in levels and XP together grows by exactly the gain |
| Progress.LeaderboardTotalMatchesOnlyEarlyLevels | frontend/context/LeaderboardContext.tsx:237-239 | the leaderboard's total equals the experience earned exactly at levels 1 and 2 |
| Progress.LeaderboardTotalCanDrop | frontend/context/LeaderboardContext.tsx:237-239 | a level-up from level 2 with 190 XP lowers the total from 290 to 215 |
| Progress.Player.constructor | frontend/app/quests.tsx:20 | the signed-in user's record holds the given standing |
| Quests.DailyQuests | frontend/context/QuestContext.tsx:34-77 | three daily quests; those that expire do so 24 hours after the given instant |
| Quests.Completed | frontend/context/QuestContext.tsx:155-156 | the quest is marked done with full progress; nothing else changes |
| Quests.CompleteIn | frontend/context/QuestContext.tsx:153-158 | same length; the matching quests completed; every other quest unchanged |
| Quests.CompleteIdempotent | frontend/context/QuestContext.tsx:153-158 | completing twice equals completing once |
| Quests.WithProgress | frontend/context/QuestContext.tsx:165-169 | progress is min(p, maxProgress); `completed` is true exactly when p >= maxProgress; nothing else changes |
| Quests.ProgressIn | frontend/context/QuestContext.tsx:162-173 | same length; the matching quests updated; every other quest unchanged |
| Quests.ProgressCanReopen | frontend/context/QuestContext.tsx:168 | a progress update below the maximum reopens a completed quest |
| Quests.UnknownQuestUnchanged | frontend/context/QuestContext.tsx:154-171 | with an unknown id, both updates leave the list unchanged |
| Quests.Expired | frontend/context/QuestContext.tsx:180 | the predicate of the filter: a daily quest with an expiry earlier than now |
| Quests.Unexpired | frontend/context/QuestContext.tsx:179-184 | the filter never grows the list |
| Quests.UnexpiredMembers | frontend/context/QuestContext.tsx:179-184 | it keeps exactly the quests that are not expired dailies |
| Quests.UnexpiredConcat | frontend/context/QuestContext.tsx:179-184 | it works element by element, so the survivors keep their order |
| Quests.UnexpiredNoneExpired | frontend/context/QuestContext.tsx:179-184 | a list with nothing expired passes through unchanged |
| Quests.HasDaily | frontend/context/QuestContext.tsx:187 | the `some` test for a daily quest |
| Quests.Refreshed | frontend/context/QuestContext.tsx:175-194 | after a refresh some daily quest exists |
| Quests.RefreshedShape | frontend/context/QuestContext.tsx:178-191 | the survivors, followed by the fresh daily set only when no daily quest survived |
| Quests.RefreshIdempotent | frontend/context/QuestContext.tsx:175-194 | a second refresh at the same instant changes nothing |
| Quests.QuestStore.CompleteQuest | frontend/context/QuestContext.tsx:153-160 | the state becomes the completed list |
| Quests.QuestStore.UpdateQuestProgress | frontend/context/QuestContext.tsx:162-173 | the state becomes the updated list |
| Quests.QuestStore.RefreshQuests | frontend/context/QuestContext.tsx:175-194 | the state becomes the refreshed list, which holds a daily quest |
| Posts.NewPost | frontend/context/PostContext.tsx:155-167 | the given content, zone and image; no likes or comments; 25 XP; id is the instant in decimal |
| Posts.NewComment | frontend/context/PostContext.tsx:183-189 | the given content; id and time from the instant |
| Posts.Created | frontend/context/PostContext.tsx:169 | the new post is first and the old posts follow unchanged |
| Posts.Liked | frontend/context/PostContext.tsx:173-178 | same length; one more like on the matching posts; every other post unchanged |
| Posts.Commented | frontend/context/PostContext.tsx:191-195 | same length; the comment appended to the matching posts; every other post unchanged |
| Posts.CommentAppends | frontend/context/PostContext.tsx:191-195 | the old comments are kept in order and the count grows by one |
| Posts.UnknownPostUnchanged | frontend/context/PostContext.tsx:174-195 | with an unknown id, liking and commenting leave the posts unchanged |
| Posts.PostsByZone | frontend/context/PostContext.tsx:199-201 | the filter never grows the list |
| Posts.PostsByZoneMembers | frontend/context/PostContext.tsx:199-201 | it keeps exactly the posts of the zone |
| Posts.PostsByZoneConcat | frontend/context/PostContext.tsx:199-201 | it works element by element, so it is an order-preserving subsequence |
| Posts.CreatedInZone | frontend/context/PostContext.tsx:169 | a new post heads its own zone's list and leaves other zones' lists alone |
| Posts.ZonesUpTo | frontend/context/PostContext.tsx:204 | only zones from the table with a required level at most the given level |
| Posts.ZonesUpToMembers | frontend/context/PostContext.tsx:204 | a zone is kept exactly when it is in the table and its required level is at most the given level |
| Posts.AvailableZones | frontend/context/PostContext.tsx:203-205 | exactly the zones of the fixed table whose required level has been reached |
| Posts.ZonesUpToPrefix | frontend/context/PostContext.tsx:204 | on a table ordered by required level, the open zones are a prefix |
| Posts.AllZonesOpenPrefix | frontend/context/PostContext.tsx:51-108 | the open prefix of the zone table has 0, 5, 6 or 7 zones for levels below 1, 1-4, 5-9 and 10 up |
| Posts.AvailableZonesTable | frontend/context/PostContext.tsx:203-205 | the available zones are the first 0, 5, 6 or 7 zones of the table, in order |
| Posts.AvailableZonesMonotone | frontend/context/PostContext.tsx:203-205 | a higher level never loses a zone: the lower level's list is a prefix of the higher's |
| Posts.FindZone | frontend/app/create-post.tsx:39 | absent exactly when no zone has the id; otherwise the first zone of the list with that id |
| Posts.PostStore.CreatePost | frontend/context/PostContext.tsx:153-171 | the state becomes the list with the new post in front |
| Posts.PostStore.LikePost | frontend/context/PostContext.tsx:173-180 | the state becomes the liked list |
| Posts.PostStore.AddComment | frontend/context/PostContext.tsx:182-197 | the state becomes the commented list |
| Posts.PostStore.GetPostsByZone | frontend/context/PostContext.tsx:199-201 | exactly the stored posts of the zone |
| QuestBoard.QuestReward | frontend/app/quests.tsx:37-45 | with the class bonus, XP and gold are `Math.floor(1.5 * x)`; without it they are unchanged; gems are the gem reward or 0, never boosted |
| QuestBoard.HandleCompleteQuest | frontend/app/quests.tsx:22-72 | a completed quest changes nothing; otherwise the quest is completed in the store and a signed-in user's record becomes the level-up rule applied to the reward |
| QuestBoard.ShownRewardsFor | frontend/app/quests.tsx:128-132 | signed out, the card shows the plain XP and gold rewards |
| QuestBoard.ShownRewardsArePaid | frontend/app/quests.tsx:128-132 | the card shows the XP and gold the handler pays, and the gems exactly when some are paid |
| QuestBoard.OfType | frontend/app/quests.tsx:154-156 | a group never exceeds the list |
| QuestBoard.OfTypeMembers | frontend/app/quests.tsx:154-156 | a group holds exactly the quests of its type |
| QuestBoard.GroupsPartition | frontend/app/quests.tsx:154-156 | the daily, weekly and special groups together are the list, counted with multiplicity |
| CreatePost.ZoneBonus | frontend/app/create-post.tsx:39-40 | the bonus test: the zone found for the selection lists the user's class |
| CreatePost.PostXpGain | frontend/app/create-post.tsx:36-42 | 25 XP, or 37 exactly when the selected available zone favours the user's class |
| CreatePost.HandleCreatePost | frontend/app/create-post.tsx:18-76 | blank text is refused first, then an empty zone, and both change nothing; non-blank text with a selected zone is always posted (an iff), the post is created and a signed-in user gains the XP through the level-up rule with no other reward |
| CreatePost.AwardPostXp | frontend/app/create-post.tsx:36-62 | the award: the gain for the zone; with a level-up, +50 gold and +5 gems; otherwise only the XP changes |
| CreatePost.PreviewText | frontend/app/create-post.tsx:157-167 | the preview appears exactly when a zone is selected |
| CreatePost.PreviewMatchesGain | frontend/app/create-post.tsx:162-167 | the preview says 37 XP exactly when the post earns 37, and 25 XP exactly when it earns 25 |
| CreatePost.ZoneColor | frontend/app/create-post.tsx:78-89 | the table colour for a known id, '#666' for any other |
| CreatePost.ColorTableCoversZones | frontend/app/create-post.tsx:78-89 | the colour table's keys are exactly the ids of the zone table |
| CreatePost.EveryZoneHasColor | frontend/app/create-post.tsx:78-89 | no zone of the table falls back to grey |
| MainApp.HandleGainXP | frontend/app/main-app.tsx:28-46 | nothing without a user; otherwise the level-up rule with a fixed 25 XP and no bonus, keeping `0 <= xp < level * 100` |
| MainApp.GainXPKeepsWellFormed | frontend/app/main-app.tsx:28-46 | the 25 XP keep a well-formed user well formed, level up exactly at the threshold, and add 25 to the experience earned |
| LeaderboardScreen.GetDisplayUsers | frontend/app/leaderboard.tsx:36-42 | the top 20 overall, or the top 20 of the tab's class; never more than 20, sorted, all from the list |
| LeaderboardScreen.RankMedal | frontend/app/leaderboard.tsx:44-51 | 🥇, 🥈 and 🥉 for ranks 1 to 3, and `#r` otherwise |
| LeaderboardScreen.RankMedalInjective | frontend/app/leaderboard.tsx:44-51 | different ranks never share a label |
| LeaderboardScreen.DisplayedRank | frontend/app/leaderboard.tsx:55 | the overall rank on the overall tab, the class rank on a class tab |
| LeaderboardScreen.IsTopThree | frontend/app/leaderboard.tsx:62-67 | the styling test `rank <= 3` |
| LeaderboardScreen.MedalIffTopThree | frontend/app/leaderboard.tsx:62-67 | for a rank of 1 or more, a medal is shown exactly when the top-three styling applies |
| LeaderboardScreen.OverallTopThree | frontend/app/leaderboard.tsx:55-67 | on a ranked list the overall tab styles exactly the first three rows, with medals in order |
| LeaderboardScreen.ClassTabRanksArePositions | frontend/app/leaderboard.tsx:55 | on a ranked list with distinct ids, a class tab shows class ranks 1, 2, 3, ... down the rows |
| LeaderboardScreen.CurrentUserRankFor | frontend/app/leaderboard.tsx:34 | null when nobody is signed in, otherwise the store's answer for the user's id |
| Feed.DisplayPosts | frontend/app/feed.tsx:21 | 'all' shows every post, any other selection that zone's posts |
| Feed.DisplayPostsSelects | frontend/app/feed.tsx:21 | a zone selection shows exactly that zone's posts, and a new post heads its own zone |
| Feed.FormatTimeAgo | frontend/app/feed.tsx:32-39 | 'Just now' under an hour, future timestamps included; `{h}h ago` from 1 to 23 hours; `{d}d ago` with d = floor(diff / 24 h) from 24 hours |
| Feed.HoursFloor | frontend/app/feed.tsx:34-37 | the floored hour count is below 1, or below 24, exactly when the difference is below 1 hour, or below 24 hours |
| Feed.DaysFloor | frontend/app/feed.tsx:38 | whole days counted from whole hours are whole days counted from milliseconds |
| Feed.AgeLabelInjective | frontend/app/feed.tsx:36-38 | different age buckets get different labels |
| Feed.FormatTimeAgoDeterminesAge | frontend/app/feed.tsx:32-39 | two posts get the same label exactly when their ages fall in the same bucket |
| Feed.PreviewComments | frontend/app/feed.tsx:95 | the block is absent exactly when there are no comments |
| Feed.PreviewCommentsCounts | frontend/app/feed.tsx:98-108 | the first min(2, n) comments in order, and the "more" line only when some are hidden, counting exactly those |
| SignupScreen.ValidateSignup | frontend/app/signup.tsx:27-40 | an empty field gives 'Please fill in all fields.'; otherwise a mismatch gives 'Passwords do not match.'; otherwise under 6 UTF-16 units gives the length error; otherwise it passes; each one an if-and-only-if |
| SignupScreen.PasswordLengthBoundary | frontend/app/signup.tsx:37-40 | 6 characters pass, 5 fail, and three emoji pass |
| SignupScreen.SignupPage.constructor | frontend/app/signup.tsx:16-21 | every field starts empty, with no error, not loading |
| SignupScreen.SignupPage.HandleSignup | frontend/app/signup.tsx:23-42 | leaves the fields alone, clears the error and then shows the first failing check's message, and sets loading only when every check passes |
| SignupScreen.SignupPage.FinishSignup | frontend/app/signup.tsx:51 | loading is switched off, nothing else changes |
| SignupForm.Form.constructor | frontend/components/Auth/SignupForm.tsx:21-26 | every field starts empty, with no error, not loading |
| SignupForm.Form.HandleSignup | frontend/components/Auth/SignupForm.tsx:28-54 | the same checks and messages, the error cleared first, no request when a check fails, otherwise loading and a request with the username, password and class |
| SignupForm.Form.ReceiveReply | frontend/components/Auth/SignupForm.tsx:56-78 | on success the four fields are reset to ''; on failure the error is the thrown message, or 'Signup failed'; loading ends either way |
| SignupForm.RequestHasAllFields | frontend/components/Auth/SignupForm.tsx:50-54 | every request the form sends passes the backend's 400 check |
| AuthRoutes.SignupResponse | backend/routes/authRoutes.js:8-18 | a missing or empty field gives 400; otherwise a taken username gives 409; success exactly when all fields are given and the name is free |
| AuthRoutes.SignupState | backend/routes/authRoutes.js:10-16 | only a success appends exactly one record, and usernames stay unique |
| AuthRoutes.CredentialIndex | backend/routes/authRoutes.js:23 | -1 exactly when no record matches both username and password, otherwise the first match |
| AuthRoutes.LoginResponse | backend/routes/authRoutes.js:21-28 | success exactly when some record matches both, with its class; otherwise 401 'Invalid credentials' |
| AuthRoutes.SignupThenLogin | backend/routes/authRoutes.js:16-27 | after a successful sign-up, logging in with the same name and password succeeds with the class just given |
| AuthRoutes.UserRegistry.constructor | backend/routes/authRoutes.js:5 | the registry starts empty |
| AuthRoutes.UserRegistry.Signup | backend/routes/authRoutes.js:8-18 | the loop finds a taken name as `find` does; the reply and the new list are the sign-up functions' values; unique usernames are kept |
| AuthRoutes.UserRegistry.Login | backend/routes/authRoutes.js:21-28 | the loop finds the first record matching both credentials; the reply is the login function's value; the list is never modified |
| Text.NatToString | frontend/app/feed.tsx:37 | the decimal form is non-empty, all digits, without a leading zero |
| Text.NatToStringRoundTrip | frontend/context/PostContext.tsx:156 | the decimal digits read back as the number |
| Text.NatToStringInjective | frontend/app/feed.tsx:37 | different numbers render differently |
| Text.IntToStringInjective | frontend/app/leaderboard.tsx:50 | different integers, negative ones included, render differently |
| Text.IsBlank | frontend/app/create-post.tsx:19 | `!s.trim()`: every character is white space that `trim` removes |
| Text.Utf16Length | frontend/app/signup.tsx:37 | `length` is between the number of characters and twice it, and equals it when no character is beyond the Basic Multilingual Plane |

## Left out

- Persistence: AsyncStorage loading and saving, JSON revival of dates, and the error logging around them. Each store is an in-memory list; the constructors take the loaded list.
- Seed data: `generateWeeklyQuests`, the sample posts and the sample leaderboard users. They are arbitrary input. The sample users do not satisfy the total-XP formula.
- Alerts, confirmation dialogs, navigation, the sign-up screen's 1.5-second simulated delay, and its `catch` branch, which nothing can reach. A confirmed dialog is modelled as a direct call.
- Calls into code outside the model:
  - signing in (`useAuth`);
  - the fetch wrapper behind `apiService.signup`;
  - the Firebase backend (`backend/functions/auth.ts` and `backend/routes/authRoutes.ts`);
  - the server wiring.

  `updateUser` is modelled as an update of the player record. The form's request and reply are parameters and results.
- Clocks: `Date.now()` and `new Date()` become an instant parameter in milliseconds. `refreshQuests` reads the clock twice, once for the expiry test and once for the new quests' expiry. `createPost` reads it twice, with `Date.now()` for the id and a fresh `new Date()` for `createdAt`. `addComment` does the same for the comment's id and time. The model uses one instant for each pair.
- Floating point: `getXPProgress` and the progress-bar percentage. `Math.floor(x * 1.5)` is modelled exactly on whole numbers.
- Numbers are unbounded integers; JavaScript's doubles lose precision only beyond 2^53.
- Undefined user fields: `user.xp \|\| 0` and `user.gold \|\| 0` are modelled as the stored numbers, and a level of 0 or undefined is covered only where the source uses `\|\| 1`. An undefined level makes the source's threshold NaN, and that is not modelled.
- Request bodies whose fields are not strings. A field is either absent or a string.
- Zone emoji: the zone table's emoji text is mis-encoded in the source, so `Zone` leaves it out. The medal emoji are modelled.
- `getZoneColor` on an id that names a property every JavaScript object has, such as `constructor`: the model answers grey.
- Rendering: how JSX prints a gem reward of 0, styles, and the quest type emoji. The model states which rewards a card shows.
- `create-post.tsx` passes no image to `createPost`. The model's `HandleCreatePost` takes an image argument, and the screen corresponds to `None`. The composer's `loading` flag is not modelled.
- The login screens and their non-empty checks, and `toLocaleString` formatting.
- QuestBoard.ShownRewardsFor: states only the signed-out case; the signed-in case is stated by QuestBoard.ShownRewardsArePaid.
- Leaderboard.CalculateRanksClassRank: assumes distinct ids, because with a repeated id `findIndex` gives every copy the class rank of the first.
