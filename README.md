# Golf league: a verified model of its decision and list logic

The golf-league application runs playgroups: a group leader creates a playgroup, adds
members, and schedules sessions. Creating a session shuffles the roster (the leader, then
the members) and cuts it into foursomes. Players enter an 18-hole scorecard, and a summary
page ranks the submitted cards. The backend is a set of HTTP Lambda handlers over a
document store. The frontend is a set of React pages. Two Node scripts prepare and
check the test environment.

This project models the logic underneath, stated in Dafny and proved:

- the handlers' ordered validation chains, their access rules, the records they build and
  the store updates they make (`store.dfy`, `sessions.dfy`, `scores.dfy`, `foursomes.dfy`,
  `playgroups.dfy`, `users.dfy`);
- the pages' list transforms and guards (`cards.dfy`, `session_summary.dfy`, `scorecard.dfy`,
  `edit_foursomes.dfy`, `create_session.dfy`, `add_members.dfy`, `user_search.dfy`,
  `user_management.dfy`, `private_route.dfy`, `login.dfy`, `signup.dfy`);
- the two scripts (`configure_outputs.dfy`, `setup_check.dfy`).

Shared pieces sit in `wrappers.dfy` (Option), `strings.dfy` (JavaScript whitespace, `trim`,
ASCII `toLowerCase`, `split`/`join`) and `seqs.dfy` (`filter`, chunking, toggle lists).

Modelling choices:

- **The store.** `Store.Db` is a class with one map per table. The handlers that write
  are methods that change only the table they name. Each writing handler has a pure
  decision function beside it, and the method is proved to follow that function.
  `Store.Db.Valid` says every table is keyed by its records' own ids. Every writing
  handler is proved to keep it.
- **Parameters instead of effects.** Bodies are `Option` values: `None` is JSON that does
  not parse. Identifiers, timestamps and the random stream are parameters. The identity
  provider's success is a `bool` parameter.
- **The shuffle** takes a stream of picks (`Sessions.Shuffle`). It is proved to be a
  permutation, and proved able to produce every order.
- **Loops stay loops.** The source's loops are Dafny `while` loops with invariants:
  session chunking and batch writes, the player-existence scan, the playgroup merge, the
  line parser, the template fill and the setup check. The sort by foursome number is an
  in-place insertion sort on an `array`.
- **Password length** is measured in UTF-16 code units, as JavaScript's `length` does
  (`SignUp.Utf16Length`).

## Model

| member | source | states |
|---|---|---|
| Auth.RoleFromClaim | lambda/playgroups/index.js:38 | a missing or empty `custom:role` claim reads as Player; a non-empty claim is kept as given |
| Auth.UserFromClaims | lambda/playgroups/index.js:33-40 | the current user's id and email are the token's `sub` and `email`, and the role follows the default-Player rule |
| Sessions.Roster | lambda/sessions/index.js:190 | the roster is the leader followed by the members in order, so it is never empty |
| Sessions.Shuffle | lambda/sessions/index.js:47 | the shuffled roster is as long as the roster, and an empty stream of picks leaves the roster in order |
| Sessions.ShufflePermutes | lambda/sessions/index.js:47 | the shuffled roster is a permutation of the roster: no player lost or duplicated |
| Sessions.ShuffleReachesEveryOrder | lambda/sessions/index.js:47 | every permutation of the roster is the outcome of some random stream |
| Sessions.GenerateFoursomes | lambda/sessions/index.js:45-64 | the k-th foursome holds the k-th consecutive slice of at most four shuffled players, has number k+1, carries the session id, and has no update stamps |
| Seqs.ChunksCount | lambda/sessions/index.js:50 | cutting n > 0 items into slices of `size` gives ceil(n/size) slices, and none for n = 0 |
| Seqs.ChunksSizes | lambda/sessions/index.js:50-51 | every slice holds 1..size items, and every slice but the last holds exactly size |
| Seqs.ChunksFlatten | lambda/sessions/index.js:50-56 | the slices concatenated in order give back the input exactly |
| Sessions.PartitionFacts | lambda/sessions/index.js:47-63 | for any permutation of the players: ceil(n/4) groups, sizes 1..4 with only the last short, and the groups together are a permutation of the players |
| Sessions.RosterPartition | lambda/sessions/index.js:190-194 | the roster of a playgroup with m members gives floor((m+4)/4) >= 1 foursomes, holding exactly the roster's players |
| Sessions.PutAllStores | lambda/sessions/index.js:202-209 | after writing foursomes with distinct ids, each is stored under its id and every other id is untouched |
| Sessions.WriteFoursomes | lambda/sessions/index.js:194-210 | the writes go out as consecutive batches of at most 25 covering every foursome once in order, and the table ends holding every foursome; the store stays keyed by id |
| Sessions.NewSession | lambda/sessions/index.js:134-182 | a session is created exactly when the body parses, has playgroupId/date/time, names a stored playgroup and the caller leads it or is Admin; 400 exactly when the body does not parse or lacks playgroupId/date/time, then 404 exactly for an unknown playgroup, then 403 exactly for a caller neither leader nor Admin; a created session is 'scheduled', has courseName defaulting to 'Default Course', and is stamped with the caller |
| Sessions.HandlePost | lambda/sessions/index.js:134-220 | an error writes nothing; success stores the session and the foursomes cut from the shuffled roster, answers 201, and leaves users, playgroups and scores untouched; the store stays keyed by id |
| Sessions.GetSessions | lambda/sessions/index.js:72-127 | one session: 404 if it or its playgroup is missing, otherwise allowed exactly to a member, the leader or an Admin; by playgroupId: every session of that playgroup, with no access check; neither parameter: 400 |
| Scores.SumFromFirst | lambda/scores/index.js:44-46 | the left-to-right `reduce` total equals the total with the first hole split off, so the order of addition is immaterial |
| Scores.SumBounds | lambda/scores/index.js:44-46 | every hole is at most the total, and the total is 0 exactly when every hole is 0 |
| Scores.SumConstant | lambda/scores/index.js:44-46 | n holes of v strokes total n*v |
| Scores.SumAlternating | lambda/scores/index.js:44-46 | alternating a, b for k pairs totals k*(a+b) |
| Scores.FixtureTotals | tests/fixtures/testData.js:22-26 | the fixture cards total 72 ([4]x18), 63 ([3,4]x9) and 90 ([5]x18) |
| Scores.ScoreDecision | lambda/scores/index.js:110-179 | a score is accepted exactly when every check passes; the first failing check decides, in order: JSON, required fields, 18-array, non-negative numbers (400), foursome exists (404), caller authorised (403), player in foursome (400); a record has holes as given, total = sum, sessionId from the foursome and updatedBy = caller |
| Scores.HandlePut | lambda/scores/index.js:110-191 | an error leaves the score table unchanged; success overwrites exactly the (foursomeId, playerId) entry, and keeps every stored total equal to its holes' sum; the store stays keyed by id |
| Scores.SelectFilter | lambda/scores/index.js:60-98 | foursomeId takes precedence over sessionId over playerId; no filter exactly when none is given |
| Scores.GetScores | lambda/scores/index.js:55-103 | 400 exactly when no filter is given; otherwise exactly the stored scores matching the chosen filter |
| Scores.OneScorePerPlayer | lambda/scores/index.js:181-184 | because a put replaces by (foursomeId, playerId), a foursome's scores hold at most one record per player |
| Foursomes.CheckRequest | lambda/foursomes/index.js:79-107 | 403 for a caller neither GroupLeader nor Admin before the body is read, then 400 for bad JSON, missing fields, a non-array, or a length outside 1..4; accepted exactly otherwise |
| Foursomes.FirstUnknown | lambda/foursomes/index.js:111-120 | all found exactly when every listed id is a known user; otherwise the result names the first id that is not |
| Foursomes.FindUnknownPlayer | lambda/foursomes/index.js:111-120 | the scan over the listed players answers the first unknown one |
| Foursomes.HandlePut | lambda/foursomes/index.js:79-162 | checks run in order (request, players exist, foursome exists) and failures write nothing; success sets only playerIds, updatedAt and updatedBy on that one foursome and changes no other; the store stays keyed by id |
| Foursomes.SortByNumber | lambda/foursomes/index.js:62-65 | the array ends sorted by foursomeNumber, a missing number counting as 0, and is a permutation of its old contents |
| Foursomes.HandleGet | lambda/foursomes/index.js:44-72 | 400 exactly without a sessionId; otherwise the queried foursomes, sorted by number, as a permutation |
| Playgroups.GetPlaygroup | lambda/playgroups/index.js:52-72 | 404 for an unknown id; otherwise allowed exactly to a member, the leader or an Admin |
| Playgroups.DedupById | lambda/playgroups/index.js:96-101 | the merge keeps each playgroup id once, keeps the last record seen for it, and loses no id |
| Playgroups.ListPlaygroups | lambda/playgroups/index.js:74-101 | given the leader-index query and the scan of a table keyed by playgroupId, the listing holds each id at most once and is exactly the stored groups the caller leads or is a member of |
| Playgroups.NewPlaygroup | lambda/playgroups/index.js:139-175 | 403 for a caller neither GroupLeader nor Admin, checked before the name; 400 for an empty name; otherwise led by the caller, no members, description defaulting to '' |
| Playgroups.AddMember | lambda/playgroups/index.js:180-240 | errors in order: missing fields 400, unknown playgroup 404, not leader or Admin 403, already a member 400, unknown user 404; success appends the user to memberIds, keeps every prior member in order and the leader unchanged |
| Playgroups.AddMemberKeepsMembersDistinct | lambda/playgroups/index.js:206-221 | adding a member never creates a duplicate in memberIds |
| Playgroups.HandlePost | lambda/playgroups/index.js:117-134 | action 'addMember' goes to add-member, anything else to create; only a success writes, and only the one playgroup; the store stays keyed by id |
| Users.ScopeFor | lambda/users/index.js:55-128 | an email query wins; a non-Admin without one gets only their own record with any role filter ignored; an Admin gets the role filter, else everyone |
| Users.GetUsers | lambda/users/index.js:55-133 | exactly the stored users in the chosen scope |
| Users.OwnRecordOnly | lambda/users/index.js:81-91 | a non-Admin without an email query sees at most one user, their own |
| Users.CheckRoleUpdate | lambda/users/index.js:140-164 | 403 for a non-Admin before the body is read, then 400 for bad JSON, missing fields, or a role outside {Player, GroupLeader, Admin}; granted exactly otherwise |
| Users.SetRole | lambda/users/index.js:180-192 | the updated user has the requested role and a fresh updatedAt, and keeps every other field |
| Users.HandlePost | lambda/users/index.js:140-205 | a refusal or an identity-provider failure (500) writes nothing; success replaces only that user's record and answers 200; the store stays keyed by id |
| Cards.Value | frontend/src/pages/shared/SessionSummary.js:53 | an entry counts as its number, and null, '', 0 and NaN count as 0 |
| Cards.TotalAfterChange | frontend/src/pages/player/Scorecard.js:55-62 | changing one slot moves the total by exactly the difference of the two values |
| Cards.EmptyCardTotal | frontend/src/pages/player/Scorecard.js:19 | a card of empty slots totals 0 |
| Cards.Slice | frontend/src/pages/player/Scorecard.js:115-119 | `slice` clamps both bounds to the length: from a start within the card it is the subrange up to the clamped end; a start past the end or an end before the start gives nothing |
| Cards.TotalFromLast | frontend/src/pages/player/Scorecard.js:111-113 | the head-first total equals `reduce`'s left-to-right accumulation: all but the last slot, plus the last |
| Cards.NineTotal | frontend/src/pages/player/Scorecard.js:115-119 | the nine-slot total from a start is the difference of the running totals at the clamped window ends, and 0 from a start past the card |
| Cards.FrontPlusBack | frontend/src/pages/shared/SessionSummary.js:152-155 | on a card of at most 18 slots, front-nine plus back-nine sums give the card total |
| SessionSummary.SortByTotal | frontend/src/pages/shared/SessionSummary.js:63 | the cards are ordered by nondecreasing total, as a permutation of the input |
| SessionSummary.Leaderboard | frontend/src/pages/shared/SessionSummary.js:56-64 | the rows are sorted by total, each total is its card's sum, and the cards are a permutation of the submitted ones |
| SessionSummary.LeaderboardMembers | frontend/src/pages/shared/SessionSummary.js:57-58 | a card is on the leaderboard exactly when it is in the input and submitted |
| SessionSummary.LowScoreIsMinimum | frontend/src/pages/shared/SessionSummary.js:214-218 | the "Low Score" figure is the least total among submitted cards, and some submitted card attains it |
| SessionSummary.ForFoursome | frontend/src/pages/shared/SessionSummary.js:171-173 | the per-foursome list is a subsequence of the cards, holding exactly the submitted cards of that foursome's players |
| Scorecard.EmptyCard | frontend/src/pages/player/Scorecard.js:19 | a fresh card is 18 nulls |
| Scorecard.LoadedScores | frontend/src/pages/player/Scorecard.js:39-46 | the loaded scores are used when present, otherwise 18 nulls |
| Scorecard.EntryFor | frontend/src/pages/player/Scorecard.js:56 | '' becomes null, otherwise the parsed number, or NaN when parsing fails |
| Scorecard.ScoreChange | frontend/src/pages/player/Scorecard.js:55-62 | a new array of the same length with only the chosen hole changed, and its total moved by the difference |
| Scorecard.Submit | frontend/src/pages/player/Scorecard.js:81-97 | refused with the error exactly when a hole is null or ''; submitted exactly when none is and the player confirms |
| Scorecard.SubmitDisabled | frontend/src/pages/player/Scorecard.js:243 | the button is disabled exactly while saving or with an empty hole, and enabled means a confirmed submit goes through |
| Scorecard.EmptyCardCannotBeSubmitted | frontend/src/pages/player/Scorecard.js:19 | a fresh card is refused and its submit button is disabled |
| Scorecard.ViewFor | frontend/src/pages/player/Scorecard.js:138 | inputs are disabled exactly for a submitted card, and the actions are shown exactly when inputs are enabled |
| EditFoursomes.DragStart | frontend/src/pages/groupleader/EditFoursomes.js:51-53 | starting a drag records the player and source and leaves the foursomes alone |
| EditFoursomes.Drop | frontend/src/pages/groupleader/EditFoursomes.js:59-92 | no drag: nothing changes; same foursome: nothing changes but the drag clears; otherwise the source loses every entry with that userId, the target gains the player at its end, and all other foursomes, their number and order are unchanged |
| EditFoursomes.DropPreservesPlayerCount | frontend/src/pages/groupleader/EditFoursomes.js:73-84 | when the player occurs once in the source, a drop keeps the total number of players |
| EditFoursomes.TargetMayExceedFour | frontend/src/pages/groupleader/EditFoursomes.js:79-84 | nothing caps the target: a drop can make a foursome of five |
| EditFoursomes.SavePayload | frontend/src/pages/groupleader/EditFoursomes.js:101-104 | one entry per foursome in order, its playerIds the players' userIds in order |
| Selection.Toggle | frontend/src/pages/groupleader/CreateSession.js:64-70 | a present id is removed everywhere, others kept in order; an absent id is appended |
| Selection.ToggleTwiceRestores | frontend/src/components/AddMembersModal.js:59-65 | toggling an absent id twice restores the selection |
| CreateSession.InitialSelection | frontend/src/pages/groupleader/CreateSession.js:47 | the selection starts as the members' ids in order, or empty without members |
| CreateSession.AllMembersPreselected | frontend/src/pages/groupleader/CreateSession.js:47 | every member starts selected |
| CreateSession.TogglePlayerFacts | frontend/src/pages/groupleader/CreateSession.js:64-70 | toggling keeps the selection free of duplicates, grows it by at most one, and twice on an absent id restores it |
| CreateSession.Submit | frontend/src/pages/groupleader/CreateSession.js:72-91 | fewer than 4 selected is refused with the error; otherwise the request carries the form and the selection |
| CreateSession.SubmitDisabled | frontend/src/pages/groupleader/CreateSession.js:234 | enabled exactly when not submitting, at least 4 selected, a course name that does not trim to empty, and a date |
| CreateSession.EnabledSubmitCreates | frontend/src/pages/groupleader/CreateSession.js:72-91 | an enabled submit always sends a request with a date and a non-blank course name |
| CreateSession.InitialFormDisabled | frontend/src/pages/groupleader/CreateSession.js:20-24 | the initial form (no date, no course) cannot be submitted |
| AddMembers.Available | frontend/src/components/AddMembersModal.js:44-47 | all users not already members, in their original order |
| AddMembers.Shown | frontend/src/components/AddMembersModal.js:22-33 | a blank search shows every available user; any list shown holds only available users |
| AddMembers.ToggleUserSelectionFacts | frontend/src/components/AddMembersModal.js:59-65 | an id is selected after a toggle exactly when it was not before; no duplicates appear |
| AddMembers.Add | frontend/src/components/AddMembersModal.js:67-72 | an empty selection does nothing; otherwise the selection is passed on unchanged |
| UserSearch.Search | frontend/src/components/AddMembersModal.js:24-32 | a blank term keeps every user; otherwise exactly the users whose email or name contains the term case-insensitively, as a subsequence |
| UserSearch.SearchIgnoresCase | frontend/src/pages/admin/UserManagement.js:54-58 | searching for a term and for its lower-cased form select the same users |
| UserManagement.RoleFiltered | frontend/src/pages/admin/UserManagement.js:63-65 | an empty role filter keeps everyone; otherwise exactly the users with that role |
| UserManagement.FilterUsers | frontend/src/pages/admin/UserManagement.js:49-68 | a subsequence of the users holding exactly those passing both the search and the role filter |
| UserManagement.FiltersCommute | frontend/src/pages/admin/UserManagement.js:53-65 | applying the role filter first and the search second gives the same list |
| UserManagement.RoleCount | frontend/src/pages/admin/UserManagement.js:81-83 | a role count is the number of rows whose role is exactly that role (its multiplicity among the roles), so at most the number of users |
| UserManagement.OnlyOwnRowLocked | frontend/src/pages/admin/UserManagement.js:183 | with distinct user ids, Edit Role is disabled on at most one row, the caller's own, and on none when the caller is not listed |
| UserManagement.RoleCountsBound | frontend/src/pages/admin/UserManagement.js:104-118 | the three counts sum to at most the user count, and to exactly it when every role is one of the three |
| Routes.DashboardFor | frontend/src/components/PrivateRoute.js:28-30 | Admin goes to /admin, GroupLeader to /groupleader, anything else to /player |
| Routes.Decide | frontend/src/components/PrivateRoute.js:10-34 | loading shows the loading view; no user goes to /login; no required role or a matching one renders; any other goes to the user's own dashboard |
| Routes.RedirectLandsOnOwnDashboard | frontend/src/App.js:72-129 | a redirect lands on a route the user is allowed to see |
| Routes.AdminLeavesGroupLeaderPages | frontend/src/components/PrivateRoute.js:26-28 | roles have no hierarchy: an Admin is sent away from GroupLeader routes to /admin |
| Login.Begin | frontend/src/pages/auth/Login.js:22-23 | a sign-in attempt clears the error and sets loading |
| Login.Finish | frontend/src/pages/auth/Login.js:25-44 | success navigates to the dashboard of the role attribute (default Player); failure sets a non-empty error and does not navigate; loading ends either way |
| Login.SubmitFacts | frontend/src/pages/auth/Login.js:20-45 | a whole attempt ends not loading; success navigates with no error, and no role attribute means /player; failure leaves an error and no navigation |
| SignUp.Utf16Length | frontend/src/pages/auth/SignUp.js:33 | the UTF-16 length lies between the number of code points and twice that |
| SignUp.CheckPasswords | frontend/src/pages/auth/SignUp.js:28-36 | a mismatch is reported before the length rule; fewer than 8 code units is too short; otherwise the passwords pass |
| SignUp.HandleSignUp | frontend/src/pages/auth/SignUp.js:24-45 | the sign-up call happens exactly when both checks pass; success asks for confirmation, and failure sets the error and leaves confirmation off |
| SignUp.LengthBoundary | frontend/src/pages/auth/SignUp.js:33-44 | 7 characters are rejected and 8 accepted, and a failed sign-up does not ask for confirmation |
| Strings.Trim | tests/configure-from-outputs.js:41 | the result has no leading or trailing whitespace, and is empty exactly when the input is all whitespace |
| Strings.JoinSplit | tests/configure-from-outputs.js:34 | joining the parts of a split gives back the text |
| Strings.SplitJoin | tests/configure-from-outputs.js:34 | splitting joined parts that hold no separator gives back the parts |
| ConfigureOutputs.ParseLine | tests/configure-from-outputs.js:38-41 | a parsed entry's key is the line's longest non-empty word-character prefix, and its value holds no double quote |
| ConfigureOutputs.ParseLineComplete | tests/configure-from-outputs.js:38-41 | every line of the form `key = value` or `key = "value"` (word-character key, non-empty quote-free value) gives that key and the trimmed value |
| ConfigureOutputs.ParseLineSound | tests/configure-from-outputs.js:38-41 | a line gives an entry only when it has that form, and the entry is that key and trimmed value |
| ConfigureOutputs.CollectLastWins | tests/configure-from-outputs.js:36-43 | a key is present exactly when some line gave it, and its value comes from the last such line; other lines contribute nothing |
| ConfigureOutputs.ParseOutputs | tests/configure-from-outputs.js:33-43 | the loop over the file's lines builds exactly that last-wins map of parsed entries |
| ConfigureOutputs.EnvVars | tests/configure-from-outputs.js:46-51 | the four variables in order, AWS_REGION defaulting to 'us-east-1' and never empty, the others taken from their outputs |
| ConfigureOutputs.FirstLineFor | tests/configure-from-outputs.js:65 | the first template line starting with `KEY=`, or none when no line does |
| ConfigureOutputs.Substitute | tests/configure-from-outputs.js:62-70 | a filled variable replaces only the first `KEY=` line by `KEY=value`; an empty one or a missing line leaves the template unchanged |
| ConfigureOutputs.SubstituteKeepsOtherKeys | tests/configure-from-outputs.js:62-67 | replacing one key's line does not move another key's first line |
| ConfigureOutputs.SubstituteAllResult | tests/configure-from-outputs.js:62-71 | with distinct word keys, each filled variable's first line gets its value, and every other line is unchanged |
| ConfigureOutputs.EnvVarKeys | tests/configure-from-outputs.js:46-51 | the four variable names are distinct word keys |
| ConfigureOutputs.FillTemplate | tests/configure-from-outputs.js:62-71 | the loop over the variables performs all the substitutions in order |
| ConfigureOutputs.NothingToFillKeepsTemplate | tests/configure-from-outputs.js:64-70 | with no variable filled, the written file equals the template |
| ConfigureOutputs.Configure | tests/configure-from-outputs.js:11-74 | a missing outputs file or template exits 1 and writes nothing; otherwise the written file is the filled template and the exit code is 0 |
| SetupCheck.Unconfigured | tests/setup-check.js:38-46 | the loop flags exactly the names that are unset, in list order |
| SetupCheck.Check | tests/setup-check.js:24-61 | errors exactly when .env is missing or some required name is unset, empty, or holds 'your-' or 'XXXXXXXXX'; exit 1 exactly on errors |
| SetupCheck.PlaceholdersFlagged | tests/setup-check.js:40 | the template placeholders and the empty string are flagged |

## Left out

- AWS SDK calls (document store, identity provider, secrets) are not modelled. Responses carry only a status and a body or error text; CORS headers and the 405/500 fallbacks of the dispatchers are left out.
- Concurrency is left out: read-modify-write races on `memberIds` and partly failed batch writes.
- `Math.random` with a sort comparator is not a uniform shuffle, and its order depends on the engine. It is modelled as a pick-per-position shuffle that can reach every order.
- `uuidv4` and `new Date().toISOString()` are parameters of the operations.
- `JSON.parse` and `parseInt` are abstracted as `Option`. Body numbers are integers.
- Foursomes.SortByNumber: `Array.prototype.sort` is stable, so equal foursome numbers keep their stored order. The insertion sort is proved sorted and a permutation, but stability is not proved.
- Sessions.GenerateFoursomes: the handler stamps each foursome with its own `new Date()`. The model gives every foursome of one request the same `createdAt` parameter.
- Scorecard.ScoreChange: it requires a hole index inside the array. JavaScript would extend a shorter array when assigning past its end. The page only uses indexes 0-17 on an 18-slot array, so this case does not arise there.
- Scores.ScoreDecision: holes are naturals. The handler also accepts fractional and infinite numbers, which the model does not represent.
- Floating point is left out: the summary page's rounded average score.
- Frontend and backend are not joined. The pages' scorecard fields differ from the stored score record, and some page calls have no counterpart in the API client.
- UserSearch.Search: `toLowerCase` is modelled for ASCII letters only. Full Unicode case mapping is left out.
- The queries by index (sessions by playgroup, scores by session or player) are modelled as sets of matching records, so the date-descending order of the session listing is not captured.
- Users.GetUsers: the email-index lookup is modelled as a filter over the users table.
- SessionSummary.SortByTotal: the sort is modelled as a stable insertion sort. Stability, and the array sort's exact order among equal totals, are not proved.
- Scorecard and Cards: a NaN entry counts as 0 and is not caught by the submit guard, as in the page. This is modelled; a NaN total display is not.
- ConfigureOutputs: lines are split on `\n` only. A `\r` or other line terminator stays in the line. The template regex's treatment of `\r`, U+2028 and U+2029 as line ends, and `$` patterns in the replacement text, are not modelled.
- Console output is left out. The existence and contents of `.env`, `.env.example` and the outputs file are `Option` and `map` parameters.
- React rendering, hooks, `setTimeout`, `window.confirm` (a `bool` parameter) and the authentication context are left out.
- The API client, the test helpers, the route table beyond the guarded pages, and the UI-only pages (dashboards, playgroup detail, create playgroup, role modal) are not part of this model.
