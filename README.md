# SlidePenguin, modelled in Dafny

SlidePenguin is a 3D mini-game scene. A penguin is launched down an ice track
towards a target house ("Home01"). The player sweeps the ice with the E key, and
each sweep lowers the penguin's deceleration for a while. The round ends when
the penguin stops or falls into a lose zone, and the score depends on how close
to the target it stopped. Scores go to an authoritative server. The server
keeps each player's best score, persists the board and broadcasts a snapshot to
every client. Each client caches the snapshot and shows it on an in-world board
and on a ten-row panel.

This project models the following parts of the game:

- **Server store** (`LeaderboardServer`):
  - The store is the address-keyed JavaScript `Map`, kept in insertion order.
  - The `submitScore` handler merges a score: best is the maximum, play count goes up by one, and the key is lower-cased.
  - The display name is looked up among the connected players.
  - The snapshot is sorted by best score, descending and stable, and capped at 50.
  - The persisted blob is written after each accepted submission, one with a sender and a finite score above zero, and only when `Storage.set` succeeds.
  - The load from storage covers all four of its outcomes, and the room-ready and `getLeaderboard` handlers are included.
- **Client cache** (`LeaderboardClient`):
  - the `roomReady` latch;
  - the single pending score, where the latest one wins;
  - the flush of the pending score on ready;
  - the `Math.round` of sent scores;
  - the snapshot replaced wholesale on every update.
- **Displays** (`WorldLeaderboard`, `LeaderboardPanel`):
  - The text board and the panel show up to ten finished players, each with a positive best.
  - The text board pads names to ten characters and truncates longer ones with "..".
  - The panel has twenty text cells.
  - The per-frame system sets the displays up once, then rewrites the text and the panel only when their change key differs.
- **Scoring** (`Scoring`): the planar distance and `calculateScore`.
- **The game-state component** (`GameStateComponent`): `getGameState`, `setGameState` with its default arguments, and `resetGameState`.
- **The game systems** (`Animation`, `GameRules`, `Systems`):
  - startGame, the countdown and its transition to playing, launching the penguin;
  - the swipe with its stop-line guard and cooldown;
  - the movement frame: speed decay, the broom and player clamped at z 58, `canSwipe`, the lose-zone box test, and the stop check;
  - endGame and restartGame, and the friend-dialog handlers;
  - the animation crossfades, including their start guard, their per-frame advance and their completion.

## How the game systems are modelled

The game systems are modelled at two levels:

- `GameRules` states each system or handler as a pure function: it takes the snapshot `World` of everything the systems change and returns the snapshot they leave behind. The lemmas there prove the rules of a round and that every step keeps the invariant `ValidWorld`.
- `Systems.Game` is the imperative counterpart, a class whose fields are the module-level variables of `systems.ts`.
  - The game-state entity is a `GameState` object.
  - Each character is an `AnimatedEntity` whose animator states are an array rewritten in place.
  - Every method ensures `Snapshot() == <GameRules function>(scene, old(Snapshot()), ...)` and keeps `Valid()`.

### Host inputs passed as parameters

The host supplies these values as parameters:

- `Date.now()`, as `nowMs`;
- the frame time `dt`;
- whether E went down this frame;
- the countdown shake offsets;
- for the client, the host's `isRoomReady()`;
- for the server, the result of `Storage.get`, the success of `Storage.set`, and the connected players;
- every planar distance, as `d` with `IsDistance2D`: a non-negative number whose square is the squared planar distance, since square roots are not computed.

### Behaviour worth noting

- **What is persisted.** The server persists `getSortedEntries()` (server.ts:99-100), which is only the top 50 by best score. `PersistThenLoad` proves that a store of more than 50 players reloads with exactly 50.
- **An empty sender address.** `submitScore` checks only that there is a sender context (server.ts:24-26). A sender whose address is the empty string is stored under the key `""` with an empty name. The next load skips that element (server.ts:75). So the save-and-load round trip holds for every store built from loads and submissions by non-empty senders (`SubmitPersistLoad`, and the `Reloadable` ensures of the server's methods), and `EmptySenderNotReloaded` exhibits the entry lost on reload.
- **The empty panel.** The panel's change key for an empty board is `''`, which is also its initial value. So the panel keeps its `---`/`--` placeholders on an empty board. "No data" appears only after a non-empty board empties again, which `EmptyBoardScenario` exhibits.
- **`endGame` and `canSwipe`.** `endGame` calls `setGameState` without a `canSwipe` argument. `canSwipe` is therefore reset to `true` by the default (`EndGameRules`).
- **The component schema.** `components.ts` declares six fields of the `GameState` component. The code creates and uses nine (systems.ts:361-371), and the model has all nine.

## Model

| member | source | states |
|---|---|---|
| JsMath.Round | src/leaderboard/leaderboardClient.ts:34 | `Math.round`: the result is the unique integer within half a unit, halves rounded up |
| JsMath.RoundOfInteger | src/scoring.ts:39 | an integral value rounds to itself |
| JsMath.RoundOfPositive | src/leaderboard/leaderboardClient.ts:53 | a positive score rounds to a non-negative integer, to zero exactly below one half |
| JsMath.RoundMonotone | src/scoring.ts:39 | rounding preserves order |
| JsMath.MaxReal | src/server/server.ts:32 | `Math.max`: at least both arguments and equal to one of them |
| JsMath.MinReal | src/scoring.ts:30 | `Math.min`: at most both arguments and equal to one of them |
| JsMath.DivAtLeastOne | src/systems.ts:210 | a quotient by a positive duration reaches 1 exactly when the dividend reaches the divisor |
| JsText.LowerChar | src/server/server.ts:29 | `toLowerCase` on one character maps exactly 'A'..'Z' to their lower-case letters |
| JsText.Lower | src/server/server.ts:29 | `toLowerCase` keeps the length and maps each character |
| JsText.LowerIsLower | src/server/server.ts:29 | a lower-cased string has no upper-case letter and lower-casing is idempotent |
| JsText.LowerOfLower | src/server/server.ts:76-77 | a lower-case key is its own lower-case form |
| JsText.Prefix | src/server/server.ts:59 | `substring(0, n)` is a prefix of length min(n, length) |
| JsText.Repeat | src/leaderboard/WorldLeaderboard.ts:41 | `' '.repeat(n)` is n copies of the character |
| JsText.PadEnd | src/leaderboard/WorldLeaderboard.ts:61 | `padEnd(n)` extends the string to length n, keeping it as a prefix |
| JsText.PadEndSpaces | src/leaderboard/WorldLeaderboard.ts:61 | padding adds only spaces, so no other character appears |
| JsText.Digit | src/leaderboard/WorldLeaderboard.ts:63 | a digit below ten renders as a character '0'..'9' |
| JsText.NatToString | src/leaderboard/WorldLeaderboard.ts:63 | a number renders as at least one decimal digit with no leading zero |
| JsText.NatToStringValue | src/leaderboard/WorldLeaderboard.ts:63 | reading the rendered digits back gives the number |
| JsText.NatToStringInjective | src/leaderboard/WorldLeaderboard.ts:167 | different numbers render differently |
| JsText.IntToString | src/leaderboard/WorldLeaderboard.ts:131 | an integer renders with a leading '-' exactly when it is negative |
| JsText.IntToStringValue | src/leaderboard/WorldLeaderboard.ts:131 | reading the rendering back gives the integer |
| JsText.Split | src/leaderboard/WorldLeaderboard.ts:66 | splitting always yields at least one piece |
| JsText.SplitPiece | src/leaderboard/WorldLeaderboard.ts:66 | a piece free of the separator is split off whole |
| JsText.SplitJoin | src/leaderboard/WorldLeaderboard.ts:66 | splitting a `join` on a separator found in no part returns the parts |
| Ranking.Insert | src/server/server.ts:112 | one insertion step of the sort adds the entry to the multiset |
| Ranking.InsertBelow | src/server/server.ts:112 | inserting under a bound keeps every score under it |
| Ranking.InsertDescending | src/server/server.ts:112 | inserting into a descending list keeps it descending |
| Ranking.SortByScore | src/server/server.ts:112 | sorting is a permutation of the input |
| Ranking.SortDescending | src/server/server.ts:112 | the sorted list is non-increasing by bestScore |
| Ranking.WithScoreCons | src/server/server.ts:112 | the subsequence with a given score distributes over a leading element |
| Ranking.InsertPastHead | src/server/server.ts:112 | passing a higher head keeps the head's place in its score class |
| Ranking.InsertWithScore | src/server/server.ts:112 | inserting puts the entry at the front of its score class and leaves other classes unchanged |
| Ranking.SortByScoreStable | src/server/server.ts:112 | the sort is stable: within every score, the input order is kept |
| Ranking.Take | src/server/server.ts:113 | `slice(0, n)` is a prefix of at most n entries, the whole list when it is short |
| Ranking.Top | src/server/server.ts:111-113 | the top n have length min(n, size) |
| Ranking.TopShape | src/server/server.ts:111-113 | the top n are sorted, drawn from the input, and all of it when it has at most n entries |
| Ranking.TopKeepsBest | src/server/server.ts:111-113 | any entry left out scores no higher than every entry kept |
| Ranking.ScoredShape | src/leaderboard/WorldLeaderboard.ts:47 | the filter keeps only entries with a positive best, drawn from the input |
| Ranking.ScoredKeeps | src/leaderboard/WorldLeaderboard.ts:47 | every entry with a positive best survives the filter |
| Ranking.Scored | src/leaderboard/WorldLeaderboard.ts:47 | the filter on a positive best; its properties are `ScoredShape` and `ScoredKeeps` |
| LeaderboardServer.Lookup | src/server/server.ts:31 | `map.get` finds an entry with the key exactly when the key is present |
| LeaderboardServer.LookupAt | src/server/server.ts:31 | with unique keys, the entry found for a key is the one at its index |
| LeaderboardServer.Put | src/server/server.ts:35-40 | `map.set` keeps the keys unique |
| LeaderboardServer.PutLookup | src/server/server.ts:35-40 | after `set`, the key maps to the new entry and every other key is unchanged |
| LeaderboardServer.PutInPlaceLookup | src/server/server.ts:35-40 | setting a present key replaces its entry in place |
| LeaderboardServer.PutAppendLookup | src/server/server.ts:35-40 | setting a new key appends it |
| LeaderboardServer.PutKeepsPositions | src/server/server.ts:35-40 | insertion order: an existing key keeps its place and a new key goes last |
| LeaderboardServer.PutWellKeyed | src/server/server.ts:35-40 | setting a lower-case key keeps the store unique and lower-case |
| LeaderboardServer.DisplayName | src/server/server.ts:56-63 | the name is some connected player's name or the first 8 characters of the address, and is never empty for a non-empty address |
| LeaderboardServer.DisplayNameFirstMatch | src/server/server.ts:57-60 | the first player whose lower-cased address matches decides: their non-empty name, else the prefix |
| LeaderboardServer.DisplayNameNoMatch | src/server/server.ts:62 | with no match, the name is the first 8 characters |
| LeaderboardServer.GetPlayerName | src/server/server.ts:56-63 | the early-returning loop computes `DisplayName` |
| LeaderboardServer.Merged | src/server/server.ts:32-33 | the merged entry's best is the maximum of the old best and the score, and its play count is one more, or 1 for a new address |
| LeaderboardServer.Submitted | src/server/server.ts:29-40 | a submission keeps the keys unique |
| LeaderboardServer.SubmittedEntry | src/server/server.ts:29-40 | the sender's lower-cased key holds the max score, one more play and the looked-up name |
| LeaderboardServer.SubmittedOthers | src/server/server.ts:35-40 | no other address's entry or position changes |
| LeaderboardServer.SubmitTwice | src/server/server.ts:32-33 | two submissions from a new address give the greater of the two scores and two plays |
| LeaderboardServer.BestScoreNeverDecreases | src/server/server.ts:32 | the best never decreases, and a lower score still counts as a play |
| LeaderboardServer.SortedEntries | src/server/server.ts:110-114 | the snapshot holds at most 50 entries |
| LeaderboardServer.SortedEntriesShape | src/server/server.ts:110-114 | the snapshot is descending, drawn from the store, the whole store up to 50 players, and exactly 50 beyond |
| LeaderboardServer.TwoPlayersScenario | src/server/server.ts:23-44 | two addresses submitting 500 then 900 are listed 900 first |
| LeaderboardServer.Normalized | src/server/server.ts:75-81 | a stored element without an address is skipped; otherwise the key is lower-cased, and a missing or non-numeric score or play count becomes 0 |
| LeaderboardServer.Rebuilt | src/server/server.ts:73-82 | the map rebuilt by the load loop has unique lower-case keys |
| LeaderboardServer.ToStored | src/server/server.ts:100 | the serialized list has one element per entry |
| LeaderboardServer.ReloadableInit | src/server/server.ts:72-82 | dropping the last entry keeps a list reloadable |
| LeaderboardServer.ToStoredInit | src/server/server.ts:100 | serializing commutes with dropping the last entry |
| LeaderboardServer.RebuiltLast | src/server/server.ts:74-82 | the load loop's last iteration sets the last normalised element |
| LeaderboardServer.ReloadUnfold | src/server/server.ts:74-82 | on a saved list, the last iteration sets the last saved entry unchanged |
| LeaderboardServer.PutFresh | src/server/server.ts:76 | setting an absent key appends the entry |
| LeaderboardServer.ReloadLast | src/server/server.ts:74-82 | the inductive step of the round trip |
| LeaderboardServer.ReloadRoundTrip | src/server/server.ts:72-82 | loading a saved list gives the same list back, in the same order |
| LeaderboardServer.OccursOnce | src/server/server.ts:54 | with unique keys no entry occurs twice |
| LeaderboardServer.UniqueKeysSub | src/server/server.ts:110-114 | any sub-multiset of the store keeps unique lower-case keys |
| LeaderboardServer.PersistThenLoad | src/server/server.ts:97-104 | for a reloadable store, save then load returns the snapshot, which is the whole store up to 50 players; a larger store reloads with only 50 |
| LeaderboardServer.PutReloadable | src/server/server.ts:35-40 | setting a lower-case entry with a non-empty key and name keeps a store reloadable |
| LeaderboardServer.RebuiltReloadable | src/server/server.ts:72-82 | every store the load loop rebuilds is reloadable |
| LeaderboardServer.SubmittedReloadable | src/server/server.ts:29-40 | a submission from a non-empty sender keeps the store reloadable |
| LeaderboardServer.SubmitPersistLoad | src/server/server.ts:23-44 | after a non-empty sender's submission to a reloadable store, the persisted snapshot reloads as itself |
| LeaderboardServer.EmptySenderNotReloaded | src/server/server.ts:75 | a submission from the empty address is stored, but the next load drops it |
| LeaderboardServer.Accepted | src/server/server.ts:24-26 | the handler's guard: a sender, and a finite score above zero; `Server.OnSubmitScore` states both outcomes |
| LeaderboardServer.EmptyBootScenario | src/server/server.ts:10-15 | a fresh server with nothing stored answers `getLeaderboard` with an empty snapshot |
| LeaderboardServer.Server.constructor | src/server/server.ts:54 | the server starts with an empty store, nothing sent and nothing stored |
| LeaderboardServer.Server.BroadcastLeaderboard | src/server/server.ts:106-108 | one `leaderboardUpdate` with the current snapshot is appended; store and blob unchanged |
| LeaderboardServer.Server.PersistLeaderboard | src/server/server.ts:97-104 | a successful save stores the snapshot; a failed save leaves the blob as it was |
| LeaderboardServer.Server.OnSubmitScore | src/server/server.ts:23-44 | a missing sender or a non-positive or non-numeric score changes nothing; otherwise the store is `Submitted`, the snapshot is saved if storage succeeds, and it is broadcast either way; a reloadable store stays reloadable unless the sender address is empty |
| LeaderboardServer.Server.OnGetLeaderboard | src/server/server.ts:46-51 | a broadcast of the current snapshot, whatever the sender |
| LeaderboardServer.Server.LoadLeaderboard | src/server/server.ts:65-95 | stored data is rebuilt; a 404 clears the store; nothing stored keeps it; all three broadcast; any other error keeps the store and sends nothing; the store is reloadable after a rebuild or a 404, and stays so otherwise |
| LeaderboardServer.Server.OnRoomReady | src/server/server.ts:10-15 | when ready: a ping, then the load and its broadcast; when not ready: nothing; a reloadable store stays reloadable |
| LeaderboardClient.Client.constructor | src/leaderboard/leaderboardClient.ts:4-6 | empty cache, not ready, nothing pending, nothing sent |
| LeaderboardClient.Client.Init | src/leaderboard/leaderboardClient.ts:8-12 | the latch is cleared, then set again with the snapshot request and the pending flush when the host is ready |
| LeaderboardClient.Client.OnRoomReady | src/leaderboard/leaderboardClient.ts:14-17 | a ready event announces only once; a not-ready event does nothing |
| LeaderboardClient.Client.NotifyRoomReady | src/leaderboard/leaderboardClient.ts:25-36 | the first call sends `getLeaderboard` and then the rounded pending score once; later calls do nothing |
| LeaderboardClient.Client.SubmitScore | src/leaderboard/leaderboardClient.ts:42-54 | non-finite or non-positive scores are dropped; while not ready the score replaces the pending one; when ready the rounded score is sent, after announcing if the host just became ready |
| LeaderboardClient.Client.OnLeaderboardUpdate | src/leaderboard/leaderboardClient.ts:19-22 | the cache is replaced by the snapshot, or emptied when it is missing |
| LeaderboardClient.Client.GetLeaderboardEntries | src/leaderboard/leaderboardClient.ts:38-40 | returns the cached snapshot |
| LeaderboardClient.Submittable | src/leaderboard/leaderboardClient.ts:43 | the client's guard, finite and above zero; `Client.SubmitScore` states both outcomes |
| LeaderboardClient.PendingScoreScenario | src/leaderboard/leaderboardClient.ts:25-54 | a score submitted before the room is ready is sent once, after the snapshot request, when it becomes ready |
| LeaderboardClient.LatestPendingWinsScenario | src/leaderboard/leaderboardClient.ts:42-51 | while not ready, only the latest accepted score is kept and later sent |
| LeaderboardPanel.NameCell | src/leaderboard/LeaderboardPanel.ts:189 | the name cell of row i; specified by `RowsShowEntries` |
| LeaderboardPanel.ScoreCell | src/leaderboard/LeaderboardPanel.ts:190 | the score cell of row i; specified by `RowsShowEntries` |
| LeaderboardPanel.InitialCells | src/leaderboard/LeaderboardPanel.ts:132-158 | the placeholder cells; `Panel.constructor` states them |
| LeaderboardPanel.RankLabel | src/leaderboard/LeaderboardPanel.ts:117 | a row's rank text; specified by `RankLabelValue` |
| LeaderboardPanel.EmptyShowsNoData | src/leaderboard/LeaderboardPanel.ts:175-183 | an empty list shows "No data" in the first name cell and blanks in the other nineteen |
| LeaderboardPanel.RowsShowEntries | src/leaderboard/LeaderboardPanel.ts:185-191 | row i shows entry i's name and score, or `---`/`--` below the last entry |
| LeaderboardPanel.OnlyFirstTenShown | src/leaderboard/LeaderboardPanel.ts:185 | entries past the tenth never reach the panel |
| LeaderboardPanel.RankLabelValue | src/leaderboard/LeaderboardPanel.ts:117 | a rank label is the place's digits followed by '.' |
| LeaderboardPanel.PanelCells | src/leaderboard/LeaderboardPanel.ts:171-192 | the twenty cell texts `setPanelData` writes; specified by `EmptyShowsNoData`, `RowsShowEntries` and `OnlyFirstTenShown` |
| LeaderboardPanel.Panel.constructor | src/leaderboard/LeaderboardPanel.ts:96-159 | ten rows with ranks "1." to "10." and placeholder name and score cells |
| LeaderboardPanel.Panel.SetPanelData | src/leaderboard/LeaderboardPanel.ts:171-192 | the twenty cells become `PanelCells(entries)` |
| WorldLeaderboard.Finished | src/leaderboard/WorldLeaderboard.ts:46-49 | at most ten finished players |
| WorldLeaderboard.FinishedShape | src/leaderboard/WorldLeaderboard.ts:46-49 | descending, drawn from the board, each with a positive best, and all of them when there are at most ten |
| WorldLeaderboard.FinishedEmpty | src/leaderboard/WorldLeaderboard.ts:46-53 | no finished players exactly when nobody has a positive best |
| WorldLeaderboard.FormatHeader | src/leaderboard/WorldLeaderboard.ts:40-43 | the header reads `   Player        Points` |
| WorldLeaderboard.FitName | src/leaderboard/WorldLeaderboard.ts:57-61 | a short name is kept and padded with spaces to ten; a longer name is cut to ten plus ".." |
| WorldLeaderboard.FitNameNoNewline | src/leaderboard/WorldLeaderboard.ts:57-61 | fitting a name adds no line break |
| WorldLeaderboard.JoinStart | src/leaderboard/WorldLeaderboard.ts:66 | a join starts with its first part |
| WorldLeaderboard.TextNotEmpty | src/leaderboard/WorldLeaderboard.ts:45-67 | the board text is never empty |
| WorldLeaderboard.EmptyBoardText | src/leaderboard/WorldLeaderboard.ts:51-53 | the text is "No entries yet" exactly when nobody has a positive best |
| WorldLeaderboard.RankColumnShape | src/leaderboard/WorldLeaderboard.ts:56 | the rank column is three characters: the digits reading the place, a '.', then spaces |
| WorldLeaderboard.ConcatSlices | src/leaderboard/WorldLeaderboard.ts:63 | the pieces of a line sit at their offsets |
| WorldLeaderboard.LineRank | src/leaderboard/WorldLeaderboard.ts:55-64 | a line starts with the place and '.', and the fitted name starts at column 4 |
| WorldLeaderboard.LineShortName | src/leaderboard/WorldLeaderboard.ts:57-63 | a short name is shown whole, followed by spaces up to column 16, where the score starts |
| WorldLeaderboard.LineLongName | src/leaderboard/WorldLeaderboard.ts:57-63 | a longer name shows its first ten characters and "..", and the score starts at column 18 |
| WorldLeaderboard.LineHasNoNewline | src/leaderboard/WorldLeaderboard.ts:55-64 | a line has no line break when the name has none |
| WorldLeaderboard.BoardLines | src/leaderboard/WorldLeaderboard.ts:45-67 | splitting the board on line breaks gives one line per finished player, in rank order, at most ten |
| WorldLeaderboard.HistoricRows | src/leaderboard/WorldLeaderboard.ts:123-133 | panel row i names the player in place i, and its score reads back as their best |
| WorldLeaderboard.HistoricKeyEmpty | src/leaderboard/WorldLeaderboard.ts:167 | the change key is empty exactly for an empty board |
| WorldLeaderboard.RankColumn | src/leaderboard/WorldLeaderboard.ts:56 | `${i + 1}.`.padEnd(3); its shape is `RankColumnShape` |
| WorldLeaderboard.FormatLine | src/leaderboard/WorldLeaderboard.ts:55-64 | one board line; its layout is `LineRank`, `LineShortName`, `LineLongName` and `LineHasNoNewline` |
| JsText.Join | src/leaderboard/WorldLeaderboard.ts:66 | `join`; specified by `SplitJoin` and `WorldLeaderboard.JoinStart` |
| WorldLeaderboard.Lines | src/leaderboard/WorldLeaderboard.ts:55-64 | one formatted line per finished player; `BoardLines` states it |
| WorldLeaderboard.EmptyBoardScenario | src/leaderboard/WorldLeaderboard.ts:165-172 | an empty board keeps the placeholders; a finished player then shows, and emptying the board again shows "No data" |
| WorldLeaderboard.FormatText | src/leaderboard/WorldLeaderboard.ts:45-67 | `formatLeaderboardText`; specified by `TextNotEmpty`, `EmptyBoardText` and `BoardLines` |
| WorldLeaderboard.HistoricData | src/leaderboard/WorldLeaderboard.ts:123-133 | `buildHistoricTabData`; specified by `HistoricRows` |
| WorldLeaderboard.HistoricKey | src/leaderboard/WorldLeaderboard.ts:167 | the panel's change key; specified by `HistoricKeyEmpty` |
| WorldLeaderboard.WorldLeaderboardView.constructor | src/leaderboard/WorldLeaderboard.ts:23-28 | not set up, no panel, empty last text and key |
| WorldLeaderboard.WorldLeaderboardView.Setup | src/leaderboard/WorldLeaderboard.ts:69-121 | the header and body texts are created hidden, and a fresh panel holds placeholders |
| WorldLeaderboard.WorldLeaderboardView.Tick | src/leaderboard/WorldLeaderboard.ts:137-173 | the first frame sets up, on the fallback root when no board entity is found; later frames rewrite the text, and the panel only when its key changed |
| WorldLeaderboard.WorldLeaderboardView.Refresh | src/leaderboard/WorldLeaderboard.ts:156-172 | the text and then the panel, each rewritten only on change |
| WorldLeaderboard.WorldLeaderboardView.RefreshText | src/leaderboard/WorldLeaderboard.ts:157-163 | both texts are rewritten exactly when the body differs from the last one |
| WorldLeaderboard.WorldLeaderboardView.RefreshPanel | src/leaderboard/WorldLeaderboard.ts:165-172 | the panel is rewritten exactly when the change key differs, and is left untouched otherwise |
| Scoring.SquaredDistance2D | src/scoring.ts:8-12 | the squared planar distance is non-negative |
| Scoring.SquareLess | src/scoring.ts:11 | squaring is strictly increasing on non-negative numbers |
| Scoring.Distance2DUnique | src/scoring.ts:11 | the square root is unique, so the distance is a function of the positions |
| Scoring.Distance2DSymmetric | src/scoring.ts:8-12 | the distance does not depend on the order of the positions |
| Scoring.Distance2DIgnoresHeight | src/scoring.ts:6 | heights are ignored |
| Scoring.Distance2DZero | src/scoring.ts:8-12 | positions that agree on x and z are at distance 0 |
| Scoring.NormalizedDistance | src/scoring.ts:30 | the normalised distance lies in [0, 1], and is 1 exactly at or beyond the maximum |
| Scoring.RatioAtLeastOne | src/scoring.ts:30 | the ratio reaches 1 exactly at the maximum distance |
| Scoring.ScoreForDistance | src/scoring.ts:22-40 | the score always lies between 0 and MAX_SCORE |
| Scoring.CalculateScore | src/scoring.ts:22-40 | `calculateScore` with the default maximum of 60 lies between 0 and MAX_SCORE |
| Scoring.ScoreOnTarget | src/scoring.ts:35 | distance 0 scores MAX_SCORE |
| Scoring.ScoreBeyondMax | src/scoring.ts:36 | at or beyond the maximum distance the score is 0 |
| Scoring.ScoreMonotone | src/scoring.ts:33 | less distance never scores less |
| Scoring.HalfwayScore | src/scoring.ts:37 | 30 units from the target scores 500 |
| Scoring.ScoreAtTarget | src/scoring.ts:22-40 | a penguin exactly on the target scores MAX_SCORE, wherever the target is |
| GameStateComponent.GameState.constructor | src/systems.ts:360-371 | the component is created with the initial nine-field record |
| GameStateComponent.GameState.Absent | src/gameState.ts:7 | an entity without the component |
| GameStateComponent.GameState.GetGameState | src/gameState.ts:6-9 | null exactly when the component is missing, else the phase |
| GameStateComponent.GameState.SetGameState | src/gameState.ts:11-19 | the six fields take the arguments or the defaults; the dialog flag and the shake are kept |
| GameStateComponent.GameState.ResetGameState | src/gameState.ts:21-23 | back to the initial record apart from the dialog flag and the shake, in `idle` |
| GameStateComponent.Assigned | src/gameState.ts:11-19 | the record `setGameState` leaves, with its default arguments; `SetGameState` and `ResetGameState` are proved against it |
| Animation.Find | src/systems.ts:76-77 | `states.find` returns the first state with the clip, or nothing when no state has it |
| Animation.FindSameClips | src/systems.ts:76-77 | `find` looks only at the clip names |
| Animation.TotalWeightUpdate | src/systems.ts:88-98 | replacing a state changes the total weight by the difference |
| Animation.Progress | src/systems.ts:210 | the crossfade progress never exceeds 1 |
| Animation.ClearedTotal | src/systems.ts:88-92 | the reset loop leaves total weight 0 |
| Animation.SilencedTotal | src/systems.ts:921-924 | the idle-restore reset leaves total weight 0 |
| Animation.CompletedTotal | src/systems.ts:222-227 | with unique clips, completion leaves total weight 1 if the target has a state, else 0 |
| Animation.CompletedPlaysOnlyTarget | src/systems.ts:224-227 | completion plays the target's state and no other |
| Animation.CompletedIdempotent | src/systems.ts:224-227 | completing twice is completing once |
| Animation.CompletedAfterBlend | src/systems.ts:219-227 | the final frame's blend leaves no trace after completion |
| Animation.CrossfadeStartTotal | src/systems.ts:88-98 | a crossfade starts at total weight 1 if the from-clip has a state, else 0 |
| Animation.OneShotTotal | src/systems.ts:540-551 | a swipe leaves total weight 1 if the swipe clip has a state, else 0 |
| Animation.IdleRestoredTotal | src/systems.ts:921-930 | an idle restore leaves total weight 1 if the idle clip has a state, else 0 |
| Animation.EaseBounds | src/systems.ts:211 | the easing stays in [0, 1], from 0 at the start to 1 at the end |
| Animation.PlayCurrentIsNoOp | src/systems.ts:71 | the start guard: asking for the current clip changes nothing |
| Animation.ProgressComplete | src/systems.ts:210-222 | progress reaches 1 exactly when the elapsed time reaches the duration |
| Animation.StepCompletes | src/systems.ts:207-230 | once the duration has passed, a step completes the crossfade on its target |
| Animation.StartedThenCompleted | src/systems.ts:88-99 | starting keeps the clips, and completing plays the target's states alone |
| Animation.CrossfadeEndsOnTarget | src/systems.ts:69-109 | a started crossfade, after a full duration, ends with the target current, alone at full weight, nothing in progress |
| Animation.Cleared | src/systems.ts:88-92 | every state stopped at weight 0; specified by `ClearedTotal` and `AnimatedEntity.ClearAll` |
| Animation.Silenced | src/systems.ts:921-924 | every state stopped at weight 0, reset flags kept; specified by `SilencedTotal` and `AnimatedEntity.SilenceAll` |
| Animation.CrossfadeStarted | src/systems.ts:88-98 | the states at a crossfade's start; specified by `CrossfadeStartTotal` and `StartedThenCompleted` |
| Animation.Blended | src/systems.ts:217-220 | one frame's weights; specified by `CompletedAfterBlend` and `AnimatedEntity.SetWeights` |
| Animation.OneShot | src/systems.ts:540-551 | the swipe clip restarted alone; specified by `OneShotTotal` |
| Animation.IdleRestored | src/systems.ts:921-930 | the idle clip playing alone; specified by `IdleRestoredTotal` |
| Animation.Ease | src/systems.ts:211 | the ease-in-out curve; its bounds are `EaseBounds` |
| Animation.Completed | src/systems.ts:222-230 | the completion loop's states; specified by `CompletedTotal`, `CompletedPlaysOnlyTarget` and `CompletedIdempotent` |
| Animation.PlayedWithTransition | src/systems.ts:69-109 | the crossfade start with its guards; specified by `PlayCurrentIsNoOp`, `CrossfadeStartTotal` and `CrossfadeEndsOnTarget` |
| Animation.Advanced | src/systems.ts:208-230 | one crossfade frame; specified by `StepCompletes` and `CompletedAfterBlend` |
| Animation.Stepped | src/systems.ts:205-234 | one entity's part of the animation system; specified by `StepCompletes` and `CrossfadeEndsOnTarget` |
| Animation.SwipePlayed | src/systems.ts:536-554 | the one-shot swipe clip; specified by `OneShotTotal` |
| Animation.IdleRestoredIfDue | src/systems.ts:916-934 | the idle restore after a swipe; specified by `IdleRestoredTotal` |
| Animation.StopLineReached | src/systems.ts:964-970 | the first arrival at the stop line crossfades to the resting clip; specified by `StopLineOnce` |
| Animation.StopLineOnce | src/systems.ts:965-969 | a track already at the stop line is untouched, an arrival within 0.01 of z 58 sets the flag, and every later frame changes nothing |
| Animation.AnimatedEntity.constructor | src/systems.ts:28-41 | the entity starts in its idle clip with no crossfade and no pending restore |
| Animation.AnimatedEntity.ClearAll | src/systems.ts:88-92 | the loop stops every state, zeroes its weight and clears its reset flag |
| Animation.AnimatedEntity.SilenceAll | src/systems.ts:921-924 | the loop stops every state and zeroes its weight |
| Animation.AnimatedEntity.CompleteAll | src/systems.ts:224-227 | the loop plays only the target's states at weight 1 |
| Animation.AnimatedEntity.PlayWithTransition | src/systems.ts:69-109 | no-op without an animator or on the current clip; only the current clip changes when the target has no state; otherwise a crossfade starts |
| Animation.AnimatedEntity.SetWeights | src/systems.ts:217-220 | the per-frame weights of the two clips |
| Animation.AnimatedEntity.Step | src/systems.ts:205-234 | one entity's part of `animationTransitionSystem` |
| Animation.AnimatedEntity.Advance | src/systems.ts:208-230 | a crossfade frame blends, then completes at progress 1 |
| Animation.AnimatedEntity.PlaySwipe | src/systems.ts:536-554 | the crossfade is dropped, the swipe clip restarts alone, and the restore is due 0.5 s later |
| Animation.AnimatedEntity.RestoreIdleIfDue | src/systems.ts:916-934 | once due, the restore is cleared and the idle clip plays alone |
| Animation.AnimatedEntity.ReachStopLine | src/systems.ts:964-970 | the first arrival within 0.01 of z 58 crossfades to the resting clip |
| GameRules.Abs | src/systems.ts:849-858 | proof helper: the absolute value, used to state `PointInBoxByDistance` |
| GameRules.PointInBoxByDistance | src/systems.ts:849-858 | a point is in the box exactly when it is within half the size of the center on every axis |
| GameRules.CornersInBox | src/systems.ts:854-856 | the bounds are inclusive |
| GameRules.NegativeBoxEmpty | src/systems.ts:849-858 | a box with a negative size contains nothing |
| GameRules.IsPointInBox | src/systems.ts:849-858 | `isPointInBox`; specified by `PointInBoxByDistance`, `CornersInBox` and `NegativeBoxEmpty` |
| GameRules.BoostedRate | src/systems.ts:587 | the boosted rate is non-negative and never above the base |
| GameRules.DecayedSpeed | src/systems.ts:890 | the decayed speed is never negative |
| GameRules.DecayNeverSpeedsUp | src/systems.ts:890 | decay never raises the speed |
| GameRules.DecayMonotone | src/systems.ts:890 | a longer decay gives a lower speed |
| GameRules.LowerRateKeepsSpeed | src/systems.ts:880-890 | a lower deceleration never leaves the penguin slower |
| GameRules.DecayStops | src/systems.ts:890 | with a positive rate the penguin stops within speed / rate seconds |
| GameRules.Launched | src/systems.ts:806-843 | for the planar distance from the penguin to the home, a movement is created exactly when it is at least 0.01; its direction is the flat unit vector towards the home, its velocity that direction at INITIAL_SPEED, both clocks at the start time and no boost |
| GameRules.UnitDirection | src/systems.ts:815-821 | the planar difference divided by its length has length 1 |
| GameRules.PositiveProduct | src/systems.ts:821 | proof helper for `UnitDirection`: a product of two positive numbers is positive |
| GameRules.RateAt | src/systems.ts:880-886 | the deceleration in force at a time; specified by `BoostLasts` |
| GameRules.PenguinAfter | src/systems.ts:906-907 | the penguin's position after one movement frame; `MovementRules` and `MovedKeepsValid` state it |
| GameRules.Ticked | src/systems.ts:876-897 | the speed update keeps the movement invariant |
| GameRules.Boosted | src/systems.ts:580-590 | the swipe boost keeps the movement invariant |
| GameRules.ClampZ | src/systems.ts:961 | `Math.min(z, 58)` |
| GameRules.Followed | src/systems.ts:958-962 | the broom and the player never pass z 58 |
| GameRules.BoostLasts | src/systems.ts:582-587 | the lowered rate lasts exactly SWIPE_DECELERATION_DURATION after a swipe, then the base rate applies |
| GameRules.BoostedRateValue | src/systems.ts:587 | in exact arithmetic, a swipe lowers the deceleration from 0.56 to 0.16 |
| GameRules.SwipeKeepsSpeed | src/systems.ts:588-589 | a swipe does not change the speed |
| GameRules.TickNeverSpeedsUp | src/systems.ts:890 | the speed never grows between updates |
| GameRules.FinalScore | src/systems.ts:609-623 | the score is in [0, MAX_SCORE], and 0 when the round is lost or there is no home |
| GameRules.InitialWorldValid | src/systems.ts:359-371 | the initial snapshot is valid and idle |
| GameRules.DialogAndAnimationKeepPhase | src/systems.ts:419-431 | the dialog and the animation system never change the phase |
| GameRules.StartGameGuard | src/systems.ts:480-514 | `startGame` acts only in idle; it starts a countdown of 3 at `now` with the penguin at its start |
| GameRules.StartFromDialogClosesDialog | src/systems.ts:470-475 | the dialog's Yes closes the dialog and starts like the start button |
| GameRules.CountdownTick | src/systems.ts:745-798 | within a second only the shake moves; after a second the counter drops by one; at 0 the round plays, records the penguin's planar distance to the home, and the movement exists exactly when there is a home at distance at least 0.01 |
| GameRules.OnHomeNotLaunched | src/systems.ts:786-819 | a penguin level with the home records distance 0 and is not launched |
| GameRules.CountdownLastsThreeSeconds | src/systems.ts:745-798 | three ticks one second apart take a fresh countdown to playing; a tick 999 ms in counts nothing |
| GameRules.EndGameRules | src/systems.ts:603-662 | acts only while playing; a lost round scores 0; a score is submitted exactly when not lost and positive |
| GameRules.RestartRules | src/systems.ts:667-734 | acts only in ended; back to the initial record, no movement, the characters back at start |
| GameRules.SwipeRules | src/systems.ts:519-598 | no effect unless playing and before the stop line; boost and clock only once the cooldown has passed |
| GameRules.MovementRules | src/systems.ts:864-1014 | the speed stays non-negative; the broom and player stay at or before z 58; play goes on exactly outside the lose zone above 0.01; the round is lost exactly in the lose zone |
| GameRules.TrackRewritesValid | src/systems.ts:101-108 | every crossfade rewrite keeps each crossfade at the transition duration |
| GameRules.StartKeepsValid | src/systems.ts:480-514 | `startGame` keeps the invariant |
| GameRules.DialogKeepsValid | src/systems.ts:419-475 | the dialog handlers keep the invariant |
| GameRules.RoundClipsKeepValid | src/systems.ts:768-785 | the round's clips keep the tracks valid and change nothing else |
| GameRules.PlayStartKeepsValid | src/systems.ts:761-798 | the start of play keeps the invariant |
| GameRules.CountdownKeepsValid | src/systems.ts:740-801 | the countdown keeps the invariant |
| GameRules.SwipeKeepsValid | src/systems.ts:519-598 | the swipe keeps the invariant |
| GameRules.EndKeepsValid | src/systems.ts:603-662 | `endGame` keeps the invariant, including that every submitted score is in (0, MAX_SCORE] |
| GameRules.RestartKeepsValid | src/systems.ts:667-734 | `restartGame` keeps the invariant |
| GameRules.MovedKeepsValid | src/systems.ts:870-999 | the movement frame before its end checks keeps the invariant |
| GameRules.EndCheckKeepsValid | src/systems.ts:1001-1013 | the end checks keep the invariant |
| GameRules.MovementKeepsValid | src/systems.ts:864-1014 | the movement system keeps the invariant |
| GameRules.AnimationsKeepValid | src/systems.ts:205-294 | the animation system keeps the invariant |
| GameRules.FriendDialogOpened | src/systems.ts:419-431 | the friend dialog opens only in idle; `DialogAndAnimationKeepPhase` and `DialogKeepsValid` state it |
| GameRules.FriendDialogClosed | src/systems.ts:461-465 | the dialog's No closes it; `DialogAndAnimationKeepPhase` and `DialogKeepsValid` state it |
| GameRules.StartedFromDialog | src/systems.ts:470-475 | the dialog's Yes; specified by `StartFromDialogClosesDialog` and `DialogKeepsValid` |
| GameRules.CountedDown | src/systems.ts:756-759 | one second of the countdown; specified by `CountdownTick` |
| GameRules.RoundClipsStarted | src/systems.ts:768-785 | the clips of the start of play; specified by `RoundClipsKeepValid` |
| GameRules.EndClipsPlayed | src/systems.ts:646-661 | the clips of `endGame`; `TrackRewritesValid` and `EndKeepsValid` state it |
| GameRules.RestartClipsPlayed | src/systems.ts:710-727 | the clips of `restartGame`; `TrackRewritesValid` and `RestartKeepsValid` state it |
| GameRules.SwipeClipsPlayed | src/systems.ts:534-576 | the swipe clips; `TrackRewritesValid` and `SwipeKeepsValid` state it |
| GameRules.GameStarted | src/systems.ts:480-514 | `startGame`; specified by `StartGameGuard` and `StartKeepsValid` |
| GameRules.PlayStarted | src/systems.ts:761-798 | the switch to playing, given the penguin's planar distance to the home; specified by `CountdownTick`, `OnHomeNotLaunched` and `PlayStartKeepsValid` |
| GameRules.CountdownTicked | src/systems.ts:740-801 | `gameStateSystem`; specified by `CountdownTick`, `CountdownLastsThreeSeconds` and `CountdownKeepsValid` |
| GameRules.SwipeHandled | src/systems.ts:519-598 | `handleSwipe`; specified by `SwipeRules`, `BoostLasts` and `SwipeKeepsValid` |
| GameRules.GameEnded | src/systems.ts:603-662 | `endGame`; specified by `EndGameRules` and `EndKeepsValid` |
| GameRules.GameRestarted | src/systems.ts:667-734 | `restartGame`; specified by `RestartRules` and `RestartKeepsValid` |
| GameRules.Moved | src/systems.ts:870-999 | the movement frame before its end checks; specified by `MovementRules` and `MovedKeepsValid` |
| GameRules.EndChecked | src/systems.ts:1001-1013 | the lose-zone and stop checks; specified by `MovementRules` and `EndCheckKeepsValid` |
| GameRules.MovementTicked | src/systems.ts:864-1014 | `penguinMovementSystem`; specified by `MovementRules` and `MovementKeepsValid` |
| GameRules.AnimationsStepped | src/systems.ts:205-294 | `animationTransitionSystem`; specified by `DialogAndAnimationKeepPhase` and `AnimationsKeepValid` |
| Systems.Game.constructor | src/systems.ts:324-456 | the initial snapshot, valid, for any scene; a broom or player may have an Animator without a Transform, or the reverse |
| Systems.Game.OpenFriendDialog | src/systems.ts:419-431 | `FriendDialogOpened`, keeping the invariant |
| Systems.Game.CloseFriendDialog | src/systems.ts:461-465 | `FriendDialogClosed`, keeping the invariant |
| Systems.Game.StartGameFromDialog | src/systems.ts:470-475 | `StartedFromDialog`, keeping the invariant |
| Systems.Game.StartGame | src/systems.ts:480-514 | `GameStarted`, keeping the invariant |
| Systems.Game.ResetPositions | src/systems.ts:486-503 | the penguin, and the broom and player when present, at their start; nothing else changes |
| Systems.Game.GameStateTick | src/systems.ts:740-801 | `CountdownTicked`, keeping the invariant, given the penguin's planar distance to the home during the countdown |
| Systems.Game.StartPlaying | src/systems.ts:761-798 | `PlayStarted`, given the penguin's planar distance to the home |
| Systems.Game.InitializeMovement | src/systems.ts:806-843 | the movement is `Launched` towards the home at the planar distance `d`, and the swipe box is shown exactly when launched |
| Systems.Game.HandleSwipe | src/systems.ts:519-598 | `SwipeHandled`, keeping the invariant |
| Systems.Game.Swipe | src/systems.ts:531-597 | the swipe clips, then the boost once the cooldown is over |
| Systems.Game.SwipeInput | src/systems.ts:1020-1030 | a swipe exactly when the key went down |
| Systems.Game.EndGame | src/systems.ts:603-662 | `GameEnded`, keeping the invariant |
| Systems.Game.RestartGame | src/systems.ts:667-734 | `GameRestarted`, keeping the invariant |
| Systems.Game.MovementTick | src/systems.ts:864-1014 | `MovementTicked`, keeping the invariant |
| Systems.Game.Move | src/systems.ts:870-999 | `Moved` |
| Systems.Game.AnimationTick | src/systems.ts:205-294 | `AnimationsStepped`, keeping the invariant |
| Systems.Game.Shake | src/systems.ts:748-750 | only the shake offsets change |
| Systems.Game.CountDown | src/systems.ts:756-759 | the counter one lower in the timer and the record |
| Systems.Game.EnterPlaying | src/systems.ts:763-766 | the record in playing, with the countdown and shake cleared |
| Systems.Game.RecordDistance | src/systems.ts:792 | only the recorded distance changes |
| Systems.Game.RecordEnd | src/systems.ts:625-644 | the ended record, the submission when it counts, and the movement removed |
| Systems.Game.Boost | src/systems.ts:580-592 | the boosted movement and the cooldown clock |
| Systems.Game.TickMovement | src/systems.ts:876-907 | the ticked movement and the penguin's step |
| Systems.Game.RefreshDistanceAndSwipe | src/systems.ts:987-999 | the distance, and `canSwipe` from the player's z |
| Systems.Game.PlayRoundClips | src/systems.ts:768-785 | `RoundClipsStarted` |
| Systems.Game.PlayEndClips | src/systems.ts:646-661 | `EndClipsPlayed` |
| Systems.Game.PlayRestartClips | src/systems.ts:710-727 | `RestartClipsPlayed` |
| Systems.Game.PlaySwipeClips | src/systems.ts:534-576 | `SwipeClipsPlayed` |
| Systems.Game.RestoreIdlesIfDue | src/systems.ts:915-955 | the broom's and player's idle restores |
| Systems.Game.FollowBroom | src/systems.ts:958-971 | the broom follows up to z 58, resting once there |
| Systems.Game.FollowPlayer | src/systems.ts:972-985 | the player follows up to z 58, resting once there |

## Left out

- Rendering and UI:
  - transforms other than positions, including rotations, the penguin's spin, text shapes' fonts, colours and positions, and the UI screens;
  - the friend's bounce, audio, and `movePlayerTo`.
  - These have no effect on game logic.
- Floating-point trigonometry: the countdown shake's `sin`/`cos` offsets are parameters (`shakeX`, `shakeY`), and the crossfade's `Math.pow` is written as a product of exact reals.
- Square roots: every distance is a parameter, constrained by `Scoring.IsDistance2D`.
- Clocks, input and the host: `Date.now()`, E-key presses, `isRoomReady()`, the result of `Storage.get`, the success of `Storage.set`, and the connected players all come in as parameters.
- The asynchronous interleaving of storage I/O with other messages is not modelled. Each handler runs to completion.
- Ping/pong and the message schema are left out, beyond the messages the leaderboard sends.
- JavaScript numbers:
  - Non-finite values are modelled only where the code tests `Number.isFinite`.
  - Scores and counts are unbounded integers.
  - Fractional scores from a foreign client are not modelled; the game's client always rounds.
- `toLowerCase`: only the ASCII letters are mapped.
- JavaScript doubles are modelled as exact reals, with no rounding. Thresholds such as `distance < 0.01`, `z >= 58 - 0.01` and the lose-zone bounds are therefore exact in the model. The lowered deceleration 0.56 − 0.4 is exactly 0.16, where the program computes 0.16000000000000003.
- GameRules.BoostedRateValue: states 0.16 in exact arithmetic, not the double the program computes.
- JavaScript string lengths count UTF-16 code units, while the model's strings count Unicode scalar values. A name with characters outside the Basic Multilingual Plane, such as emoji, is therefore cut and padded differently by the source.
- JsText.Prefix: measures its length in scalar values, not in the UTF-16 code units `substring` counts.
- JsText.PadEnd: pads to n scalar values, not to the n UTF-16 code units `padEnd` counts.
- WorldLeaderboard.FitName: decides "short" and pads by scalar values. Six 🐧 (twelve code units) fit whole here, where the source shows five and "..".
- `loadLeaderboard` on malformed stored data: the store is cleared at server.ts:73 before the loop. A non-array value, or an element whose `address` is not a string, then throws partway and leaves the store empty or partly rebuilt, with no broadcast. The model takes the parsed elements as well-typed records, and `StorageError` covers only failures before the store is cleared.
- The SDK's `playSingleAnimation` for a clip the animator lacks: only the current clip changes in the model.
- The scene's required entities: `initializeGameEntities` returns before setting up any system unless the penguin, the home, the start button and the lose zone all exist (systems.ts:333-336). The model assumes them, with the game-state entity and the penguin's Transform (`Systems.Game.Valid`).
- `home: None` stands for a home entity without a Transform, where `getEntityCenter` returns null (scoring.ts:44-48). `endGame` then records a score and a distance of 0 (systems.ts:616-625), and no movement starts. `endGame`'s early return for a missing `homeEntity` (systems.ts:604) is unreachable, because the entity always exists once the systems run.
- `loseZone: None` stands for a lose-zone entity without a Transform, where the lose-zone check is skipped (systems.ts:1002).
- `submitScore` from the game is recorded as the `submitted` log rather than connected to `LeaderboardClient`.
- `scoring.ts` with a non-positive `maxDistance`: it is never called that way.
- Scoring.Distance2DZero: only one direction is proved. The converse, that distance 0 implies equal x and z, is not stated.
- GameRules.Ticked: its contract states only that the movement invariant is kept. The speed law is proved in `DecayNeverSpeedsUp`, `TickNeverSpeedsUp` and `MovementRules`.
