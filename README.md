# Story Point Arena, modelled in Dafny

Story Point Arena is a planning-poker game. Players estimate a task in
Fibonacci story points. The roster is then split into two teams by the
values chosen, and every player becomes a knight in a real-time battle
between the teams. A small scorer suggests a story-point range for a task
description. A relay server keeps a table of multiplayer rooms, and the
browser-side `NetworkManager` holds the client's session and passes server
events on to the game.

The project models four parts of the code:

- **The game (game.js)**
  - Modules `Players`, `Teams`, `Knights`, `Battle`.
  - Derivation of player stats from five rolled levels.
  - The team split and the start-button check.
  - The roster guards: a non-blank name, a chosen value, at most 20 players.
  - `class Knight`: the per-frame keyboard and AI steps, the arena clamp, the attack cooldown, damage, and the closest-enemy search.
  - `class Game`: spawning, the frame loop with hit resolution, and the end check.
- **The scorer (game.js)**
  - Module `Analysis`.
  - Word, sentence and keyword counts.
  - The capped weighted score.
  - The Fibonacci buckets and the reasoning lines.
- **The room table (server.js)**
  - Module `Relay`, `class RelayServer`.
  - A map from room code to room record, and the room each socket is in.
  - Every `emit` is appended to an outbox.
- **The client session (network.js)**
  - Module `Network`, `class NetworkManager`.
  - The session fields.
  - The guards in front of each request.
  - The socket handlers.
  - The `on`/`off`/`trigger` listener registry.
  - Emitted requests and listener calls are kept as logs.

`Util` holds the `Option` type, JavaScript truthiness of a possibly-null
string, the order-preserving `filter`, and `String.prototype.trim`.

Conventions:

- Coordinates and the unrounded damage are `real`.
- Every `Math.hypot(dx, dy) <= r` test is compared squared, which is exact.
- `Math.round(x)` is `Floor(x + 0.5)`, which is what JavaScript does for halves.
- `Math.random`, `Date.now` and the AI's trigonometric step are parameters of the operations that use them.

Behaviour of the code worth knowing:

- game.js has no facing cones, shields, blocking, rotation, stat persistence or random spawn positions.
- Hits are a circular range test.
- Spawn positions are fixed columns.
- The end of a battle has no guard. While the two-second delay before the winner screen runs, every frame announces the result again (`Battle.Game.Frame`).
- Hits are resolved inside the per-knight loop, right after each knight moves, so a knight killed earlier in a frame does not act later in that frame. The end check runs once, after the loop.
- The server refuses a join only while a room is in battle, so rooms in a race or finished can be joined.
- `leave-room` does not clear the socket's `currentRoom`, so later events from that socket still reach the room it left.

## Model

| member | source | states |
|---|---|---|
| Util.Filter | server.js:108 | the kept entries are entries of the input that the predicate accepts, and there are no more of them |
| Util.FilterMembership | server.js:108 | an entry survives a filter exactly when it was present and is accepted |
| Util.TrimSlice | game.js:61 | the trimmed text is a slice of the input with only whitespace cut on either side, and it neither starts nor ends with whitespace |
| Util.TrimEmpty | game.js:61-66 | a text trims to empty exactly when every character is whitespace, so only blank input is refused |
| Util.DecimalString | server.js:83 | the printed clock reading is a non-empty string of decimal digits |
| Util.DecimalStringValue | server.js:83 | the printed digits read back as the number printed, with no leading zero |
| Players.Round | game.js:709 | `Math.round` gives the integer within half of the value, with halves going up |
| Players.ApplyStats | game.js:687-710 | the loop over the levels yields the HP formula (20 + 3·l0 + l2 + 2·l3) and the rounded damage (5 + 2·l1 + l2 + 1.5·l4) |
| Players.NewPlayer | game.js:662-673 | a new player keeps its name, value and levels and has the derived HP and damage |
| Players.DamageExact | game.js:704-709 | rounded damage equals the integer 5 + 2·l1 + l2 + ⌊(3·l4 + 1)/2⌋ |
| Players.StatRanges | game.js:668-709 | for levels 1..5, maximum HP lies in [26, 50] and rounded damage in [10, 28] |
| Players.RolledPlayerWellFormed | game.js:675-710 | a player built from rolled levels has positive HP and damage |
| Teams.DistinctValues | game.js:333-342 | the distinct values have no duplicates and are exactly the values some player chose |
| Teams.DistinctValuesCount | game.js:318-319 | there are two distinct values exactly when two players chose different values |
| Teams.Insert | game.js:342 | inserting into the sorted list adds exactly one element |
| Teams.InsertIncreasing | game.js:342 | inserting a new value keeps the list strictly increasing |
| Teams.SortAscending | game.js:342 | sorting keeps length and elements |
| Teams.SortAscendingIncreasing | game.js:342 | the sorted distinct values are strictly increasing |
| Teams.SortedValuesFacts | game.js:342 | the ordered values are strictly increasing, one per distinct value, and exactly the chosen values |
| Teams.GatherMembership | game.js:353-363 | pushing the groups of listed values collects exactly the players whose value is listed |
| Teams.GatherMultiset | game.js:353-363 | as a multiset, the pushed groups are the players filtered by the listed values |
| Teams.EvenOddAt | game.js:369-375 | the parity fallback puts element 2j on the left and 2j+1 on the right, with ⌈n/2⌉ and ⌊n/2⌋ of them |
| Teams.EvenOddPermutation | game.js:369-375 | the parity fallback loses and duplicates no player |
| Teams.GroupByPoints | game.js:333-339 | one pass files each player under its value, in roster order, and lists each value once in order of first appearance |
| Teams.PushGroups | game.js:353-363 | pushing the groups of a list of values yields the players of those values, value by value |
| Teams.DealAlternately | game.js:366-376 | the fallback loop deals even indices left and odd indices right |
| Teams.CreateTeams | game.js:331-377 | the teams built are exactly `TeamSplit(players)` |
| Teams.TeamsNonEmpty | game.js:346-363 | with two distinct values, both value halves collect at least one player |
| Teams.TeamsOrdered | game.js:346-363 | every left player's value is below every right player's value |
| Teams.TeamsPermutation | game.js:346-363 | with two distinct values, left ++ right is a permutation of the roster |
| Teams.TeamsByValue | game.js:331-377 | with two distinct values, both teams are non-empty, ordered by value and together a permutation of the roster |
| Teams.TeamsByParity | game.js:366-376 | with a single value (or none), the teams are the even and odd indices |
| Teams.TeamSplitPermutation | game.js:331-377 | whatever the roster, left ++ right is a permutation of it |
| Teams.TeamsNonEmptyFromTwo | game.js:331-377 | from two players on, both teams are non-empty |
| Teams.UpdateStartButton | game.js:306-329 | the button is enabled exactly at two distinct values; the warning shows exactly at two or more players sharing one value |
| Teams.EnabledStartSplitsByValue | game.js:306-377 | an enabled start button means the teams are split by value, never by the parity fallback |
| Knights.Clamp | game.js:757-758 | a clamped coordinate is within the bounds, and one already inside stays unchanged |
| Knights.ClampedInArena | game.js:757-758 | in a large enough arena, the clamped position lies in the arena |
| Knights.HeldAttackCadence | game.js:752-754 | with the attack key held, an attack fires exactly on every 20th frame |
| Knights.AfterDamageBounds | game.js:830-833 | damage never raises HP or takes it below 0, and it kills exactly when it reaches the HP |
| Knights.Knight.constructor | game.js:714-730 | a new knight has full HP, no cooldown, no target, faces down and is consistent |
| Knights.Knight.UpdateCooldowns | game.js:813-820 | the cooldown counts down to 0, and the attack animation ends exactly when it reaches 0 |
| Knights.Knight.Attack | game.js:822-828 | only a knight with no cooldown swings; the swing restarts the cooldown at 20 and raises `justAttacked` |
| Knights.Knight.TakeDamage | game.js:830-833 | HP becomes max(0, hp - amount), and the HP bound is kept |
| Knights.Knight.Steer | game.js:734-749 | each held arrow or WASD key moves by 8 and turns that way, the later keys winning the facing |
| Knights.Knight.Update | game.js:732-761 | one keyboard frame moves, clamps into the arena, and attacks on space only off cooldown; HP, the timer and the target are untouched |
| Knights.Knight.FindClosestEnemy | game.js:796-811 | null exactly when no enemy is alive, otherwise an alive enemy at least distance, the first in array order on ties |
| Knights.Knight.Retarget | game.js:764-769 | the think timer advances; every 15 frames, or when the target is gone or dead, the target becomes the closest enemy, otherwise it stays |
| Knights.Knight.Pursue | game.js:771-793 | toward a living target, the knight steps when farther than 80 and swings when within 100 and off cooldown; then it clamps and ticks the cooldown |
| Knights.Knight.UpdateAI | game.js:763-794 | one AI frame is retarget then pursue; the knight stays consistent, on the arena, and keeps its HP and facing |
| Battle.ArenaIsRoomy | game.js:393-398 | the 1400 by 800 canvas is large enough for the clamp bounds |
| Battle.AddCheckMeaning | game.js:244-260 | a player is added exactly when the name has a non-blank character, a value is chosen and the roster has fewer than 20 |
| Battle.SpliceStart | game.js:273 | the start of `splice(index, 1)` is clamped to the list, with negative indices counting from the end |
| Battle.RemoveAtFacts | game.js:273 | removing at a valid index drops exactly that player, and an index past the end changes nothing |
| Battle.SpawnRows | game.js:407-421 | knights of a team spawn in distinct rows, top to bottom, inside the canvas height |
| Battle.AliveCount | game.js:464-465 | an alive count never exceeds the number of knights |
| Battle.AliveCountIsSize | game.js:464-465 | an alive count is the number of indices holding a living knight of that side, as the filtered array's length is |
| Battle.AliveCountZero | game.js:464-465 | an alive count is 0 exactly when no knight of that side stands |
| Battle.VerdictMeaning | game.js:463-473 | a side wins exactly when it alone stands, it is a draw exactly when no one stands, and nothing ends while both stand |
| Battle.ReadySnoc | game.js:408-421 | adding a fresh settled knight keeps the list ready for battle |
| Battle.Game.constructor | game.js:10-22 | the game starts on the estimation screen with no players, teams, knights or keys; the start button keeps the state the page gave it |
| Battle.Game.KeyDown | game.js:47-52 | a key goes down and is held |
| Battle.Game.KeyUp | game.js:54-56 | a key comes up and is no longer held |
| Battle.Game.ProceedToSetup | game.js:237-239 | the setup screen is shown |
| Battle.Game.AddPlayer | game.js:241-270 | refusals change nothing; otherwise the trimmed-name player with derived stats is appended and the button is refreshed |
| Battle.Game.Enrol | game.js:263-269 | the player is appended and the start button recomputed |
| Battle.Game.RemovePlayer | game.js:272-276 | the roster loses the player at `splice`'s index and the start button is recomputed |
| Battle.Game.SpawnTeam | game.js:406-422 | one new knight per player, in order, at x and its row, ready for battle |
| Battle.Game.SetupAllKnights | game.js:400-427 | the left team spawns at x = 100 and then the right at x = 1300, one fresh knight per player, in team order |
| Battle.Game.CheckAttackHits | game.js:476-497 | without `justAttacked` nothing changes; otherwise the flag clears and exactly the alive enemies within range lose the attacker's damage |
| Battle.Game.Act | game.js:449-455 | knight 0 follows the arrow keys and swings exactly when space is held off cooldown; every other knight retargets (on its think tick or when its target is gone) to the closest living enemy, steps towards a target farther than 80 and swings exactly when the target is alive within 100 off cooldown; the knight is left with an unresolved swing exactly when it swung this frame; HP is untouched and the knight stays on the arena |
| Battle.Game.Turn | game.js:447-461 | a dead knight does nothing; after a living knight's turn every knight's HP is exactly the old HP less the knight's damage (floored at 0) when the knight swung this frame and it was alive and in reach of the knight's new position, and the old HP otherwise; no other knight moves |
| Battle.Game.LiveTurn | game.js:449-460 | the same HP accounting for a knight alive at its turn: its move, then the resolution of its swing |
| Battle.Game.TakeTurn | game.js:447-461 | the turn of knight i carries the loop's progress (HP only down, the dead and the knights still to move unmoved, the living that moved on the arena, the timers) from i to i + 1 |
| Battle.Game.AllTurns | game.js:446-461 | after the loop the dead stay dead and still, no HP rose, the living are on the arena, knight 0 followed the keys, and every living AI knight's timer advanced |
| Battle.Game.EndCheck | game.js:463-473 | the verdict of the alive counts is announced, if there is one |
| Battle.Game.UpdateBattle | game.js:441-474 | one frame of turns followed by the end check |
| Battle.Game.EndBattle | game.js:568-579 | the winner is announced again on every call |
| Battle.Game.Frame | game.js:429-439 | off the battle screen a frame changes nothing; on it the frame has every effect of `UpdateBattle`: the dead stay dead and still, no HP rises, the living are on the arena, knight 0 followed the keys, every living AI knight's timer advanced, and the verdict is announced |
| Battle.Game.SplitTeams | game.js:383 | the teams become `TeamSplit(players)`, both non-empty, with well-formed members |
| Battle.Game.StartBattle | game.js:379-391 | with fewer than two players nothing happens; otherwise the teams are split, the battle screen shows, the knights are the left team's players in order on the left side followed by the right team's in order on the right side, and after the first frame every knight's HP is at most its player's, every living knight is on the arena, knight 0 was steered by the keys from its spawn pose at (100, `SpawnY(0, n)`) for a left team of n and never thinks, and every living AI knight has thought exactly once |
| Battle.Game.Deploy | game.js:383-388 | the teams become `TeamSplit(players)`, the battle screen shows and the knights line up as the left team then the right team, freshly spawned with full HP and no thinking done, knight 0 in its spawn pose |
| Battle.Game.Reset | game.js:645-658 | back to the estimation screen with an empty roster, no teams, no knights and an empty log; held keys stay |
| Analysis.Lower | game.js:90 | lower-casing maps each character and keeps the length |
| Analysis.LowerIdempotent | game.js:90-95 | lower-casing twice is lower-casing once |
| Analysis.Mentions | game.js:92-95 | a keyword count never exceeds the list length |
| Analysis.MentionsNone | game.js:92-95 | a count is 0 exactly when no lower-cased keyword occurs in the lower-cased text |
| Analysis.MentionsIgnoresCase | game.js:90-95 | the counts do not depend on the text's letter case |
| Analysis.SpaceFreeRuns | game.js:80 | a text without whitespace is one word |
| Analysis.WordThenSpace | game.js:80 | prefixing a word and a single space adds exactly one word |
| Analysis.Pieces | game.js:81 | the text splits into one piece more than it has terminators, none containing `.`, `!` or `?` |
| Analysis.SinglePiece | game.js:81 | a text without a terminator is a single piece |
| Analysis.SentenceWithoutTerminator | game.js:81 | a text without a terminator is one sentence if it is not blank, and none otherwise |
| Analysis.Score | game.js:97-111 | the complexity score lies in [0, 100] |
| Analysis.ScoreMonotone | game.js:100-111 | no indicator lowers the score: it is monotone in every count |
| Analysis.BucketIsFibonacciPair | game.js:113-142 | every recommendation is a pair of consecutive Fibonacci numbers, from (1, 2) to (13, 21) |
| Analysis.BucketMonotone | game.js:118-142 | a higher score never recommends fewer points or gives higher confidence |
| Analysis.Remarks | game.js:144-149 | each extra reasoning line is present exactly when its indicator passes its threshold (more than two technical terms, any integration term, any uncertainty term, more than two scope terms, more than 100 words), none is a band summary, at most five in all |
| Analysis.Assess | game.js:97-162 | the band comes from the unrounded capped score; the reported score is that score rounded, in [0, 100]; the first reason names the band and the rest are `Remarks`; counts are as measured |
| Analysis.Analyze | game.js:79-163 | the report carries the text, its word and sentence counts and its mention count for each keyword list; it counts at least one word and no more keyword hits than each list has |
| Analysis.AnalyzeTask | game.js:59-77 | blank input is refused, and everything else is analysed after trimming |
| Relay.SocketIndex | server.js:87 | `findIndex` gives the first entry of the socket, or -1 when there is none |
| Relay.UpsertFacts | server.js:80-92 | the upsert keeps one entry per socket, replaces the socket's entry in place or appends, and keeps every other entry where it was |
| Relay.FilterKeepsUnique | server.js:108 | filtering keeps at most one entry per socket |
| Relay.RemovePlayerFacts | server.js:108 | exactly the entries with other ids remain, still one per socket |
| Relay.LeaveFacts | server.js:326 | exactly the entries of other sockets remain, still one per socket |
| Relay.RelayServer.constructor | server.js:19 | the server starts with no rooms, no memberships and no emits |
| Relay.RelayServer.CreateRoom | server.js:31-46 | a lobby room hosted by the creator with no players is stored under the code (replacing any), and the creator is in it |
| Relay.RelayServer.JoinRoom | server.js:49-70 | unknown code: "Room not found"; in battle: "Game already in progress"; otherwise the joiner is in the room, gets its unchanged player list, and the others are told |
| Relay.RelayServer.AddPlayer | server.js:73-98 | without an open room nothing changes; otherwise the sender's entry is upserted, its id defaulting to socket-clock, and the list is broadcast |
| Relay.RelayServer.RemovePlayer | server.js:101-114 | without an open room nothing changes; otherwise the entries with that id are dropped and the list is broadcast |
| Relay.RelayServer.Start | server.js:117-158 | a non-host gets an error and nothing changes; the host moves the room to battle or race and the start is broadcast |
| Relay.RelayServer.Ended | server.js:206-219 | the room becomes finished and the winner is broadcast |
| Relay.RelayServer.NextBattle | server.js:222-235 | the room returns to the lobby |
| Relay.RelayServer.Forward | server.js:161-203 | a forwarded event goes out only from a socket with a room, and `battle-update` only when that room exists |
| Relay.RelayServer.Leave | server.js:304-319 | with a current room the leave runs; without one nothing changes |
| Relay.RelayServer.HandlePlayerLeave | server.js:322-347 | the room table and emits become those of `LeftRooms`/`LeaveEmits` |
| Relay.LeaveOutcome | server.js:322-347 | the room is deleted exactly when its host left it empty; otherwise it has no entry of the leaver, keeps every other entry, and a departed host is replaced by the first remaining entry; other rooms are untouched |
| Network.Calls | network.js:296 | one call per listener, in listener order, each with the data |
| Network.RegisterFacts | network.js:282-287 | `on` appends the callback to that event's list and leaves other events alone |
| Network.UnregisterFacts | network.js:289-292 | `off` removes every occurrence of the callback from that event's list, keeps the order of the rest, and leaves other events alone |
| Network.OffUndoesOn | network.js:282-292 | `off` after `on` leaves that event's list as it was, minus the callback |
| Network.CallsMeaning | network.js:294-297 | a call is made exactly for a registered listener, with the triggered data |
| Network.CallsAppend | network.js:296 | calling two lists of listeners in turn is calling their concatenation |
| Network.NetworkManager.constructor | network.js:3-13 | the manager starts disconnected, with no room, no host flag, no players and no listeners |
| Network.NetworkManager.InRoom | network.js:304-306 | a truthy room code means in a room; in a room without one means the empty code; not in a room means no code |
| Network.NetworkManager.On | network.js:282-287 | the registry becomes `Register` of the old one |
| Network.NetworkManager.Off | network.js:289-292 | the registry becomes `Unregister` of the old one |
| Network.NetworkManager.Trigger | network.js:294-297 | exactly the registered listeners are called, in order, with the data |
| Network.NetworkManager.RequestRoom | network.js:145-151 | without a connection the caller is refused and nothing is sent; otherwise `create-room` is sent |
| Network.NetworkManager.CreateRoomAnswered | network.js:151-158 | a successful answer makes this client the host of the returned code; a failure changes nothing |
| Network.NetworkManager.RequestJoin | network.js:161-167 | without a connection the caller is refused and nothing is sent; otherwise `join-room` is sent |
| Network.NetworkManager.JoinRoomAnswered | network.js:167-175 | a successful answer makes this client a guest of the code with the listed players, or none; a failure changes nothing |
| Network.NetworkManager.LeaveRoomNow | network.js:178-185 | in a room, `leave-room` is sent and the session is cleared; otherwise nothing changes |
| Network.NetworkManager.Send | network.js:188-279 | nothing is sent without a room code, and the two starts are sent only by the host |
| Network.NetworkManager.Connected | network.js:30-36 | connected, with the socket id recorded and the `connected` listeners called |
| Network.NetworkManager.Disconnected | network.js:38-43 | disconnected, with the room kept and the `disconnected` listeners called |
| Network.NetworkManager.PlayersUpdated | network.js:51-55 | the player list is replaced and its listeners called |
| Network.NetworkManager.BecameHost | network.js:67-71 | the client becomes host and the `became-host` listeners are called |
| Network.NetworkManager.Received | network.js:57-119 | a forwarded server event calls the listeners of the same name with its data, except `return-to-lobby`, whose listeners get no data |

## Left out

- Rendering and the DOM are left out because they are presentation only: canvas drawing, `displayAnalysis`, `showWinner`, `log`, `updatePlayersList`, `updateConnectionStatus`, `showScreen`, `alert` and event-listener wiring. A refusal that would be an alert is a result value instead.
- The hit and defeat messages of `log`, and its trimming to 50 entries, are left out. Only the announced battle outcome is kept, as `outcomes`.
- Timers: `Date.now` is an input of `add-player`. `setTimeout`, `requestAnimationFrame`, `cancelAnimationFrame` and the battle clock are not modelled. Each frame is one call of `Battle.Game.Frame`, and the winner screen that appears two seconds later is absent.
- Randomness: `generateStats` and `generateRoomCode` use `Math.random`, so the five levels and the room code are inputs.
- `Knights.Knight.Pursue`: the AI step toward its target (`cos`/`sin` of `atan2`, times the speed) is the parameter `step`. The model does not state that the step has length 8; only the distance thresholds are exact.
- Floating point is left out, because real arithmetic is used for positions and damage.
- `Analysis.Lower`: `toLowerCase` is modelled on ASCII letters only, because Unicode case mapping is not available.
- `Analysis.SentenceCount` splits at every single terminator instead of at runs of them. The extra pieces are empty and the blank filter drops them, so the count is the same.
- The form's `parseInt` is not modelled. The chosen value is an `Option<int>`, and "no value chosen" is `None`.
- The socket.io and Express transport is left out: delivery of emits, `socket.join`/`leave`, reconnection, `connect_error`, the static server, `/health` and `getLocalIP`. The server keeps an outbox of targeted emits, and the client keeps a log of sent requests.
- Player and event payloads the server never reads are opaque strings.
- The client's `error` handler only shows an alert, and the `isConnected`/`getRoomCode` getters only read a field. They are not modelled.
- Listener functions are opaque ids, and a call is a log entry. A listener that registers or removes listeners while `trigger` runs is not modelled.
- `Network.NetworkManager.InRoom`: `null` and `undefined` are both `None`. A code left `undefined` by an acknowledgement without `roomCode` counts as in a room in the source, but not here.
- The listener registry is a plain object in the source. An event name that collides with a property of `Object.prototype` (such as `constructor`) is not modelled, because a Dafny map has no inherited keys.
