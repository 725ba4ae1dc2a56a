# Scrum poker: a verified model of rooms, rounds and votes

This project models the planning-poker application in Dafny. The model has three parts.

- **Server side**
  - The authoritative in-memory store (`MemStorage`): rooms, participants, votes, the voting history and the two id counters.
  - The push-channel hub: the client and subscriber registries, and the `join_room`, `vote`, `reveal_votes` and `next_round` handlers that drive a room's round. It also covers broadcasting and disconnect cleanup.
  - The statistics archived when a round ends: the numeric reading of a vote, the average, the extremes and the most common value.
  - The HTTP room handlers: create a room through its default and fallback chains, read it, patch it, join it with rehydration, and vote.
- **Shared**: the table shapes, their defaults and generated columns, the cascade rules (a room's deletion removes its participants, votes and archive rows; a participant's deletion removes its votes), and the message envelopes.
- **Client side**
  - The room page: who has voted, the progress percentage, the viewer's own vote, where the shown state comes from, participant restore, and the actions the page sends.
  - The home page: the settings form, the comma-list parser, the preset pickers and join-by-id.
  - The participants panel: statistics, initials, avatar colours and vote badges.
  - The voting cards.
  - The statistics sidebar.

Modules follow the program's files:

| module | file |
|---|---|
| `Schema` | `shared/schema.ts` |
| `Storage` | `server/storage.ts` |
| `Hub` | `server/websocket.ts` |
| `Aggregation` | `server/websocket.ts` (the aggregation helpers) |
| `Routes` | `server/routes.ts` |
| `RoomPage` | `client/src/pages/room.tsx` |
| `HomePage` | `client/src/pages/home.tsx` |
| `ParticipantsPanel`, `VotingCards`, `StatsPanel` | the components of the same names |

Other modules:
- `JsText` models the JavaScript string and number built-ins the code relies on: `parseFloat`, `split`, `join`, `trim`, `toUpperCase`, integer rendering and array-index keys.
- `Seqs` holds filtering lemmas.
- `Wrappers` holds `Option` with `??`.
- `Scenarios` states properties that span several parts of the system.

Modelling conventions:
- **Store maps.** The store's JavaScript `Map`s of participants, votes and history are sequences in insertion order. A write to an existing key keeps its position; a new key is appended. Rooms are a Dafny `map`, because their order is never observed.
- **Nullable values.** A nullable or optional value is an `Option`. JavaScript truthiness of a string is "present and non-empty".
- **Atomic steps.** Each server handler runs as one atomic step. Every socket send is recorded as a `Delivery` in the hub's outbox.
- **Parameters.** Generated ids (room, participant, client) and timestamps are parameters.
- **Numbers.** They are exact reals: `parseFloat` skips leading whitespace and reads an optional sign, digits and a decimal fraction. The progress percentage is the integer nearest to the exact 100k/n, with halves rounded up; the page's floating-point `Math.round((k / n) * 100)` can give one less (see `RoomPage.RoundedPercent` under "## Left out").

## Model

| member | source | states |
|---|---|---|
| `Schema.InsertShapesOmitGeneratedColumns` | shared/schema.ts:79-96 | The insert shape of each table omits exactly its generated columns. Adding the generated columns and omitting them again gives the insert back, and every row is its insert plus its generated columns. |
| `Schema.VotesAfterParticipantDeleted` | shared/schema.ts:56 | Deleting a participant removes every vote it cast, in every round, and no other vote. |
| `Schema.ParticipantIdsOfRoom` | shared/schema.ts:47 | Exactly the ids of the room's participants: the rows the room cascade reaches in the participants table. |
| `Schema.AfterRoomDeleted` | shared/schema.ts:45-65 | Deleting a room removes the room, exactly its participants, its archive rows, and the votes that name the room or one of its participants. Nothing else is removed, and the kept rows keep their order. |
| `Schema.RoomDeletionRemovesExactlyItsVotes` | shared/schema.ts:55-56 | With unique participant ids and every vote cast in its voter's room, the cascade through the participants removes no vote beyond the room's own. |
| `Schema.FindVote` | client/src/pages/room.tsx:199 | The first vote of a participant: it belongs to that participant and sits at the participant's first index. `None` exactly when the participant has no vote. |
| `Schema.FindParticipant` | client/src/pages/room.tsx:68 | A participant with the requested id, or `None` exactly when the roster has none. |
| `Schema.VoteStoryPoints` | client/src/components/voting-cards.tsx:13 | `vote?.storyPoints` is present exactly when a vote exists and has story points, and is then that value. |
| `Schema.VoteTimeEstimate` | client/src/components/voting-cards.tsx:17 | `vote?.timeEstimate` is present exactly when a vote exists and has a time estimate, and is then that value. |
| `Schema.FirstVoteIndex` | client/src/pages/room.tsx:199 | The first position holding a vote of the participant. No earlier vote is theirs, and the position is the length when they have none. |
| `Schema.EnvelopeRoundTrip` | shared/schema.ts:107-144 | Every inbound message travels as a `{type, payload}` envelope tagged with its type, and decoding the envelope gives the same message back. |
| `Schema.DistinctTags` | shared/schema.ts:113-144 | The four known message types have distinct tags, so dispatch by tag is unambiguous. |
| `Storage.PatchLaws` | server/storage.ts:53-60 | About `{...room, ...updates}`: an empty patch changes nothing, and applying a patch twice is applying it once. Two patches in a row equal their merge, and a patch naming every field replaces the room. |
| `Storage.HandlerPatches` | server/websocket.ts:207-273 | The reveal patch sets only `isRevealed`. The next-round patch sets only the round, the description and `isRevealed := false`. |
| `Storage.ParticipantIndex` | server/storage.ts:70 | The position of the participant with the id, or `None` exactly when no entry has it. |
| `Storage.PutParticipant` | server/storage.ts:70 | `Map.set` keyed by id: the new participant is present, any other entry is one of the old ones, and every old entry with another id is kept. |
| `Storage.PutParticipantKeepsIdsDistinct` | server/storage.ts:63-72 | Storing a participant keeps participant ids unique. |
| `Storage.VoteIndex` | server/storage.ts:95-96 | Finds the first stored vote with this participant and round, whatever its room. `None` exactly when there is none. |
| `Storage.MergeVote` | server/storage.ts:98-107 | Updating a vote keeps its id, room, participant and round. A null input field keeps the earlier value; a present one overwrites it. |
| `Storage.VoteIdsOf` | server/storage.ts:83-88 | The collected ids are exactly the ids of the participant's votes. |
| `Storage.InsertByRound` | server/storage.ts:146 | Inserting an entry into a list keeps the list highest-round-first and adds exactly that entry. The entries of each round keep their order. |
| `Storage.SortByRoundDescending` | server/storage.ts:143-147 | The sort is a permutation of its input, ordered highest round first and stable: the entries of each round keep their order. |
| `Storage.MemStorage.constructor` | server/storage.ts:31-37 | The store starts empty with both counters at 1. |
| `Storage.MemStorage.GetRoom` | server/storage.ts:49-51 | The stored room, or `None` exactly when the id is not stored. |
| `Storage.MemStorage.CreateRoom` | server/storage.ts:40-47 | The room is stored as its insert plus `createdAt`, and `getRoom` reads it back. Nothing else changes. |
| `Storage.MemStorage.UpdateRoom` | server/storage.ts:53-60 | A missing id gives `None` and leaves every map unchanged. Otherwise the stored and returned room is the patch merged into the old room. |
| `Storage.MemStorage.CreateParticipant` | server/storage.ts:63-72 | The participant gets the store's fresh id, is stored as its insert plus id and `joinedAt`, and can be read back. When the id is new it is appended. |
| `Storage.MemStorage.GetParticipantsByRoom` | server/storage.ts:74-76 | Exactly the stored participants of the room, kept in store order. |
| `Storage.MemStorage.GetParticipant` | server/storage.ts:78-80 | A stored participant with the id, or `None` exactly when there is none. |
| `Storage.MemStorage.RemoveParticipant` | server/storage.ts:82-90 | The loop deletes the participant and every vote it cast in all rounds. All other votes and all other maps are untouched. |
| `Storage.MemStorage.CreateOrUpdateVote` | server/storage.ts:93-119 | Upsert keyed by (participant, round). An existing vote is merged in place and keeps its id. Otherwise a new vote gets `currentVoteId` and the counter is incremented. The store invariant keeps one vote per key and strictly increasing vote ids. |
| `Storage.MemStorage.GetVotesByRoomAndRound` | server/storage.ts:121-124 | Exactly the votes with both this room id and this round, kept in store order. |
| `Storage.MemStorage.GetVoteByParticipantAndRound` | server/storage.ts:126-129 | The vote for this (participant, round) key, or `None` exactly when there is none. |
| `Storage.MemStorage.CreateVotingHistory` | server/storage.ts:132-141 | Always appends the entry, never deduplicates. It takes the next history id, which is larger than every earlier id. |
| `Storage.MemStorage.GetVotingHistoryByRoom` | server/storage.ts:143-147 | Exactly the room's entries, highest round first. Entries of the same round stay in insertion order. |
| `Storage.MemStorage.RoomState` | server/websocket.ts:278-293 | `None` exactly when the room is missing. Otherwise the snapshot holds the room; exactly the room's participants, in store order; exactly the votes of its current round; and exactly its history rows, highest round first. |
| `Storage.DeletingVoteIdsIsCascade` | server/storage.ts:83-89 | Deleting by id the votes collected for a participant is exactly the cascade rule of the votes table. It keeps ids ascending and one vote per (participant, round). |
| `Storage.OnlyVoteOfKey` | server/storage.ts:95-96 | Under the one-vote-per-key invariant, the lookup by (participant, round) finds the only such vote. |
| `Aggregation.ParseVoteValueOfSymbols` | server/websocket.ts:338-354 | "?" reads as 0 and XS..XXL read as 1..6. |
| `Aggregation.ParseVoteValueOfInt` | server/websocket.ts:356-358 | A rendered integer reads as that integer. |
| `Aggregation.ParseVoteValueOfWord` | server/websocket.ts:356-358 | A value that is not a size and does not start like a number reads as 0. |
| `Aggregation.Positives` | server/websocket.ts:362 | Keeps exactly the readings greater than 0. |
| `Aggregation.MinOf` | server/websocket.ts:183 | `Math.min` is one of the readings and is at most every reading. |
| `Aggregation.MaxOf` | server/websocket.ts:184 | `Math.max` is one of the readings and is at least every reading. |
| `Aggregation.MeanBounds` | server/websocket.ts:365 | A mean lies between any lower and any upper bound of its elements. |
| `Aggregation.CalculateAverage` | server/websocket.ts:361-367 | "0" exactly when no value reads as positive. Otherwise it lies between the minimum and the maximum of the positive readings; `Aggregation.AverageIgnoresUnknown` pins the value on an example. |
| `Aggregation.AverageIgnoresUnknown` | server/websocket.ts:361-367 | `["3","5","5","?"]` averages to 13/3: the unknown card is not counted. |
| `Aggregation.AverageOfSizes` | server/websocket.ts:345-367 | T-shirt sizes average by rank. |
| `Aggregation.Present` | server/websocket.ts:150-151 | `filter(v => v.x).map(v => v.x!)` keeps each present, non-empty value as often as it occurs, and never an empty value. |
| `Aggregation.PresentMembership` | server/websocket.ts:150-151 | A value survives the filter exactly when it is non-empty and present. |
| `Aggregation.IndexOf` | server/websocket.ts:330-333 | The first position of a value. |
| `Aggregation.KeyBeforeTransitive` | server/websocket.ts:335 | Object key enumeration order is transitive. |
| `Aggregation.KeyBeforeTotal` | server/websocket.ts:335 | Object key enumeration order is total on distinct keys. |
| `Aggregation.MostCommonUnique` | server/websocket.ts:329-336 | The result of `getMostCommon` is determined by its input. |
| `Aggregation.MajorityIsMostCommon` | server/websocket.ts:329-336 | A value held by a strict majority is the most common value. |
| `Aggregation.GetMostCommon` | server/websocket.ts:329-336 | The counting loop and the reduce return an element of the list with a maximal count. On a tie they keep the key enumerated last: array-index keys first, ascending, then the rest in insertion order. |
| `Aggregation.MostCommonExamples` | server/websocket.ts:329-336 | Examples: "5" wins `["5","3","5"]`; "13" beats "3" on a tie, because index keys enumerate numerically; "?" beats "3" on a tie, because non-index keys come last. |
| `Aggregation.DimensionStats` | server/websocket.ts:177-187 | No values gives all four statistics null. Otherwise they are the most common value, the average, and the min and max of the unfiltered readings. |
| `Aggregation.HistoryEntry` | server/websocket.ts:174-189 | The archive row carries the room, the round and the description, and summarizes the story point and time votes. |
| `Aggregation.ConsensusIsCast` | server/websocket.ts:181 | The archived consensus is a story point value somebody cast. |
| `Aggregation.ExtremesBoundCast` | server/websocket.ts:183-184 | The archived min and max bound the reading of every story point value cast, "?" included as 0. |
| `Hub.Hub.constructor` | server/websocket.ts:20-21 | Both registries start empty and nothing has been sent. |
| `Hub.Hub.Subscribers` | server/websocket.ts:296-306 | The recipients of a broadcast are exactly the ids in `roomClients[roomId]` that are registered with an open socket. The set is empty when the room has no subscriber set. |
| `Hub.Hub.BroadcastOf` | server/websocket.ts:278-307 | A broadcast sends nothing when the room or its subscriber set is missing. Otherwise it sends the room's snapshot to exactly its subscribers. |
| `Hub.Hub.Connect` | server/websocket.ts:35-37 | A new connection is registered, open and in no room. |
| `Hub.Hub.SocketClosing` | server/websocket.ts:303 | A closing socket stays registered but no longer receives broadcasts. |
| `Hub.Hub.SelectRecipients` | server/websocket.ts:300-306 | The loop keeps exactly the registered, open clients of the subscriber set. |
| `Hub.Hub.BroadcastRoomUpdate` | server/websocket.ts:278-307 | Appends exactly `BroadcastOf(roomId)` to the outbox and changes no registry. |
| `Hub.Hub.HandleJoinRoom` | server/websocket.ts:95-126 | A missing room or participant only sends an error to the caller. Otherwise the client records the room and participant, joins the room's subscriber set, and the room is broadcast. Stated as `JoinRoomEffect`. |
| `Hub.Hub.HandleVote` | server/websocket.ts:128-195 | Ignored unless the sender's room and participant match the payload and the room exists. Otherwise the vote is upserted for the current round. Auto-reveal fires exactly when auto-reveal is on, the room is unrevealed and every participant has story points, plus a time estimate when the room is dual. It archives the round only when there is no row for it yet. Stated as `VoteEffect`. |
| `Hub.Hub.ArchiveRow` | server/websocket.ts:174-189 | Appends one row that summarizes the round's votes and touches nothing else. |
| `Hub.Hub.HandleRevealVotes` | server/websocket.ts:197-237 | Ignored unless the sender joined this existing room. Otherwise it reveals the room. It archives exactly when the round has votes and no archive row, so repeated reveals never duplicate history. Stated as `RevealEffect`. |
| `Hub.Hub.HandleNextRound` | server/websocket.ts:239-276 | Ignored unless the sender joined this existing room. It archives exactly when the round has votes and is revealed, with no check for an existing row. Then it opens round+1, unrevealed, with description `description \|\| ""`. Stated as `NextRoundEffect`. |
| `Hub.Hub.ArchiveIfRevealedWithVotes` | server/websocket.ts:247-266 | A revealed round with votes gets one summarizing row, with no check for an existing row; otherwise the history is unchanged. Rooms, participants and votes are never touched. |
| `Hub.Hub.HandleDisconnect` | server/websocket.ts:309-323 | The client leaves the subscriber set of the room it last joined, an emptied set is deleted, and the client is unregistered. |
| `Hub.Hub.HandleMessage` | server/websocket.ts:65-93 | Each of the four known message types has exactly the effect its handler promises (`JoinRoomEffect`, `VoteEffect`, `RevealEffect`, `NextRoundEffect`), and a join never touches the store. A message from an unregistered client or of an unknown type changes nothing. |
| `Routes.ValuesFor` | server/routes.ts:51-52 | `body \|\| presets[key] \|\| fallback`: a list from the body wins even when empty. Otherwise the preset named by the key is used, else the fallback. |
| `Routes.NewRoom` | server/routes.ts:42-57 | A new room starts at round 1, unrevealed, with description "" and created by "anonymous-user". Its name, system and units are never empty. `dualVoting` and `autoReveal` take the body's value whenever one is given, false included. |
| `Routes.NewRoomFromEmptyBody` | server/routes.ts:11-52 | An empty body gives "Planning Session", fibonacci, hours, dual voting and no auto-reveal, with the fibonacci and hours presets. |
| `Routes.NewRoomFallbacks` | server/routes.ts:46-52 | How the fallback chains behave: an empty name or system falls back, and an explicit empty list is kept. A known system without a list takes that system's preset, an unknown unit takes the hours preset, and an explicit `false` is kept. |
| `Routes.PostRoom` | server/routes.ts:42-66 | Stores the built room under the fresh id and returns it. Nothing else changes. |
| `Routes.GetRoomDetails` | server/routes.ts:69-89 | 404 for a missing room. Otherwise returns the room's snapshot (`RoomState`): the room, its participants and only the current round's votes, both in store order, and its history highest round first. |
| `Routes.PatchRoom` | server/routes.ts:92-102 | 404 and no change for a missing room. Otherwise the merged room is stored and returned. |
| `Routes.JoinRoom` | server/routes.ts:105-142 | 404 for a missing room. A non-empty participant id found in the room rehydrates that participant and creates nothing. Otherwise a new participant joins ("Anonymous" and not creator by default) with `rehydrated = false`. |
| `Routes.CastVote` | server/routes.ts:174-196 | 404 for a missing room and 400 without a participant id. Otherwise it upserts the vote for the room's current round, whatever round the body names. |
| `RoomPage.VotedParticipants` | client/src/pages/room.tsx:210-216 | Exactly the participants whose first vote has truthy story points, plus a truthy time estimate in a dual room. |
| `RoomPage.RoundedPercent` | client/src/pages/room.tsx:210-217 | The integer nearest to the exact 100k/n, with halves rounded up: the greatest integer not above 100k/n + 1/2. The page rounds a floating-point quotient instead, which can be one less. |
| `RoomPage.RoundedPercentRange` | client/src/pages/room.tsx:209-218 | The percentage lies in 0..100. It is 0 exactly when fewer than 1 in 200 voted, and 100 exactly when at least 199 in 200 did. |
| `RoomPage.VotingProgress` | client/src/pages/room.tsx:209-218 | 0 for an empty roster, otherwise the rounded share of voted participants. Always within 0..100. |
| `RoomPage.AllVotedIsFullProgress` | client/src/pages/room.tsx:200-218 | A non-empty roster that has all voted shows 100%. |
| `RoomPage.NobodyVotedIsZeroProgress` | client/src/pages/room.tsx:209-218 | A roster where nobody has voted shows 0%. |
| `RoomPage.CurrentUserVote` | client/src/pages/room.tsx:199 | The viewer's first vote, or `None` exactly when the viewer has not voted. |
| `RoomPage.ShownState` | client/src/pages/room.tsx:174-177 | The room falls back to the fetched room only while the push channel has none. Participants, votes and history always come from the push channel, because its empty arrays are truthy. |
| `RoomPage.FirstRenderShowsFetchedRoomOnly` | client/src/pages/room.tsx:174-177 | Before the first push update, the page shows the fetched room with an empty roster and no votes. |
| `RoomPage.RoomPage.constructor` | client/src/pages/room.tsx:28-33 | The page starts with no participant, no dialog and an empty description, with clearing on. |
| `RoomPage.RoomPage.RestoreParticipant` | client/src/pages/room.tsx:50-86 | A failed fetch goes home. Otherwise, with the room fetched and no participant yet, a stored id and name found in the roster are reused without joining. Failing that, a creator joins as "Room Creator" and anyone else gets the join dialog. |
| `RoomPage.RoomPage.HandleVote` | client/src/hooks/use-websocket.ts:64-71 | Sends the chosen values as the viewer's vote exactly when the room id and the participant's id are non-empty, otherwise nothing. |
| `RoomPage.RoomPage.HandleRevealVotes` | client/src/hooks/use-websocket.ts:73-80 | Sends a reveal for the room exactly when its id is non-empty. |
| `RoomPage.RoomPage.HandleNextRound` | client/src/pages/room.tsx:126-131 | Sends the typed description when the room id is non-empty, then clears it only when the clear flag is set. |
| `HomePage.PresetText` | client/src/pages/home.tsx:224-293 | An unknown system or unit falls back to the fibonacci or hours text. |
| `HomePage.TrimAll` | client/src/pages/home.tsx:70 | `map(v => v.trim())`, piece by piece. |
| `HomePage.ParseValueList` | client/src/pages/home.tsx:67-78 | The result is exactly the non-empty trimmed pieces between commas. None is empty, none has surrounding whitespace, and none contains a comma. |
| `HomePage.ParseValueListOfEmpty` | client/src/pages/home.tsx:67-71 | The empty text gives the empty list. |
| `HomePage.ParseValueListOfJoin` | client/src/pages/home.tsx:67-78 | Parsing undoes joining with ", ": a list of non-empty, trimmed, comma-free values comes back unchanged. |
| `HomePage.BackendSettings` | client/src/pages/home.tsx:59-79 | A disabled dimension sends `[]` and a fixed default, fibonacci or hours. `dualVoting` is both switches on. |
| `HomePage.RoomFromSettings` | client/src/pages/home.tsx:59-80 | The room the server builds from the form keeps the client's lists as sent. A room with story points switched off has no story point values and is not dual. Every value is non-empty and trimmed. |
| `HomePage.HomePage.constructor` | client/src/pages/home.tsx:44-55 | The form starts with its initial settings. |
| `HomePage.HomePage.SelectStorySystem` | client/src/pages/home.tsx:223-238 | Picking a system sets it and fills in its preset text, or fibonacci's for an unknown system. |
| `HomePage.HomePage.SelectTimeUnits` | client/src/pages/home.tsx:283-294 | Picking a unit sets it and fills in its preset text, or hours' for an unknown unit. |
| `HomePage.HomePage.EditJoinRoomId` | client/src/pages/home.tsx:370 | The room id field stores the upper-cased text. |
| `HomePage.HomePage.CreateRoom` | client/src/pages/home.tsx:59-80 | Sends the mapped settings. |
| `HomePage.HomePage.HandleJoinRoom` | client/src/pages/home.tsx:101-111 | A blank or whitespace-only id does not navigate. Otherwise the page goes to "/room/" plus the upper-cased, untrimmed id. |
| `HomePage.JoinPathKeepsSpaces` | client/src/pages/home.tsx:102-110 | An id with surrounding spaces is accepted and its spaces stay in the path. |
| `ParticipantsPanel.CalculateStats` | client/src/components/participants-panel.tsx:14-40 | Dashes exactly when the values are empty, the round is unrevealed, or no value reads as positive. Otherwise: min ≤ avg ≤ max, all positive, and min and max are readings (not the original strings). Every positive reading lies between min and max, and avg is the server's average. |
| `ParticipantsPanel.VotingStatistics` | client/src/components/participants-panel.tsx:42-89 | Statistics are computed over the truthy story points, and over the truthy time estimates only in a dual room. |
| `ParticipantsPanel.PanelMinSkipsUnknown` | client/src/components/participants-panel.tsx:20-37 | For `["?","3"]` the panel shows 3/3/3, while the archived minimum of the same values is 0. |
| `ParticipantsPanel.FirstChars` | client/src/components/participants-panel.tsx:109-110 | `map(w => w[0]).join("")` is the first character of every non-empty word, in order. |
| `ParticipantsPanel.Initials` | client/src/components/participants-panel.tsx:106-113 | The initials are the upper-cased first characters of the first two non-empty space-separated words: min(2, number of words) characters. |
| `ParticipantsPanel.InitialsOfTwoWords` | client/src/components/participants-panel.tsx:106-113 | Two words give their two capitals. |
| `ParticipantsPanel.InitialsOfEmptyName` | client/src/components/participants-panel.tsx:106-113 | An empty name has no initials. |
| `ParticipantsPanel.ParticipantColor` | client/src/components/participants-panel.tsx:119-131 | Every position gets one of the eight colours. |
| `ParticipantsPanel.ColorCycles` | client/src/components/participants-panel.tsx:130 | Colours repeat every eight positions. |
| `ParticipantsPanel.NearbyColorsDiffer` | client/src/components/participants-panel.tsx:120-130 | Any eight consecutive positions have eight different colours. |
| `ParticipantsPanel.VoteBadge` | client/src/components/participants-panel.tsx:140-177 | A clock exactly when the value is absent. The value itself exactly when it is present and revealed, otherwise a check mark. An empty value counts as present. |
| `ParticipantsPanel.Rows` | client/src/components/participants-panel.tsx:138-196 | One row per participant, in order. Row i has the i-th colour, and its badges come from the participant's first vote. There is a time badge exactly in a dual room. |
| `ParticipantsPanel.HiddenUntilRevealed` | client/src/components/participants-panel.tsx:171-194 | Before the reveal no badge shows a value. |
| `VotingCards.SelectStoryPoint` | client/src/components/voting-cards.tsx:12-14 | Choosing a story point sends it together with the viewer's current time estimate. |
| `VotingCards.SelectTimeEstimate` | client/src/components/voting-cards.tsx:16-18 | Choosing a time sends it together with the viewer's current story points. |
| `VotingCards.StoryChoiceKeepsTime` | client/src/components/voting-cards.tsx:12-52 | After a story point choice is stored, the time estimate is unchanged and the chosen card is highlighted. |
| `VotingCards.TimeChoiceKeepsStory` | client/src/components/voting-cards.tsx:16-88 | After a time choice is stored, the story points are unchanged and the chosen card is highlighted. |
| `VotingCards.UnitInitial` | client/src/components/voting-cards.tsx:82 | `timeUnits[0]` in a template is the first character, or "undefined" for an empty unit name. |
| `VotingCards.TimeLabel` | client/src/components/voting-cards.tsx:82 | "?" stays "?". Any other value is followed by the unit's initial. |
| `VotingCards.TimeLabelInjective` | client/src/components/voting-cards.tsx:82 | Distinct time values give distinct labels when the unit name does not start with '?'. |
| `VotingCards.TimeLabelExamples` | client/src/components/voting-cards.tsx:82 | "8" in hours is "8h", "0.5" in days is "0.5d", and an empty unit gives "8undefined". |
| `VotingCards.StoryCards` | client/src/components/voting-cards.tsx:30-52 | One card per story point value, in order. Each is disabled exactly when revealed, and highlighted exactly when the viewer's story point equals its value. |
| `VotingCards.TimeCards` | client/src/components/voting-cards.tsx:57-88 | Time cards exist exactly in a dual room. They are labelled with the unit's initial, and are disabled and highlighted by the same rules as the story point cards. |
| `VotingCards.AtMostOneStoryCardSelected` | client/src/components/voting-cards.tsx:37 | With distinct values at most one card is highlighted. One is exactly when the viewer's value is listed. |
| `VotingCards.AtMostOneTimeCardSelected` | client/src/components/voting-cards.tsx:70 | The same rule for the time cards. |
| `StatsPanel.VotesLabel` | client/src/components/stats-panel.tsx:37-38 | "N votes" for a positive count, "No votes" for none. |
| `StatsPanel.VotesLabelReadsBack` | client/src/components/stats-panel.tsx:37-38 | Reading the number at the front of a label gives the count back, and only zero reads "No votes". |
| `StatsPanel.VotesLabelInjective` | client/src/components/stats-panel.tsx:37-38 | Different counts give different labels. |
| `StatsPanel.GetCurrentStats` | client/src/components/stats-panel.tsx:25-40 | "Voting..." twice when there are no votes. Otherwise it gives the labels of the counts of truthy story points and of truthy time estimates. |
| `StatsPanel.EmptyStoryPointsCountAsNone` | client/src/components/stats-panel.tsx:33-37 | Votes whose story points are all empty or null read "No votes", although somebody voted. |
| `StatsPanel.CurrentRoundCard` | client/src/components/stats-panel.tsx:54-68 | The time row is shown exactly in a dual room. |
| `StatsPanel.BoolLabel` | client/src/components/stats-panel.tsx:95 | The first text when the flag is set, the second otherwise. |
| `StatsPanel.RoomSettingsCard` | client/src/components/stats-panel.tsx:91-115 | "Dual Voting" exactly when the room is dual, else "Story Points Only"; "Enabled" exactly when auto-reveal is on, else "Disabled"; the number of participants and the room's voting system. |
| `Scenarios.RevealThenNextRound` | server/websocket.ts:206-266 | Reveal followed by next round leaves two history rows for one round. The room then moves to round+1, unrevealed. |
| `Scenarios.RevealTwice` | server/websocket.ts:206-234 | Two reveals in a row add at most one history row. |
| `Scenarios.ClientAllVotedImpliesServerCondition` | client/src/pages/room.tsx:200-207 | When the page counts everyone as voted, the server's auto-reveal condition holds for the same votes. |
| `Scenarios.EmptyStoryPointVote` | server/websocket.ts:160-166 | An empty story point completes the server's auto-reveal condition and shows a check mark. Yet the page counts nobody as voted, shows 0% and the sidebar reads "No votes". |

## Left out

- Floating point is not modelled.
  - Readings, averages and extremes are exact reals.
  - `toFixed(1)` and `Number.prototype.toString` rendering of the archived statistics is not modelled: a history row holds the numbers.
  - `parseFloat` reads no exponent and no `Infinity` forms.
- The T-shirt lookup `tshirtMap[value]` is modelled on its six own keys only. Inherited object keys such as "constructor" are not modelled.
- No operation deletes a room, so `Schema.AfterRoomDeleted` states the room cascade as a rule that no operation exercises. The participant rule is the one the store's `RemoveParticipant` carries out, and its contract says it matches `Schema.VotesAfterParticipantDeleted`.
- Schema.Decode: a payload that lacks a field its message type requires decodes to `None`, and no handler runs. The server runs the handler with the field `undefined` instead. For `join_room` that sends the "Room or participant not found" error to the caller; for the other types the handler's guards make it change nothing.
- HomePage.HomePage.CreateRoom: the create button is disabled while a create request is pending, so a second click then does nothing. The model has no pending state and records every click as a request.
- The socket hook's `wsRef.current` test is not modelled: the room page's sends assume an open socket, as the transport is outside the model.
- Kicking a participant is left out. `handleKickParticipant` is dispatched but not defined, and its message type is not declared, so there is nothing to model.
- The socket transport is outside the model.
  - Not modelled: the WebSocket server setup, JSON parsing, the "Invalid message format" reply, `ws.send`, and the client's websocket hook and its state updates.
  - Sends are recorded in the hub's outbox.
  - A web-socket `error` event is the same cleanup as `close` (`HandleDisconnect`).
- Request validation is not modelled. The insert schemas' zod `parse` and its 400 answers are outside the model: request bodies are given as already-typed fields.
- Generated ids and clock readings are parameters of the operations: `generateClientId`, `generateRoomId`, participant ids and `new Date()`. Their freshness is the caller's.
- Async interleaving is not modelled. Each handler runs as one atomic step, and concurrent handlers are not interleaved.
- Browser state stays outside the model: `sessionStorage` reads and writes, `window.location`, `encodeURIComponent` of the creator's name in the post-create navigation, and toasts. The stored id and name are inputs to `RestoreParticipant`.
- The page's own join request (`handleJoinRoom` in the room page) and the auto-reveal PATCH from the page are not modelled: both are calls to the HTTP handlers modelled in `Routes`. The page records the names it asks to join under.
- Case mapping is ASCII: `toUpperCase` converts a–z only, and other characters are kept.
- React rendering, styling, the share and join dialogs, landing page and presenter mode are out of scope. So are authentication (`replitAuth`, `simpleAuth`, `googleAuth` and the login forms) and the generic participant and vote endpoints (`/api/participants`, `/api/votes`, `/api/rooms/:id/history`).
- `HomePage`'s preset texts are stated as constants. No lemma relates them to the server presets. They differ: the client's fibonacci text has no 34, and its hours text has no 6 after the initial one.
- RoomPage.RoundedPercent: the percentage is computed from the exact quotient, not from JavaScript's floating-point `(k / n) * 100`. The two can differ by one: 23 of 40 is 57.49999999999999 in floating point and the page shows 57%, where the model gives 58%. The 0% and 100% thresholds of `RoomPage.RoundedPercentRange` are unaffected.
- ParticipantsPanel.FirstChars: `word[0]` takes one UTF-16 code unit, while a Dafny `char` is a whole Unicode scalar value. For a word starting with a character outside the Basic Multilingual Plane, such as an emoji, the page takes a lone surrogate and the model takes the whole character. `ParticipantsPanel.Initials` inherits this.
- VotingCards.UnitInitial: `timeUnits[0]` is likewise one UTF-16 code unit in the page and a whole character in the model; they differ only when the unit name starts outside the Basic Multilingual Plane.
- Routes.ValuesFor: the preset tables `DEFAULT_VOTING_SYSTEMS` and `DEFAULT_TIME_UNITS` are plain object literals, so a key such as "constructor", "toString" or "__proto__" finds an inherited value. That value is truthy, `||` keeps it, and `insertRoomSchema.parse` then sees a list field that is not a list. The model looks keys up in a `map` that holds only the tables' own keys, so for those keys it gives the fallback list. The same holds for `Routes.NewRoom`.
- HomePage.PresetText: its tables are plain objects too, but the page's selects only pass the known keys, so the inherited keys cannot arise there.
- Aggregation.GetMostCommon: `counts` is a plain object, so its inherited keys are not modelled. A "__proto__" vote sets the prototype instead of a key, so `["__proto__"]` leaves no entries and the reduce throws; a "constructor" vote starts from the inherited function and its count becomes a string. The model counts both as ordinary keys.
- Aggregation.GetMostCommon: the tie rule follows the JavaScript key order of an object whose keys are first set in first-occurrence order. Array-index keys (canonical decimal numbers below 2^32 − 1) enumerate first, ascending. A key like "01" counts as a plain string key.

## Behaviour worth knowing

Some consequences of the code that the model states and proves:

- **Consensus ties.** The reduce at server/websocket.ts:335 keeps the later entry on a tie, and JavaScript enumerates integer-like keys first. So "13" beats "3", and "?" beats "3" (`Aggregation.MostCommonExamples`).
- **Archived min and max.** At server/websocket.ts:183-186 the archive stores `Math.min`/`Math.max` of all readings, where "?" reads as 0 (`Aggregation.ExtremesBoundCast`). The panel's statistics skip readings of 0 (`ParticipantsPanel.PanelMinSkipsUnknown`), so the two can disagree.
- **Duplicate archive rows.** `reveal_votes` archives only when the round has no row yet, but `next_round` (server/websocket.ts:248-266) archives without that check. Reveal followed by next round therefore leaves two rows for one round (`Scenarios.RevealThenNextRound`).
- **What counts as voted.** The server's auto-reveal (server/websocket.ts:153-162) counts any non-null story point, the empty string included. The page and the sidebar require a non-empty one (`Scenarios.EmptyStoryPointVote`).
