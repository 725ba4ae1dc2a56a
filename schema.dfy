/** The four tables (rooms, participants, votes, voting history), their
    column defaults, the insert shapes that omit generated columns, and the
    push-channel message envelopes. */
module Schema {
  import opened Wrappers
  import opened Seqs

  /** A `new Date()` value; the clock is an input of every operation that
      stamps a row. */
  type Timestamp = nat

  // Column defaults of the rooms and participants tables.
  const DefaultVotingSystem: string := "fibonacci"
  const DefaultTimeUnits: string := "hours"
  const DefaultDualVoting: bool := true
  const DefaultAutoReveal: bool := false
  const DefaultCurrentRound: int := 1
  const DefaultCurrentDescription: string := ""
  const DefaultIsRevealed: bool := false
  const DefaultIsCreator: bool := false

  /** A planning session. `currentDescription` and `createdBy` are nullable;
      the value lists are non-null but may be empty. */
  datatype Room = Room(
    id: string,
    name: string,
    votingSystem: string,
    timeUnits: string,
    dualVoting: bool,
    autoReveal: bool,
    storyPointValues: seq<string>,
    timeValues: seq<string>,
    currentRound: int,
    currentDescription: Option<string>,
    isRevealed: bool,
    createdBy: Option<string>,
    createdAt: Timestamp)

  /** A room without its generated `createdAt` column. */
  datatype InsertRoom = InsertRoom(
    id: string,
    name: string,
    votingSystem: string,
    timeUnits: string,
    dualVoting: bool,
    autoReveal: bool,
    storyPointValues: seq<string>,
    timeValues: seq<string>,
    currentRound: int,
    currentDescription: Option<string>,
    isRevealed: bool,
    createdBy: Option<string>)

  datatype Participant = Participant(
    id: string,
    roomId: string,
    name: string,
    isCreator: bool,
    joinedAt: Timestamp)

  /** A participant without its generated `id` and `joinedAt` columns. */
  datatype InsertParticipant = InsertParticipant(roomId: string, name: string, isCreator: bool)

  /** One participant's vote in one round; a `None` field means "not yet
      voted on that dimension". */
  datatype Vote = Vote(
    id: nat,
    roomId: string,
    participantId: string,
    round: int,
    storyPoints: Option<string>,
    timeEstimate: Option<string>,
    votedAt: Timestamp)

  /** A vote without its generated `id` and `votedAt` columns. */
  datatype InsertVote = InsertVote(
    roomId: string,
    participantId: string,
    round: int,
    storyPoints: Option<string>,
    timeEstimate: Option<string>)

  /** What an average column holds: the text "0" when no vote had a positive
      numeric value, otherwise the mean, rendered with one decimal. */
  datatype Average = Zero | OneDecimal(mean: real)

  /** The archive of one round. The min and max columns hold the numbers
      that the source renders as text. */
  datatype VotingHistory = VotingHistory(
    id: nat,
    roomId: string,
    round: int,
    description: Option<string>,
    storyPointsConsensus: Option<string>,
    timeEstimateConsensus: Option<string>,
    storyPointsAvg: Option<Average>,
    storyPointsMin: Option<real>,
    storyPointsMax: Option<real>,
    timeEstimateAvg: Option<Average>,
    timeEstimateMin: Option<real>,
    timeEstimateMax: Option<real>,
    completedAt: Timestamp)

  /** A history row without its generated `id` and `completedAt` columns. */
  datatype InsertVotingHistory = InsertVotingHistory(
    roomId: string,
    round: int,
    description: Option<string>,
    storyPointsConsensus: Option<string>,
    timeEstimateConsensus: Option<string>,
    storyPointsAvg: Option<Average>,
    storyPointsMin: Option<real>,
    storyPointsMax: Option<real>,
    timeEstimateAvg: Option<Average>,
    timeEstimateMin: Option<real>,
    timeEstimateMax: Option<real>)

  // ---------------------------------------------------------------------
  // Insert shapes: omitting the generated columns, and adding them back.

  function RoomInsert(r: Room): InsertRoom {
    InsertRoom(r.id, r.name, r.votingSystem, r.timeUnits, r.dualVoting, r.autoReveal,
      r.storyPointValues, r.timeValues, r.currentRound, r.currentDescription, r.isRevealed, r.createdBy)
  }

  function RoomOf(i: InsertRoom, createdAt: Timestamp): Room {
    Room(i.id, i.name, i.votingSystem, i.timeUnits, i.dualVoting, i.autoReveal,
      i.storyPointValues, i.timeValues, i.currentRound, i.currentDescription, i.isRevealed, i.createdBy, createdAt)
  }

  function ParticipantInsert(p: Participant): InsertParticipant {
    InsertParticipant(p.roomId, p.name, p.isCreator)
  }

  function ParticipantOf(i: InsertParticipant, id: string, joinedAt: Timestamp): Participant {
    Participant(id, i.roomId, i.name, i.isCreator, joinedAt)
  }

  function VoteInsert(v: Vote): InsertVote {
    InsertVote(v.roomId, v.participantId, v.round, v.storyPoints, v.timeEstimate)
  }

  function VoteOf(i: InsertVote, id: nat, votedAt: Timestamp): Vote {
    Vote(id, i.roomId, i.participantId, i.round, i.storyPoints, i.timeEstimate, votedAt)
  }

  function HistoryInsert(h: VotingHistory): InsertVotingHistory {
    InsertVotingHistory(h.roomId, h.round, h.description, h.storyPointsConsensus, h.timeEstimateConsensus,
      h.storyPointsAvg, h.storyPointsMin, h.storyPointsMax, h.timeEstimateAvg, h.timeEstimateMin, h.timeEstimateMax)
  }

  function HistoryOf(i: InsertVotingHistory, id: nat, completedAt: Timestamp): VotingHistory {
    VotingHistory(id, i.roomId, i.round, i.description, i.storyPointsConsensus, i.timeEstimateConsensus,
      i.storyPointsAvg, i.storyPointsMin, i.storyPointsMax, i.timeEstimateAvg, i.timeEstimateMin,
      i.timeEstimateMax, completedAt)
  }

  /** The insert shapes omit exactly the generated columns: adding them and
      omitting them again gives the insert back, and a row is its insert
      plus its generated columns. */
  lemma InsertShapesOmitGeneratedColumns(
    ir: InsertRoom, ip: InsertParticipant, iv: InsertVote, ih: InsertVotingHistory,
    r: Room, p: Participant, v: Vote, h: VotingHistory,
    pid: string, id: nat, t: Timestamp)
    ensures RoomInsert(RoomOf(ir, t)) == ir && RoomOf(RoomInsert(r), r.createdAt) == r
    ensures ParticipantInsert(ParticipantOf(ip, pid, t)) == ip
    ensures ParticipantOf(ParticipantInsert(p), p.id, p.joinedAt) == p
    ensures VoteInsert(VoteOf(iv, id, t)) == iv && VoteOf(VoteInsert(v), v.id, v.votedAt) == v
    ensures HistoryInsert(HistoryOf(ih, id, t)) == ih
    ensures HistoryOf(HistoryInsert(h), h.id, h.completedAt) == h
  {
  }

  // ---------------------------------------------------------------------
  // Cascade rule of the votes table.

  /** The votes left when a participant row is deleted: its votes go with
      it, in every round, and no other vote is touched. */
  function VotesAfterParticipantDeleted(votes: seq<Vote>, participantId: string): (r: seq<Vote>)
    ensures forall v :: v in r <==> v in votes && v.participantId != participantId
    ensures |r| <= |votes|
  {
    Filter(votes, (v: Vote) => v.participantId != participantId)
  }

  /** The rows of the four tables. */
  datatype Tables = Tables(rooms: map<string, Room>, participants: seq<Participant>, votes: seq<Vote>,
                           history: seq<VotingHistory>)

  /** The ids of the participants of room `roomId`. */
  function ParticipantIdsOfRoom(participants: seq<Participant>, roomId: string): (ids: set<string>)
    ensures forall id :: id in ids <==> exists p :: p in participants && p.roomId == roomId && p.id == id
  {
    set p | p in participants && p.roomId == roomId :: p.id
  }

  /** The tables after room `roomId` is deleted. Its participants, votes
      and archive rows go with it, and so do the votes of its participants
      in any room. Every other row stays, in its order. */
  function AfterRoomDeleted(t: Tables, roomId: string): (r: Tables)
    ensures r.rooms == t.rooms - {roomId}
    ensures forall p :: p in r.participants <==> p in t.participants && p.roomId != roomId
    ensures forall v :: v in r.votes <==>
              v in t.votes && v.roomId != roomId && v.participantId !in ParticipantIdsOfRoom(t.participants, roomId)
    ensures forall h :: h in r.history <==> h in t.history && h.roomId != roomId
    ensures SubsequenceOf(r.participants, t.participants) && SubsequenceOf(r.votes, t.votes)
    ensures SubsequenceOf(r.history, t.history)
  {
    var gone := ParticipantIdsOfRoom(t.participants, roomId);
    var keepParticipant := (p: Participant) => p.roomId != roomId;
    var keepVote := (v: Vote) => v.roomId != roomId && v.participantId !in gone;
    var keepRow := (h: VotingHistory) => h.roomId != roomId;
    FilterIsSubsequence(t.participants, keepParticipant);
    FilterIsSubsequence(t.votes, keepVote);
    FilterIsSubsequence(t.history, keepRow);
    Tables(t.rooms - {roomId}, Filter(t.participants, keepParticipant), Filter(t.votes, keepVote),
           Filter(t.history, keepRow))
  }

  /** Every vote is cast by a participant of the vote's own room. */
  predicate VotesInOwnRoom(t: Tables) {
    forall v :: v in t.votes ==> exists p :: p in t.participants && p.id == v.participantId && p.roomId == v.roomId
  }

  /** With unique participant ids and votes cast in their voters' rooms, a
      room deletion removes exactly the votes of that room: the cascade
      through the participants removes nothing more. */
  lemma RoomDeletionRemovesExactlyItsVotes(t: Tables, roomId: string)
    requires forall a, b :: a in t.participants && b in t.participants && a.id == b.id ==> a == b
    requires VotesInOwnRoom(t)
    ensures forall v :: v in AfterRoomDeleted(t, roomId).votes <==> v in t.votes && v.roomId != roomId
  {
    var gone := ParticipantIdsOfRoom(t.participants, roomId);
    forall v | v in t.votes && v.roomId != roomId ensures v.participantId !in gone {
      var p :| p in t.participants && p.id == v.participantId && p.roomId == v.roomId;
      assert forall q :: q in t.participants && q.id == v.participantId ==> q.roomId != roomId;
    }
  }

  /** `votes.find(v => v.participantId === participantId)`: the first vote
      of that participant. */
  function FindVote(votes: seq<Vote>, participantId: string): (r: Option<Vote>)
    ensures r.Some? ==> r.value in votes && r.value.participantId == participantId
    ensures r.None? ==> forall v :: v in votes ==> v.participantId != participantId
    ensures r.Some? ==> r.value == votes[FirstVoteIndex(votes, participantId)]
  {
    if |votes| == 0 then None
    else if votes[0].participantId == participantId then Some(votes[0])
    else FindVote(votes[1..], participantId)
  }

  /** `participants.find(p => p.id === id)`: the first participant with
      that id. */
  function FindParticipant(ps: seq<Participant>, id: string): (r: Option<Participant>)
    ensures r.Some? ==> r.value in ps && r.value.id == id
    ensures r.None? ==> forall p :: p in ps ==> p.id != id
  {
    if |ps| == 0 then None
    else if ps[0].id == id then Some(ps[0])
    else FindParticipant(ps[1..], id)
  }

  /** `vote?.storyPoints` and `vote?.timeEstimate` of a vote that may be
      missing: absent when there is no vote. */
  function VoteStoryPoints(v: Option<Vote>): (r: Option<string>)
    ensures r.Some? <==> v.Some? && v.value.storyPoints.Some?
    ensures r.Some? ==> r == v.value.storyPoints
  {
    if v.Some? then v.value.storyPoints else None
  }

  function VoteTimeEstimate(v: Option<Vote>): (r: Option<string>)
    ensures r.Some? <==> v.Some? && v.value.timeEstimate.Some?
    ensures r.Some? ==> r == v.value.timeEstimate
  {
    if v.Some? then v.value.timeEstimate else None
  }

  /** Position of the first vote of `participantId`, or `|votes|`. */
  function FirstVoteIndex(votes: seq<Vote>, participantId: string): (i: nat)
    ensures i <= |votes|
    ensures forall j :: 0 <= j < i ==> votes[j].participantId != participantId
    ensures i < |votes| ==> votes[i].participantId == participantId
  {
    if |votes| == 0 then 0
    else if votes[0].participantId == participantId then 0
    else 1 + FirstVoteIndex(votes[1..], participantId)
  }

  // ---------------------------------------------------------------------
  // Push-channel messages.

  /** Inbound messages, as the message interfaces declare them. */
  datatype ClientMessage =
    | JoinRoom(roomId: string, participantId: string)
    | CastVote(roomId: string, participantId: string, storyPoints: Option<string>, timeEstimate: Option<string>)
    | RevealVotes(roomId: string)
    | NextRound(roomId: string, description: Option<string>)
    | Unrecognized(kind: string)

  /** The payload of a `room_update`: the complete current state of a room. */
  datatype Snapshot = Snapshot(
    room: Room,
    participants: seq<Participant>,
    votes: seq<Vote>,
    history: seq<VotingHistory>)

  /** Outbound messages. */
  datatype ServerMessage = RoomUpdate(snapshot: Snapshot) | ErrorMessage(message: string)

  /** The `{type, payload}` envelope of an inbound message; a payload field
      the sender left out is `None`. */
  datatype Payload = Payload(
    roomId: Option<string>,
    participantId: Option<string>,
    storyPoints: Option<string>,
    timeEstimate: Option<string>,
    description: Option<string>)

  datatype Envelope = Envelope(kind: string, payload: Payload)

  const NoPayload := Payload(None, None, None, None, None)

  function TypeTag(m: ClientMessage): string {
    match m
    case JoinRoom(_, _) => "join_room"
    case CastVote(_, _, _, _) => "vote"
    case RevealVotes(_) => "reveal_votes"
    case NextRound(_, _) => "next_round"
    case Unrecognized(k) => k
  }

  predicate IsKnownTag(k: string) {
    k == "join_room" || k == "vote" || k == "reveal_votes" || k == "next_round"
  }

  function Encode(m: ClientMessage): Envelope {
    match m
    case JoinRoom(r, p) => Envelope("join_room", NoPayload.(roomId := Some(r), participantId := Some(p)))
    case CastVote(r, p, s, t) =>
      Envelope("vote", NoPayload.(roomId := Some(r), participantId := Some(p), storyPoints := s, timeEstimate := t))
    case RevealVotes(r) => Envelope("reveal_votes", NoPayload.(roomId := Some(r)))
    case NextRound(r, d) => Envelope("next_round", NoPayload.(roomId := Some(r), description := d))
    case Unrecognized(k) => Envelope(k, NoPayload)
  }

  /** Reads an envelope by its type tag; `None` when a field the message
      interface requires is missing. An unknown tag is `Unrecognized`. */
  function Decode(e: Envelope): Option<ClientMessage> {
    var p := e.payload;
    if e.kind == "join_room" then
      if p.roomId.Some? && p.participantId.Some? then Some(JoinRoom(p.roomId.value, p.participantId.value)) else None
    else if e.kind == "vote" then
      if p.roomId.Some? && p.participantId.Some?
      then Some(CastVote(p.roomId.value, p.participantId.value, p.storyPoints, p.timeEstimate)) else None
    else if e.kind == "reveal_votes" then
      if p.roomId.Some? then Some(RevealVotes(p.roomId.value)) else None
    else if e.kind == "next_round" then
      if p.roomId.Some? then Some(NextRound(p.roomId.value, p.description)) else None
    else Some(Unrecognized(e.kind))
  }

  /** The wire form of a message carries its type tag and reads back as the
      same message (an `Unrecognized` message only when its tag is not one
      of the four known ones). */
  lemma EnvelopeRoundTrip(m: ClientMessage)
    requires m.Unrecognized? ==> !IsKnownTag(m.kind)
    ensures Encode(m).kind == TypeTag(m)
    ensures Decode(Encode(m)) == Some(m)
  {
  }

  /** The type tags of the four known messages are distinct, so the
      dispatch on the tag is unambiguous. */
  lemma DistinctTags(a: ClientMessage, b: ClientMessage)
    requires !a.Unrecognized? && !b.Unrecognized?
    requires TypeTag(a) == TypeTag(b)
    ensures a.JoinRoom? == b.JoinRoom? && a.CastVote? == b.CastVote?
    ensures a.RevealVotes? == b.RevealVotes? && a.NextRound? == b.NextRound?
  {
  }

  function ServerTypeTag(m: ServerMessage): string {
    match m
    case RoomUpdate(_) => "room_update"
    case ErrorMessage(_) => "error"
  }
}
