/** The HTTP side: building a new room from a request body through its
    default and fallback chains, and the room handlers (create, read, patch,
    join with rehydration, vote) as steps over the store. */
module Routes {
  import opened Wrappers
  import opened Seqs
  import opened JsText
  import opened Schema
  import opened Storage

  /** The story-point presets, by voting system. */
  const VotingSystemPresets: map<string, seq<string>> := map[
    "fibonacci" := ["1", "2", "3", "5", "8", "13", "21", "34", "?"],
    "modified_fibonacci" := ["0", "1/2", "1", "2", "3", "5", "8", "13", "20", "40", "100", "?"],
    "tshirt" := ["XS", "S", "M", "L", "XL", "XXL", "?"],
    "powers_of_2" := ["1", "2", "4", "8", "16", "32", "?"],
    "linear" := ["1", "2", "3", "4", "5", "6", "7", "8", "9", "10", "?"]
  ]

  /** The time-estimate presets, by time unit. */
  const TimeUnitPresets: map<string, seq<string>> := map[
    "minutes" := ["5", "10", "15", "30", "45", "60", "90", "120", "?"],
    "hours" := ["1", "2", "4", "6", "8", "12", "16", "20", "24", "32", "40", "?"],
    "days" := ["0.5", "1", "1.5", "2", "2.5", "3", "5", "?"]
  ]

  const DefaultRoomName: string := "Planning Session"
  const DefaultParticipantName: string := "Anonymous"
  const AnonymousUser: string := "anonymous-user"
  const RoomNotFound: string := "Room not found"
  const InvalidVote: string := "Invalid vote data"

  /** The fields of a create-room request body; `None` is absent or null. */
  datatype RoomBody = RoomBody(
    name: Option<string>,
    votingSystem: Option<string>,
    timeUnits: Option<string>,
    dualVoting: Option<bool>,
    autoReveal: Option<bool>,
    storyPointValues: Option<seq<string>>,
    timeValues: Option<seq<string>>)

  const EmptyRoomBody := RoomBody(None, None, None, None, None, None, None)

  /** `body || presets[key] || fallback`: an array from the body wins even
      when it is empty; otherwise the preset named by the raw key, else the
      fallback. */
  function ValuesFor(given: Option<seq<string>>, presets: map<string, seq<string>>, key: Option<string>,
                     fallback: seq<string>): (r: seq<string>)
    ensures given.Some? ==> r == given.value
    ensures given.None? && key.Some? && key.value in presets ==> r == presets[key.value]
    ensures given.None? && (key.None? || key.value !in presets) ==> r == fallback
  {
    if given.Some? then given.value
    else if key.Some? && key.value in presets then presets[key.value]
    else fallback
  }

  /** The room a create request describes, before the store stamps it. */
  function NewRoom(body: RoomBody, id: string): (r: InsertRoom)
    ensures r.id == id
    ensures r.currentRound == DefaultCurrentRound && !r.isRevealed
    ensures r.currentDescription == Some(DefaultCurrentDescription) && r.createdBy == Some(AnonymousUser)
    ensures r.name != "" && r.votingSystem != "" && r.timeUnits != ""
    ensures body.dualVoting.Some? ==> r.dualVoting == body.dualVoting.value
    ensures body.dualVoting.None? ==> r.dualVoting == DefaultDualVoting
    ensures body.autoReveal.Some? ==> r.autoReveal == body.autoReveal.value
    ensures body.autoReveal.None? ==> r.autoReveal == DefaultAutoReveal
  {
    InsertRoom(
      id,
      OrDefault(body.name, DefaultRoomName),
      OrDefault(body.votingSystem, DefaultVotingSystem),
      OrDefault(body.timeUnits, DefaultTimeUnits),
      body.dualVoting.GetOr(DefaultDualVoting),
      body.autoReveal.GetOr(DefaultAutoReveal),
      ValuesFor(body.storyPointValues, VotingSystemPresets, body.votingSystem, VotingSystemPresets[DefaultVotingSystem]),
      ValuesFor(body.timeValues, TimeUnitPresets, body.timeUnits, TimeUnitPresets[DefaultTimeUnits]),
      DefaultCurrentRound,
      Some(DefaultCurrentDescription),
      DefaultIsRevealed,
      Some(AnonymousUser))
  }

  /** An empty body yields exactly the column defaults of a room, with the
      default presets as value lists. */
  lemma NewRoomFromEmptyBody(id: string)
    ensures var r := NewRoom(EmptyRoomBody, id);
      && r.name == DefaultRoomName
      && r.votingSystem == DefaultVotingSystem && r.timeUnits == DefaultTimeUnits
      && r.dualVoting == DefaultDualVoting && r.autoReveal == DefaultAutoReveal
      && r.storyPointValues == ["1", "2", "3", "5", "8", "13", "21", "34", "?"]
      && r.timeValues == ["1", "2", "4", "6", "8", "12", "16", "20", "24", "32", "40", "?"]
  {
  }

  /** How the text fields and the value lists of a body are kept or
      replaced: an empty name or system falls back, an explicit `false` is
      kept, an explicit empty list is kept, and a known system without a
      list selects that system's preset. */
  lemma NewRoomFallbacks(body: RoomBody, id: string)
    ensures body.name == Some("") ==> NewRoom(body, id).name == DefaultRoomName
    ensures body.name.Some? && body.name.value != "" ==> NewRoom(body, id).name == body.name.value
    ensures body.votingSystem == Some("") && body.storyPointValues.None? ==>
              NewRoom(body, id).votingSystem == DefaultVotingSystem
              && NewRoom(body, id).storyPointValues == VotingSystemPresets[DefaultVotingSystem]
    ensures body.storyPointValues == Some([]) ==> NewRoom(body, id).storyPointValues == []
    ensures body.timeValues == Some([]) ==> NewRoom(body, id).timeValues == []
    ensures body.votingSystem == Some("tshirt") && body.storyPointValues.None? ==>
              NewRoom(body, id).storyPointValues == ["XS", "S", "M", "L", "XL", "XXL", "?"]
    ensures body.timeUnits == Some("weeks") && body.timeValues.None? ==>
              NewRoom(body, id).timeUnits == "weeks" && NewRoom(body, id).timeValues == TimeUnitPresets[DefaultTimeUnits]
    ensures body.dualVoting == Some(false) ==> !NewRoom(body, id).dualVoting
  {
    assert "weeks" !in TimeUnitPresets;
  }

  /** An HTTP outcome: the JSON body of a success, or a 404 or 400 with its
      message. */
  datatype Response<T> = Ok(body: T) | NotFound(message: string) | BadRequest(message: string)

  /** The answer to a join request. */
  datatype Joined = Joined(participant: Participant, room: Room, rehydrated: bool)

  /** The fields of a join request body. */
  datatype JoinBody = JoinBody(participantId: Option<string>, name: Option<string>, isCreator: Option<bool>)

  /** The fields of a room vote request body. */
  datatype VoteBody = VoteBody(participantId: Option<string>, round: Option<int>,
                               storyPoints: Option<string>, timeEstimate: Option<string>)

  /** POST /api/rooms: builds the room with a freshly generated id and
      stores it. */
  method PostRoom(store: MemStorage, body: RoomBody, newId: string, now: Timestamp) returns (res: Response<Room>)
    requires store.Valid()
    modifies store
    ensures store.Valid()
    ensures res == Ok(RoomOf(NewRoom(body, newId), now))
    ensures store.rooms == old(store.rooms)[newId := res.body]
    ensures store.participants == old(store.participants) && store.votes == old(store.votes)
    ensures store.votingHistory == old(store.votingHistory)
    ensures store.currentVoteId == old(store.currentVoteId) && store.currentHistoryId == old(store.currentHistoryId)
  {
    var room := store.CreateRoom(NewRoom(body, newId), now);
    res := Ok(room);
  }

  /** GET /api/rooms/:id: 404 for a missing room, otherwise the room, its
      participants, the votes of its current round only, and its archive
      highest round first. */
  method GetRoomDetails(store: MemStorage, id: string) returns (res: Response<Snapshot>)
    ensures id !in store.rooms ==> res == NotFound(RoomNotFound)
    ensures id in store.rooms ==> res.Ok? && res.body.room == store.rooms[id]
    ensures res.Ok? ==> forall p :: p in res.body.participants <==> p in store.participants && p.roomId == id
    ensures res.Ok? ==> forall v :: v in res.body.votes <==>
              v in store.votes && v.roomId == id && v.round == store.rooms[id].currentRound
    ensures res.Ok? ==> (forall h :: h in res.body.history <==> h in store.votingHistory && h.roomId == id)
                        && RoundsDescending(res.body.history)
    ensures res.Ok? ==> SubsequenceOf(res.body.participants, store.participants) && SubsequenceOf(res.body.votes, store.votes)
    ensures res.Ok? ==> res.body == store.RoomState(id).value
  {
    var room := store.GetRoom(id);
    if room.None? {
      return NotFound(RoomNotFound);
    }
    var participants := store.GetParticipantsByRoom(id);
    var votes := store.GetVotesByRoomAndRound(id, room.value.currentRound);
    var history := store.GetVotingHistoryByRoom(id);
    res := Ok(Snapshot(room.value, participants, votes, history));
  }

  /** PATCH /api/rooms/:id: 404 for a missing room and nothing changes;
      otherwise the merged room is stored and returned. */
  method PatchRoom(store: MemStorage, id: string, updates: RoomPatch) returns (res: Response<Room>)
    requires store.Valid()
    modifies store
    ensures store.Valid()
    ensures id !in old(store.rooms) ==> res == NotFound(RoomNotFound) && store.rooms == old(store.rooms)
    ensures id in old(store.rooms) ==>
              && res == Ok(ApplyPatch(old(store.rooms[id]), updates))
              && store.rooms == old(store.rooms)[id := res.body]
    ensures store.participants == old(store.participants) && store.votes == old(store.votes)
    ensures store.votingHistory == old(store.votingHistory)
    ensures store.currentVoteId == old(store.currentVoteId) && store.currentHistoryId == old(store.currentHistoryId)
  {
    var room := store.UpdateRoom(id, updates);
    if room.None? {
      return NotFound(RoomNotFound);
    }
    res := Ok(room.value);
  }

  /** POST /api/rooms/:id/join: 404 for a missing room. A non-empty
      participant id that belongs to one of the room's participants
      rehydrates that participant and creates nothing; otherwise a new
      participant is created, named "Anonymous" when no name is given. */
  method JoinRoom(store: MemStorage, id: string, body: JoinBody, newId: string, now: Timestamp)
    returns (res: Response<Joined>)
    requires store.Valid()
    modifies store
    ensures store.Valid()
    ensures id !in old(store.rooms) ==> res == NotFound(RoomNotFound) && unchanged(store)
    ensures id in old(store.rooms) && body.participantId.Some? && body.participantId.value != ""
            && FindParticipant(old(store.GetParticipantsByRoom(id)), body.participantId.value).Some? ==>
              && res == Ok(Joined(FindParticipant(old(store.GetParticipantsByRoom(id)), body.participantId.value).value,
                                  old(store.rooms[id]), true))
              && unchanged(store)
    ensures id in old(store.rooms) && !(body.participantId.Some? && body.participantId.value != ""
            && FindParticipant(old(store.GetParticipantsByRoom(id)), body.participantId.value).Some?) ==>
              var p := ParticipantOf(InsertParticipant(id, OrDefault(body.name, DefaultParticipantName),
                                                       body.isCreator.GetOr(DefaultIsCreator)), newId, now);
              && res == Ok(Joined(p, old(store.rooms[id]), false))
              && store.participants == PutParticipant(old(store.participants), p)
              && store.rooms == old(store.rooms) && store.votes == old(store.votes)
              && store.votingHistory == old(store.votingHistory)
              && store.currentVoteId == old(store.currentVoteId) && store.currentHistoryId == old(store.currentHistoryId)
    ensures res.Ok? ==> res.body.participant.roomId == id
  {
    var room := store.GetRoom(id);
    if room.None? {
      return NotFound(RoomNotFound);
    }
    if body.participantId.Some? && body.participantId.value != "" {
      var participants := store.GetParticipantsByRoom(id);
      var existing := FindParticipant(participants, body.participantId.value);
      if existing.Some? {
        return Ok(Joined(existing.value, room.value, true));
      }
    }
    var ins := InsertParticipant(id, OrDefault(body.name, DefaultParticipantName), body.isCreator.GetOr(DefaultIsCreator));
    var participant := store.CreateParticipant(ins, newId, now);
    res := Ok(Joined(participant, room.value, false));
  }

  /** POST /api/rooms/:id/vote: 404 for a missing room and 400 without a
      participant id; otherwise the vote is upserted for the room's current
      round, whatever round the body names. */
  method CastVote(store: MemStorage, id: string, body: VoteBody, now: Timestamp) returns (res: Response<Vote>)
    requires store.Valid()
    modifies store
    ensures store.Valid()
    ensures id !in old(store.rooms) ==> res == NotFound(RoomNotFound) && unchanged(store)
    ensures id in old(store.rooms) && body.participantId.None? ==> res == BadRequest(InvalidVote) && unchanged(store)
    ensures id in old(store.rooms) && body.participantId.Some? ==>
              var up := Upsert(old(store.votes), old(store.currentVoteId),
                               InsertVote(id, body.participantId.value, old(store.rooms[id]).currentRound,
                                          body.storyPoints, body.timeEstimate), now);
              && res == Ok(up.vote)
              && store.votes == up.votes && store.currentVoteId == up.nextVoteId
              && store.rooms == old(store.rooms) && store.participants == old(store.participants)
              && store.votingHistory == old(store.votingHistory)
              && store.currentHistoryId == old(store.currentHistoryId)
    ensures res.Ok? ==> res.body.round == old(store.rooms[id]).currentRound
  {
    var room := store.GetRoom(id);
    if room.None? {
      return NotFound(RoomNotFound);
    }
    if body.participantId.None? {
      return BadRequest(InvalidVote);
    }
    var ins := InsertVote(id, body.participantId.value, room.value.currentRound, body.storyPoints, body.timeEstimate);
    var vote := store.CreateOrUpdateVote(ins, now);
    res := Ok(vote);
  }
}
