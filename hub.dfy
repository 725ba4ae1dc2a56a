/** The push-channel hub: the registry of connected clients and of the
    clients subscribed to each room, the handlers that drive a room's round
    (join, vote, reveal, next round), broadcasting and disconnect cleanup.
    Each handler runs as one atomic step; every socket send is recorded in
    an outbox. */
module Hub {
  import opened Wrappers
  import opened Seqs
  import opened JsText
  import opened Schema
  import opened Storage
  import opened Aggregation

  /** A registered socket: whether it is still open for sending, and the
      room and participant it last joined. */
  datatype Connection = Connection(open: bool, roomId: Option<string>, participantId: Option<string>)

  /** One send of `message` to every client in `to`. */
  datatype Delivery = Delivery(to: set<string>, message: ServerMessage)

  const JoinFailed: string := "Room or participant not found"

  /** A participant's vote completes the auto-reveal condition: story points
      are set, and so is the time estimate when the room votes on both. */
  predicate VotedFully(v: Option<Vote>, dualVoting: bool) {
    v.Some? && v.value.storyPoints.Some? && (dualVoting ==> v.value.timeEstimate.Some?)
  }

  /** The auto-reveal condition over a room's participants and the votes of
      its current round. */
  predicate EveryoneVoted(participants: seq<Participant>, votes: seq<Vote>, dualVoting: bool) {
    forall p :: p in participants ==> VotedFully(FindVote(votes, p.id), dualVoting)
  }

  /** `history.some(h => h.round === round)`. */
  predicate HasRound(history: seq<VotingHistory>, round: int) {
    exists h :: h in history && h.round == round
  }

  /** The description archived by a reveal: the room's description, or
      "Round N" when it is empty. */
  function RevealDescription(room: Room): string {
    OrDefault(room.currentDescription, "Round " + IntToString(room.currentRound))
  }

  /** The room as a reveal leaves it. */
  function RevealedRoom(room: Room): Room {
    room.(isRevealed := true)
  }

  /** The room as `next_round` leaves it: the next round, unrevealed, with
      the given description or "" without one. */
  function NextRoundRoom(room: Room, description: Option<string>): Room {
    room.(currentRound := room.currentRound + 1, currentDescription := Some(OrDefault(description, "")),
          isRevealed := false)
  }

  /** `after` is `before` plus one archive row summarizing `votes`. */
  predicate Archives(before: seq<VotingHistory>, after: seq<VotingHistory>,
                     roomId: string, round: int, description: string, votes: seq<Vote>) {
    && |after| == |before| + 1 && after[..|before|] == before
    && Summarizes(HistoryInsert(after[|before|]), roomId, round, description, votes)
  }

  class Hub {
    var clients: map<string, Connection>
    var roomClients: map<string, set<string>>
    var outbox: seq<Delivery>
    const store: MemStorage

    /** The store is valid, no subscriber set is empty, and every client
        that joined a room is subscribed to it. */
    ghost predicate Valid()
      reads this, store
    {
      && store.Valid()
      && (forall r :: r in roomClients ==> roomClients[r] != {})
      && (forall c :: c in clients && clients[c].roomId.Some? ==>
            clients[c].roomId.value in roomClients && c in roomClients[clients[c].roomId.value])
    }

    constructor(s: MemStorage)
      requires s.Valid()
      ensures Valid()
      ensures store == s && clients == map[] && roomClients == map[] && outbox == []
    {
      store := s;
      clients := map[];
      roomClients := map[];
      outbox := [];
    }

    /** The clients that receive a broadcast to room `roomId`: its
        subscribers that are still registered with an open socket. */
    function Subscribers(roomId: string): (r: set<string>)
      reads this
      ensures roomId !in roomClients ==> r == {}
      ensures forall c :: c in r <==> roomId in roomClients && c in roomClients[roomId] && c in clients && clients[c].open
    {
      if roomId in roomClients then set c | c in roomClients[roomId] && c in clients && clients[c].open else {}
    }

    /** What `broadcastRoomUpdate(roomId)` sends in the current state: the
        room's snapshot to every subscriber, or nothing when the room, its
        subscriber set or an open subscriber is missing. */
    function BroadcastOf(roomId: string): (d: seq<Delivery>)
      reads this, store
      ensures |d| <= 1
      ensures |d| == 1 <==> roomId in store.rooms && Subscribers(roomId) != {}
      ensures |d| == 1 ==> d[0].to == Subscribers(roomId) && d[0].message == RoomUpdate(store.RoomState(roomId).value)
    {
      match store.RoomState(roomId)
      case None => []
      case Some(snapshot) =>
        var to := Subscribers(roomId);
        if to == {} then [] else [Delivery(to, RoomUpdate(snapshot))]
    }

    /** Registers a new connection under `clientId`. */
    method Connect(clientId: string)
      requires Valid()
      modifies this
      ensures Valid()
      ensures clients == old(clients)[clientId := Connection(true, None, None)]
      ensures roomClients == old(roomClients) && outbox == old(outbox)
    {
      clients := clients[clientId := Connection(true, None, None)];
    }

    /** The socket of `clientId` leaves the open state (it is closing); the
        client stays registered until its disconnect is handled. */
    method SocketClosing(clientId: string)
      requires Valid()
      modifies this
      ensures Valid()
      ensures clientId in old(clients) ==> clients == old(clients)[clientId := old(clients[clientId]).(open := false)]
      ensures clientId !in old(clients) ==> clients == old(clients)
      ensures roomClients == old(roomClients) && outbox == old(outbox)
    {
      if clientId in clients {
        clients := clients[clientId := clients[clientId].(open := false)];
      }
    }

    /** Walks a subscriber set and keeps the registered, open clients. */
    method SelectRecipients(ids: set<string>) returns (r: set<string>)
      ensures forall c :: c in r <==> c in ids && c in clients && clients[c].open
    {
      r := {};
      var rest := ids;
      while rest != {}
        invariant rest <= ids
        invariant forall c :: c in r <==> c in ids - rest && c in clients && clients[c].open
        decreases |rest|
      {
        var c :| c in rest;
        if c in clients && clients[c].open {
          r := r + {c};
        }
        rest := rest - {c};
      }
    }

    /** `broadcastRoomUpdate`: sends the room's snapshot to its open
        subscribers. */
    method BroadcastRoomUpdate(roomId: string)
      requires Valid()
      modifies this
      ensures Valid()
      ensures outbox == old(outbox) + BroadcastOf(roomId)
      ensures clients == old(clients) && roomClients == old(roomClients)
    {
      var snapshot := store.RoomState(roomId);
      if snapshot.None? {
        return;
      }
      if roomId !in roomClients {
        return;
      }
      var to := SelectRecipients(roomClients[roomId]);
      assert to == Subscribers(roomId);
      if to != {} {
        outbox := outbox + [Delivery(to, RoomUpdate(snapshot.value))];
      }
    }

    /** The effect of `join_room`: nothing from an unregistered client; an
        error to the caller alone when the room or the participant is
        missing; otherwise the client records the room and participant, is
        added to the room's subscribers and the room is broadcast. The store
        is never changed. */
    twostate predicate JoinRoomEffect(clientId: string, roomId: string, participantId: string)
      reads this, store
    {
      && (clientId !in old(clients) ==> unchanged(this))
      && (clientId in old(clients) && (roomId !in store.rooms || store.GetParticipant(participantId).None?) ==>
            && clients == old(clients) && roomClients == old(roomClients)
            && outbox == old(outbox) + [Delivery({clientId}, ErrorMessage(JoinFailed))])
      && (clientId in old(clients) && roomId in store.rooms && store.GetParticipant(participantId).Some? ==>
            && clients == old(clients)[clientId := old(clients[clientId]).(roomId := Some(roomId), participantId := Some(participantId))]
            && roomId in roomClients
            && roomClients == old(roomClients)[roomId := (if roomId in old(roomClients) then old(roomClients[roomId]) else {}) + {clientId}]
            && outbox == old(outbox) + BroadcastOf(roomId))
    }

    /** `join_room`. */
    method HandleJoinRoom(clientId: string, roomId: string, participantId: string)
      requires Valid()
      modifies this
      ensures Valid()
      ensures JoinRoomEffect(clientId, roomId, participantId)
    {
      if clientId !in clients {
        return;
      }
      var room := store.GetRoom(roomId);
      var participant := store.GetParticipant(participantId);
      if room.None? || participant.None? {
        outbox := outbox + [Delivery({clientId}, ErrorMessage(JoinFailed))];
        return;
      }
      clients := clients[clientId := clients[clientId].(roomId := Some(roomId), participantId := Some(participantId))];
      var subscribed := if roomId in roomClients then roomClients[roomId] else {};
      roomClients := roomClients[roomId := subscribed + {clientId}];
      BroadcastRoomUpdate(roomId);
    }

    /** The effect of `vote`: nothing unless the sender joined this room as
        this participant and the room exists. Otherwise the vote is upserted
        for the current round; when auto-reveal is on, the room is not yet
        revealed and everyone has voted, the room is revealed and the round
        archived if it has no archive row yet; the room is broadcast. */
    twostate predicate VoteEffect(clientId: string, roomId: string, participantId: string,
                                  storyPoints: Option<string>, timeEstimate: Option<string>, now: Timestamp)
      reads this, store
    {
      && (!(clientId in old(clients) && old(clients[clientId]).roomId == Some(roomId)
            && old(clients[clientId]).participantId == Some(participantId) && roomId in old(store.rooms))
          ==> unchanged(this) && unchanged(store))
      && (clientId in old(clients) && old(clients[clientId]).roomId == Some(roomId)
          && old(clients[clientId]).participantId == Some(participantId) && roomId in old(store.rooms) ==>
            var room := old(store.rooms[roomId]);
            var up := Upsert(old(store.votes), old(store.currentVoteId),
                             InsertVote(roomId, participantId, room.currentRound, storyPoints, timeEstimate), now);
            var fires := room.autoReveal && !room.isRevealed
                         && EveryoneVoted(store.GetParticipantsByRoom(roomId),
                                          store.GetVotesByRoomAndRound(roomId, room.currentRound), room.dualVoting);
            var archive := fires && !HasRound(old(store.GetVotingHistoryByRoom(roomId)), room.currentRound);
            && store.votes == up.votes && store.currentVoteId == up.nextVoteId
            && store.currentHistoryId == old(store.currentHistoryId) + (if archive then 1 else 0)
            && store.participants == old(store.participants)
            && store.rooms == (if fires then old(store.rooms)[roomId := RevealedRoom(room)] else old(store.rooms))
            && (archive ==> Archives(old(store.votingHistory), store.votingHistory, roomId, room.currentRound,
                                     RevealDescription(room), store.GetVotesByRoomAndRound(roomId, room.currentRound)))
            && (!archive ==> store.votingHistory == old(store.votingHistory))
            && clients == old(clients) && roomClients == old(roomClients)
            && outbox == old(outbox) + BroadcastOf(roomId))
    }

    /** `vote`. */
    method HandleVote(clientId: string, roomId: string, participantId: string,
                      storyPoints: Option<string>, timeEstimate: Option<string>, now: Timestamp)
      requires Valid()
      modifies this, store
      ensures Valid()
      ensures VoteEffect(clientId, roomId, participantId, storyPoints, timeEstimate, now)
    {
      if clientId !in clients || clients[clientId].roomId != Some(roomId) || clients[clientId].participantId != Some(participantId) {
        return;
      }
      var found := store.GetRoom(roomId);
      if found.None? {
        return;
      }
      var room := found.value;
      var _ := store.CreateOrUpdateVote(InsertVote(roomId, participantId, room.currentRound, storyPoints, timeEstimate), now);
      if room.autoReveal {
        var participants := store.GetParticipantsByRoom(roomId);
        var votes := store.GetVotesByRoomAndRound(roomId, room.currentRound);
        if EveryoneVoted(participants, votes, room.dualVoting) && !room.isRevealed {
          HandlerPatches(room, room.currentRound, "");
          assert ApplyPatch(room, Reveal) == RevealedRoom(room);
          var _ := store.UpdateRoom(roomId, Reveal);
          var existing := store.GetVotingHistoryByRoom(roomId);
          if !HasRound(existing, room.currentRound) {
            var entry := HistoryEntry(roomId, room.currentRound, RevealDescription(room), votes);
            ArchiveRow(entry, roomId, room.currentRound, RevealDescription(room), votes, now);
          }
        }
      }
      BroadcastRoomUpdate(roomId);
    }

    /** Appends the archive row `entry` to the store's history. */
    method ArchiveRow(entry: InsertVotingHistory, roomId: string, round: int, description: string,
                      votes: seq<Vote>, now: Timestamp)
      requires Valid()
      requires Summarizes(entry, roomId, round, description, votes)
      modifies store
      ensures Valid()
      ensures Archives(old(store.votingHistory), store.votingHistory, roomId, round, description, votes)
      ensures store.rooms == old(store.rooms) && store.participants == old(store.participants)
      ensures store.votes == old(store.votes) && store.currentVoteId == old(store.currentVoteId)
      ensures store.currentHistoryId == old(store.currentHistoryId) + 1
    {
      var h := store.CreateVotingHistory(entry, now);
      assert store.votingHistory[..|old(store.votingHistory)|] == old(store.votingHistory);
    }

    /** The effect of `reveal_votes`: nothing unless the sender joined this
        room and the room exists. Otherwise the room is revealed; if its
        current round has votes and no archive row yet, the round is
        archived; the room is broadcast. */
    twostate predicate RevealEffect(clientId: string, roomId: string)
      reads this, store
    {
      && (!(clientId in old(clients) && old(clients[clientId]).roomId == Some(roomId) && roomId in old(store.rooms))
          ==> unchanged(this) && unchanged(store))
      && (clientId in old(clients) && old(clients[clientId]).roomId == Some(roomId) && roomId in old(store.rooms) ==>
            var room := old(store.rooms[roomId]);
            var votes := old(store.GetVotesByRoomAndRound(roomId, room.currentRound));
            var archive := |votes| > 0 && !HasRound(old(store.GetVotingHistoryByRoom(roomId)), room.currentRound);
            && store.rooms == old(store.rooms)[roomId := RevealedRoom(room)]
            && store.participants == old(store.participants) && store.votes == old(store.votes)
            && store.currentVoteId == old(store.currentVoteId)
            && store.currentHistoryId == old(store.currentHistoryId) + (if archive then 1 else 0)
            && (archive ==> Archives(old(store.votingHistory), store.votingHistory, roomId, room.currentRound,
                                     RevealDescription(room), votes))
            && (!archive ==> store.votingHistory == old(store.votingHistory))
            && clients == old(clients) && roomClients == old(roomClients)
            && outbox == old(outbox) + BroadcastOf(roomId))
    }

    /** `reveal_votes`. */
    method HandleRevealVotes(clientId: string, roomId: string, now: Timestamp)
      requires Valid()
      modifies this, store
      ensures Valid()
      ensures RevealEffect(clientId, roomId)
    {
      if clientId !in clients || clients[clientId].roomId != Some(roomId) {
        return;
      }
      var found := store.GetRoom(roomId);
      if found.None? {
        return;
      }
      var room := found.value;
      HandlerPatches(room, room.currentRound, "");
      assert ApplyPatch(room, Reveal) == RevealedRoom(room);
      var _ := store.UpdateRoom(roomId, Reveal);
      var votes := store.GetVotesByRoomAndRound(roomId, room.currentRound);
      if |votes| > 0 {
        var existing := store.GetVotingHistoryByRoom(roomId);
        if !HasRound(existing, room.currentRound) {
          var entry := HistoryEntry(roomId, room.currentRound, RevealDescription(room), votes);
          ArchiveRow(entry, roomId, room.currentRound, RevealDescription(room), votes, now);
        }
      }
      BroadcastRoomUpdate(roomId);
    }

    /** The effect of `next_round`: nothing unless the sender joined this
        room and the room exists. Otherwise a revealed round with votes is
        archived, whether or not it already has an archive row; the next
        round opens unrevealed with the given description, or "" without
        one; the room is broadcast. */
    twostate predicate NextRoundEffect(clientId: string, roomId: string, description: Option<string>)
      reads this, store
    {
      && (!(clientId in old(clients) && old(clients[clientId]).roomId == Some(roomId) && roomId in old(store.rooms))
          ==> unchanged(this) && unchanged(store))
      && (clientId in old(clients) && old(clients[clientId]).roomId == Some(roomId) && roomId in old(store.rooms) ==>
            var room := old(store.rooms[roomId]);
            var votes := old(store.GetVotesByRoomAndRound(roomId, room.currentRound));
            var archive := |votes| > 0 && room.isRevealed;
            && store.rooms == old(store.rooms)[roomId := NextRoundRoom(room, description)]
            && store.participants == old(store.participants) && store.votes == old(store.votes)
            && store.currentVoteId == old(store.currentVoteId)
            && store.currentHistoryId == old(store.currentHistoryId) + (if archive then 1 else 0)
            && (archive ==> Archives(old(store.votingHistory), store.votingHistory, roomId, room.currentRound,
                                     OrDefault(room.currentDescription, ""), votes))
            && (!archive ==> store.votingHistory == old(store.votingHistory))
            && clients == old(clients) && roomClients == old(roomClients)
            && outbox == old(outbox) + BroadcastOf(roomId))
    }

    /** `next_round`. */
    method HandleNextRound(clientId: string, roomId: string, description: Option<string>, now: Timestamp)
      requires Valid()
      modifies this, store
      ensures Valid()
      ensures NextRoundEffect(clientId, roomId, description)
    {
      if clientId !in clients || clients[clientId].roomId != Some(roomId) || store.GetRoom(roomId).None? {
        return;
      }
      var room := store.GetRoom(roomId).value;
      var votes := store.GetVotesByRoomAndRound(roomId, room.currentRound);
      ArchiveIfRevealedWithVotes(roomId, room, votes, now);
      var next := OrDefault(description, "");
      HandlerPatches(room, room.currentRound + 1, next);
      assert ApplyPatch(room, Advance(room.currentRound + 1, next)) == NextRoundRoom(room, description);
      var _ := store.UpdateRoom(roomId, Advance(room.currentRound + 1, next));
      BroadcastRoomUpdate(roomId);
    }

    /** The archive step of `next_round`: a revealed round with votes is
        archived, with no check for an existing row. */
    method ArchiveIfRevealedWithVotes(roomId: string, room: Room, votes: seq<Vote>, now: Timestamp)
      requires Valid()
      modifies store
      ensures Valid()
      ensures |votes| > 0 && room.isRevealed ==>
                Archives(old(store.votingHistory), store.votingHistory, roomId, room.currentRound,
                         OrDefault(room.currentDescription, ""), votes)
      ensures !(|votes| > 0 && room.isRevealed) ==> store.votingHistory == old(store.votingHistory)
      ensures store.rooms == old(store.rooms) && store.participants == old(store.participants)
      ensures store.votes == old(store.votes) && store.currentVoteId == old(store.currentVoteId)
      ensures store.currentHistoryId == old(store.currentHistoryId) + (if |votes| > 0 && room.isRevealed then 1 else 0)
    {
      if |votes| > 0 && room.isRevealed {
        var entry := HistoryEntry(roomId, room.currentRound, OrDefault(room.currentDescription, ""), votes);
        ArchiveRow(entry, roomId, room.currentRound, OrDefault(room.currentDescription, ""), votes, now);
      }
    }

    /** Disconnect cleanup: the client leaves the subscriber set of the room
        it last joined (when that room id is not empty), an emptied set is
        deleted, and the client is unregistered. */
    method HandleDisconnect(clientId: string)
      requires Valid()
      modifies this
      ensures Valid()
      ensures clients == old(clients) - {clientId}
      ensures outbox == old(outbox)
      ensures clientId in old(clients) && old(clients[clientId]).roomId.Some? && old(clients[clientId]).roomId.value != "" ==>
                var r := old(clients[clientId]).roomId.value;
                var rest := old(roomClients[r]) - {clientId};
                roomClients == if rest == {} then old(roomClients) - {r} else old(roomClients)[r := rest]
      ensures !(clientId in old(clients) && old(clients[clientId]).roomId.Some? && old(clients[clientId]).roomId.value != "") ==>
                roomClients == old(roomClients)
    {
      if clientId in clients && clients[clientId].roomId.Some? && clients[clientId].roomId.value != "" {
        var r := clients[clientId].roomId.value;
        if r in roomClients {
          var rest := roomClients[r] - {clientId};
          if rest == {} {
            roomClients := roomClients - {r};
          } else {
            roomClients := roomClients[r := rest];
          }
        }
      }
      clients := clients - {clientId};
    }

    /** Dispatch on the message type: each known type has the effect of its
        handler, and a message from an unregistered client or of an unknown
        type changes nothing. */
    method HandleMessage(clientId: string, message: ClientMessage, now: Timestamp)
      requires Valid()
      modifies this, store
      ensures Valid()
      ensures clientId !in old(clients) || message.Unrecognized? ==> unchanged(this) && unchanged(store)
      ensures message.JoinRoom? ==> JoinRoomEffect(clientId, message.roomId, message.participantId) && unchanged(store)
      ensures message.CastVote? ==>
                VoteEffect(clientId, message.roomId, message.participantId, message.storyPoints, message.timeEstimate, now)
      ensures message.RevealVotes? ==> RevealEffect(clientId, message.roomId)
      ensures message.NextRound? ==> NextRoundEffect(clientId, message.roomId, message.description)
    {
      if clientId !in clients {
        return;
      }
      match message
      case JoinRoom(roomId, participantId) =>
        HandleJoinRoom(clientId, roomId, participantId);
      case CastVote(roomId, participantId, storyPoints, timeEstimate) =>
        HandleVote(clientId, roomId, participantId, storyPoints, timeEstimate, now);
      case RevealVotes(roomId) =>
        HandleRevealVotes(clientId, roomId, now);
      case NextRound(roomId, description) =>
        HandleNextRound(clientId, roomId, description, now);
      case Unrecognized(_) =>
    }
  }
}
