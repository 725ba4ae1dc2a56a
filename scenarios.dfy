/** Properties that span several parts of the system: the archive rows a
    sequence of hub actions leaves, and how the client's notion of "voted"
    relates to the server's auto-reveal condition and to what the panels
    show. */
module Scenarios {
  import opened Wrappers
  import opened Schema
  import Storage
  import Hub
  import RoomPage
  import ParticipantsPanel
  import StatsPanel
  import JsText

  /** A reveal followed by the next round archives the revealed round
      twice: the reveal writes its row, and the next round writes another
      one without looking for it. The room then moves on unrevealed. */
  method RevealThenNextRound(hub: Hub.Hub, clientId: string, roomId: string, now1: Timestamp, now2: Timestamp)
    requires hub.Valid()
    requires clientId in hub.clients && hub.clients[clientId].roomId == Some(roomId) && roomId in hub.store.rooms
    requires |hub.store.GetVotesByRoomAndRound(roomId, hub.store.rooms[roomId].currentRound)| > 0
    requires !Hub.HasRound(hub.store.GetVotingHistoryByRoom(roomId), hub.store.rooms[roomId].currentRound)
    modifies hub, hub.store
    ensures hub.Valid()
    ensures var round := old(hub.store.rooms[roomId].currentRound);
            var n := |old(hub.store.votingHistory)|;
            && |hub.store.votingHistory| == n + 2 && hub.store.votingHistory[..n] == old(hub.store.votingHistory)
            && hub.store.votingHistory[n].round == round && hub.store.votingHistory[n + 1].round == round
            && hub.store.votingHistory[n].roomId == roomId && hub.store.votingHistory[n + 1].roomId == roomId
    ensures roomId in hub.store.rooms
    ensures hub.store.rooms[roomId].currentRound == old(hub.store.rooms[roomId].currentRound) + 1
    ensures !hub.store.rooms[roomId].isRevealed
  {
    ghost var round := hub.store.rooms[roomId].currentRound;
    ghost var first := hub.store.rooms[roomId];
    ghost var before := hub.store.votingHistory;
    ghost var votes := hub.store.GetVotesByRoomAndRound(roomId, round);
    hub.HandleRevealVotes(clientId, roomId, now1);
    ghost var mid := hub.store.votingHistory;
    assert Hub.Archives(before, mid, roomId, round, Hub.RevealDescription(first), votes);
    assert hub.store.rooms[roomId] == Hub.RevealedRoom(first);
    assert hub.store.GetVotesByRoomAndRound(roomId, round) == votes;
    hub.HandleNextRound(clientId, roomId, None, now2);
    assert Hub.Archives(mid, hub.store.votingHistory, roomId, round, JsText.OrDefault(first.currentDescription, ""), votes);
    ArchivedTwice(before, mid, hub.store.votingHistory, roomId, round,
                  Hub.RevealDescription(first), JsText.OrDefault(first.currentDescription, ""), votes);
  }

  /** Two archive steps in a row leave two rows of the same round. */
  lemma ArchivedTwice(h0: seq<VotingHistory>, h1: seq<VotingHistory>, h2: seq<VotingHistory>,
                      roomId: string, round: int, d1: string, d2: string, votes: seq<Vote>)
    requires Hub.Archives(h0, h1, roomId, round, d1, votes)
    requires Hub.Archives(h1, h2, roomId, round, d2, votes)
    ensures var n := |h0|;
            && |h2| == n + 2 && h2[..n] == h0
            && h2[n].round == round && h2[n + 1].round == round
            && h2[n].roomId == roomId && h2[n + 1].roomId == roomId
  {
    var n := |h0|;
    ArchivedRow(h0, h1, roomId, round, d1, votes);
    ArchivedRow(h1, h2, roomId, round, d2, votes);
    assert h2[..n] == h2[..n + 1][..n];
    assert h2[n] == h1[n];
  }

  /** The row an archive step appends belongs to that room and round. */
  lemma ArchivedRow(before: seq<VotingHistory>, after: seq<VotingHistory>,
                    roomId: string, round: int, description: string, votes: seq<Vote>)
    requires Hub.Archives(before, after, roomId, round, description, votes)
    ensures |after| == |before| + 1 && after[..|before|] == before
    ensures after[|before|].round == round && after[|before|].roomId == roomId
  {
    assert HistoryInsert(after[|before|]).round == round;
  }

  /** Revealing twice archives the round at most once. */
  method RevealTwice(hub: Hub.Hub, clientId: string, roomId: string, now1: Timestamp, now2: Timestamp)
    requires hub.Valid()
    modifies hub, hub.store
    ensures hub.Valid()
    ensures |hub.store.votingHistory| <= |old(hub.store.votingHistory)| + 1
  {
    var before := hub.store.votingHistory;
    hub.HandleRevealVotes(clientId, roomId, now1);
    var mid := hub.store.votingHistory;
    if |mid| > |before| {
      var round := hub.store.rooms[roomId].currentRound;
      var h := mid[|before|];
      assert h in hub.store.votingHistory && h.roomId == roomId && h.round == round;
      assert h in hub.store.GetVotingHistoryByRoom(roomId);
    }
    hub.HandleRevealVotes(clientId, roomId, now2);
  }

  /** When the page counts everyone as voted, the server's auto-reveal
      condition holds for the same votes: a truthy value is present. */
  lemma ClientAllVotedImpliesServerCondition(participants: seq<Participant>, votes: seq<Vote>, dualVoting: bool)
    requires RoomPage.AllParticipantsVoted(participants, votes, dualVoting)
    ensures Hub.EveryoneVoted(participants, votes, dualVoting)
  {
    forall p | p in participants ensures Hub.VotedFully(FindVote(votes, p.id), dualVoting) {
      assert RoomPage.HasVoted(votes, dualVoting, p);
    }
  }

  /** The converse fails for an empty story point: it completes the
      server's auto-reveal condition and shows a check mark in the panel,
      but the page counts nobody as voted and the sidebar reports no
      votes. */
  lemma EmptyStoryPointVote(p: Participant, room: Room, now: Timestamp)
    ensures var v := Vote(1, room.id, p.id, room.currentRound, Some(""), None, now);
            && Hub.EveryoneVoted([p], [v], false)
            && !RoomPage.AllParticipantsVoted([p], [v], false)
            && RoomPage.VotingProgress([p], [v], false) == 0
            && ParticipantsPanel.Rows([p], [v], false, false)[0].story == ParticipantsPanel.Check
            && StatsPanel.GetCurrentStats([v]).storyPoints == "No votes"
  {
    var v := Vote(1, room.id, p.id, room.currentRound, Some(""), None, now);
    assert FindVote([v], p.id) == Some(v);
    assert !RoomPage.HasVoted([v], false, p);
    RoomPage.NobodyVotedIsZeroProgress([p], [v], false);
    StatsPanel.EmptyStoryPointsCountAsNone([v]);
  }
}
