/** The room page: which participants have voted, the progress percentage,
    the viewer's own vote, where the shown state comes from, restoring the
    viewer's participant and the actions the page hands to the push
    channel. */
module RoomPage {
  import opened Wrappers
  import opened Seqs
  import opened Schema

  /** JavaScript truthiness of a nullable string. */
  predicate Truthy(x: Option<string>) { x.Some? && x.value != "" }

  /** The page's notion of "has voted": the participant's first vote has a
      non-empty story point value, and a non-empty time estimate when the
      room votes on both. */
  predicate HasVoted(votes: seq<Vote>, dualVoting: bool, p: Participant) {
    var v := FindVote(votes, p.id);
    v.Some? && Truthy(v.value.storyPoints) && (dualVoting ==> Truthy(v.value.timeEstimate))
  }

  /** `allParticipantsVoted`; true for an empty roster. */
  predicate AllParticipantsVoted(participants: seq<Participant>, votes: seq<Vote>, dualVoting: bool) {
    forall p :: p in participants ==> HasVoted(votes, dualVoting, p)
  }

  /** The participants that have voted, in roster order. */
  function VotedParticipants(participants: seq<Participant>, votes: seq<Vote>, dualVoting: bool): (r: seq<Participant>)
    ensures |r| <= |participants|
    ensures forall p :: p in r <==> p in participants && HasVoted(votes, dualVoting, p)
  {
    Filter(participants, (p: Participant) => HasVoted(votes, dualVoting, p))
  }

  /** `Math.round(k / n * 100)` on the exact quotient: the nearest integer,
      halves rounded up. */
  function RoundedPercent(k: nat, n: nat): (pct: nat)
    requires 0 < n
    ensures 2 * n * pct <= 200 * k + n < 2 * n * (pct + 1)
  {
    (200 * k + n) / (2 * n)
  }

  /** A rounded share lies in 0..100, is 0 exactly when fewer than one in
      two hundred voted, and is 100 exactly when at least 199 in 200 did. */
  lemma RoundedPercentRange(k: nat, n: nat)
    requires 0 < n && k <= n
    ensures RoundedPercent(k, n) <= 100
    ensures RoundedPercent(k, n) == 0 <==> 200 * k < n
    ensures RoundedPercent(k, n) == 100 <==> 200 * k >= 199 * n
  {
    var pct := RoundedPercent(k, n);
    if pct >= 101 {
      MulMonotone(2 * n, 101, pct);
      assert false;
    }
    if 200 * k >= 199 * n && pct <= 99 {
      MulMonotone(2 * n, pct + 1, 100);
      assert false;
    }
    if 200 * k < n && pct >= 1 {
      MulMonotone(2 * n, 1, pct);
      assert false;
    }
  }

  lemma MulMonotone(c: nat, a: nat, b: nat)
    requires a <= b
    ensures c * a <= c * b
  {
  }

  /** `votingProgress`: 0 for an empty roster, otherwise the rounded
      percentage of participants that have voted. */
  function VotingProgress(participants: seq<Participant>, votes: seq<Vote>, dualVoting: bool): (pct: nat)
    ensures pct <= 100
    ensures |participants| == 0 ==> pct == 0
    ensures |participants| > 0 ==>
              pct == RoundedPercent(|VotedParticipants(participants, votes, dualVoting)|, |participants|)
  {
    if |participants| == 0 then 0
    else
      var k := |VotedParticipants(participants, votes, dualVoting)|;
      RoundedPercentRange(k, |participants|);
      RoundedPercent(k, |participants|)
  }

  /** A non-empty roster that has all voted shows 100%. */
  lemma AllVotedIsFullProgress(participants: seq<Participant>, votes: seq<Vote>, dualVoting: bool)
    requires |participants| > 0 && AllParticipantsVoted(participants, votes, dualVoting)
    ensures VotingProgress(participants, votes, dualVoting) == 100
  {
    FilterAll(participants, (p: Participant) => HasVoted(votes, dualVoting, p));
    RoundedPercentRange(|participants|, |participants|);
  }

  /** A roster in which nobody has voted shows 0%. */
  lemma NobodyVotedIsZeroProgress(participants: seq<Participant>, votes: seq<Vote>, dualVoting: bool)
    requires forall p :: p in participants ==> !HasVoted(votes, dualVoting, p)
    ensures VotingProgress(participants, votes, dualVoting) == 0
  {
    FilterNone(participants, (p: Participant) => HasVoted(votes, dualVoting, p));
  }

  /** `currentUserVote`: the first vote cast by the viewer, if any. */
  function CurrentUserVote(votes: seq<Vote>, me: Participant): (r: Option<Vote>)
    ensures r.Some? ==> r.value.participantId == me.id && FirstVoteIndex(votes, me.id) < |votes|
                        && r.value == votes[FirstVoteIndex(votes, me.id)]
    ensures r.None? <==> forall v :: v in votes ==> v.participantId != me.id
  {
    FindVote(votes, me.id)
  }

  // ---------------------------------------------------------------------
  // Where the shown state comes from

  /** The state the push channel has delivered; before the first update it
      is `InitialSocketState`. */
  datatype SocketState = SocketState(room: Option<Room>, participants: seq<Participant>, votes: seq<Vote>,
                                     history: seq<VotingHistory>)

  const InitialSocketState := SocketState(None, [], [], [])

  /** What the page renders. */
  datatype Shown = Shown(room: Option<Room>, participants: seq<Participant>, votes: seq<Vote>,
                         history: seq<VotingHistory>)

  /** `a || fallback` for arrays: every array, even an empty one, is truthy,
      so the fallback is never taken. */
  function ArrayOr<T>(a: seq<T>, fallback: seq<T>): seq<T> {
    a
  }

  /** Each part of the shown state prefers the push channel; only the room
      falls back to the fetched snapshot, and only while the channel has
      none. */
  function ShownState(socket: SocketState, query: Option<Snapshot>): (s: Shown)
    ensures socket.room.Some? ==> s.room == socket.room
    ensures socket.room.None? && query.Some? ==> s.room == Some(query.value.room)
    ensures socket.room.None? && query.None? ==> s.room == None
    ensures s.participants == socket.participants && s.votes == socket.votes && s.history == socket.history
  {
    Shown(
      socket.room.OrElse(if query.Some? then Some(query.value.room) else None),
      ArrayOr(socket.participants, if query.Some? then query.value.participants else []),
      ArrayOr(socket.votes, if query.Some? then query.value.votes else []),
      ArrayOr(socket.history, if query.Some? then query.value.history else []))
  }

  /** Before the first push update, the page shows the fetched room with an
      empty roster and no votes, whatever the fetch returned. */
  lemma FirstRenderShowsFetchedRoomOnly(snapshot: Snapshot)
    ensures ShownState(InitialSocketState, Some(snapshot)) == Shown(Some(snapshot.room), [], [], [])
  {
  }

  // ---------------------------------------------------------------------
  // Page actions

  const CreatorName: string := "Room Creator"

  class RoomPage {
    const roomId: string
    var participant: Option<Participant>
    var showJoinModal: bool
    var nextRoundDescription: string
    var clearDescriptionOnNextRound: bool
    /** The names the page asked to join under, in order. */
    var joinRequests: seq<string>
    /** The messages the page handed to the push channel, in order. */
    var sent: seq<ClientMessage>
    var location: Option<string>

    constructor(roomId: string)
      ensures this.roomId == roomId && participant == None && !showJoinModal
      ensures nextRoundDescription == "" && clearDescriptionOnNextRound
      ensures joinRequests == [] && sent == [] && location == None
    {
      this.roomId := roomId;
      participant := None;
      showJoinModal := false;
      nextRoundDescription := "";
      clearDescriptionOnNextRound := true;
      joinRequests := [];
      sent := [];
      location := None;
    }

    /** The restore effect. A failed fetch sends the viewer home. Once the
        room is fetched and no participant is chosen: a stored id and name
        whose id is in the roster reuse that participant without joining;
        otherwise a creator joins as "Room Creator" and anyone else is shown
        the join dialog. */
    method RestoreParticipant(failed: bool, roomData: Option<Snapshot>, storedId: Option<string>,
                              storedName: Option<string>, creator: bool)
      modifies this
      ensures sent == old(sent) && nextRoundDescription == old(nextRoundDescription)
      ensures clearDescriptionOnNextRound == old(clearDescriptionOnNextRound)
      ensures failed ==> location == Some("/") && participant == old(participant)
                         && joinRequests == old(joinRequests) && showJoinModal == old(showJoinModal)
      ensures !failed && (roomData.None? || old(participant).Some?) ==>
                location == old(location) && participant == old(participant)
                && joinRequests == old(joinRequests) && showJoinModal == old(showJoinModal)
      ensures !failed && roomData.Some? && old(participant).None? ==>
                var reuse := Truthy(storedId) && Truthy(storedName)
                             && FindParticipant(roomData.value.participants, storedId.value).Some?;
                && location == old(location)
                && (reuse ==> participant == FindParticipant(roomData.value.participants, storedId.value)
                              && joinRequests == old(joinRequests) && showJoinModal == old(showJoinModal))
                && (!reuse && creator ==>
                      participant == old(participant) && joinRequests == old(joinRequests) + [CreatorName]
                      && showJoinModal == old(showJoinModal))
                && (!reuse && !creator ==>
                      participant == old(participant) && joinRequests == old(joinRequests) && showJoinModal)
    {
      if failed {
        location := Some("/");
        return;
      }
      if roomData.Some? && participant.None? {
        if Truthy(storedId) && Truthy(storedName) {
          var existing := FindParticipant(roomData.value.participants, storedId.value);
          if existing.Some? {
            participant := existing;
            return;
          }
        }
        if creator {
          joinRequests := joinRequests + [CreatorName];
        } else {
          showJoinModal := true;
        }
      }
    }

    /** `handleVote`: sends the chosen values as the viewer's vote, when the
        room id and the chosen participant's id are both non-empty. */
    method HandleVote(storyPoints: Option<string>, timeEstimate: Option<string>)
      modifies this
      ensures CanVote() ==> sent == old(sent) + [CastVote(roomId, participant.value.id, storyPoints, timeEstimate)]
      ensures !CanVote() ==> sent == old(sent)
      ensures participant == old(participant) && nextRoundDescription == old(nextRoundDescription)
      ensures joinRequests == old(joinRequests) && showJoinModal == old(showJoinModal) && location == old(location)
      ensures clearDescriptionOnNextRound == old(clearDescriptionOnNextRound)
    {
      if CanVote() {
        sent := sent + [CastVote(roomId, participant.value.id, storyPoints, timeEstimate)];
      }
    }

    /** `sendVote`'s guard: a truthy room id and a truthy participant id. */
    predicate CanVote()
      reads this
    {
      roomId != "" && participant.Some? && participant.value.id != ""
    }

    /** `handleRevealVotes`: sent only for a non-empty room id. */
    method HandleRevealVotes()
      modifies this
      ensures roomId != "" ==> sent == old(sent) + [RevealVotes(roomId)]
      ensures roomId == "" ==> sent == old(sent)
      ensures participant == old(participant) && nextRoundDescription == old(nextRoundDescription)
      ensures joinRequests == old(joinRequests) && showJoinModal == old(showJoinModal) && location == old(location)
      ensures clearDescriptionOnNextRound == old(clearDescriptionOnNextRound)
    {
      if roomId != "" {
        sent := sent + [RevealVotes(roomId)];
      }
    }

    /** `handleNextRound`: sends the typed description for a non-empty room
        id, then clears it only when the clear option is on. */
    method HandleNextRound()
      modifies this
      ensures roomId != "" ==> sent == old(sent) + [NextRound(roomId, Some(old(nextRoundDescription)))]
      ensures roomId == "" ==> sent == old(sent)
      ensures nextRoundDescription == if clearDescriptionOnNextRound then "" else old(nextRoundDescription)
      ensures participant == old(participant) && clearDescriptionOnNextRound == old(clearDescriptionOnNextRound)
      ensures joinRequests == old(joinRequests) && showJoinModal == old(showJoinModal) && location == old(location)
    {
      if roomId != "" {
        sent := sent + [NextRound(roomId, Some(nextRoundDescription))];
      }
      if clearDescriptionOnNextRound {
        nextRoundDescription := "";
      }
    }
  }
}
