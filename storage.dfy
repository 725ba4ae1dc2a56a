/** The authoritative in-memory store: rooms, participants, votes and the
    voting history, with the two id counters. Sequences stand for the
    insertion-ordered maps of the store; only a new key is appended, and a
    write to an existing key keeps its position. */
module Storage {
  import opened Wrappers
  import opened Seqs
  import opened Schema

  // ---------------------------------------------------------------------
  // Room patches

  /** `Partial<Room>`: `Some` for every field the update names. A nullable
      field is set to `Some(None)` to store null. */
  datatype RoomPatch = RoomPatch(
    id: Option<string>,
    name: Option<string>,
    votingSystem: Option<string>,
    timeUnits: Option<string>,
    dualVoting: Option<bool>,
    autoReveal: Option<bool>,
    storyPointValues: Option<seq<string>>,
    timeValues: Option<seq<string>>,
    currentRound: Option<int>,
    currentDescription: Option<Option<string>>,
    isRevealed: Option<bool>,
    createdBy: Option<Option<string>>,
    createdAt: Option<Timestamp>)

  const NoChanges := RoomPatch(None, None, None, None, None, None, None, None, None, None, None, None, None)

  /** `{...room, ...updates}`. */
  function ApplyPatch(r: Room, p: RoomPatch): Room {
    Room(
      p.id.GetOr(r.id), p.name.GetOr(r.name), p.votingSystem.GetOr(r.votingSystem),
      p.timeUnits.GetOr(r.timeUnits), p.dualVoting.GetOr(r.dualVoting), p.autoReveal.GetOr(r.autoReveal),
      p.storyPointValues.GetOr(r.storyPointValues), p.timeValues.GetOr(r.timeValues),
      p.currentRound.GetOr(r.currentRound), p.currentDescription.GetOr(r.currentDescription),
      p.isRevealed.GetOr(r.isRevealed), p.createdBy.GetOr(r.createdBy), p.createdAt.GetOr(r.createdAt))
  }

  /** `{...p, ...q}`: the later patch wins on every field it names. */
  function MergePatches(p: RoomPatch, q: RoomPatch): RoomPatch {
    RoomPatch(
      q.id.OrElse(p.id), q.name.OrElse(p.name), q.votingSystem.OrElse(p.votingSystem),
      q.timeUnits.OrElse(p.timeUnits), q.dualVoting.OrElse(p.dualVoting), q.autoReveal.OrElse(p.autoReveal),
      q.storyPointValues.OrElse(p.storyPointValues), q.timeValues.OrElse(p.timeValues),
      q.currentRound.OrElse(p.currentRound), q.currentDescription.OrElse(p.currentDescription),
      q.isRevealed.OrElse(p.isRevealed), q.createdBy.OrElse(p.createdBy), q.createdAt.OrElse(p.createdAt))
  }

  /** A patch naming every field, with the values of `r`. */
  function WholeRoom(r: Room): RoomPatch {
    RoomPatch(
      Some(r.id), Some(r.name), Some(r.votingSystem), Some(r.timeUnits), Some(r.dualVoting),
      Some(r.autoReveal), Some(r.storyPointValues), Some(r.timeValues), Some(r.currentRound),
      Some(r.currentDescription), Some(r.isRevealed), Some(r.createdBy), Some(r.createdAt))
  }

  /** The merge laws: the empty patch changes nothing, a patch applied twice
      is applied once, two patches in a row are their merge, and a patch
      naming every field replaces the room. */
  lemma PatchLaws(r: Room, s: Room, p: RoomPatch, q: RoomPatch)
    ensures ApplyPatch(r, NoChanges) == r
    ensures ApplyPatch(ApplyPatch(r, p), p) == ApplyPatch(r, p)
    ensures ApplyPatch(ApplyPatch(r, p), q) == ApplyPatch(r, MergePatches(p, q))
    ensures ApplyPatch(r, WholeRoom(s)) == s
  {
  }

  /** The patch of a reveal. */
  const Reveal := NoChanges.(isRevealed := Some(true))

  /** The patch that opens round `round` with the given description. */
  function Advance(round: int, description: string): RoomPatch {
    NoChanges.(currentRound := Some(round), currentDescription := Some(Some(description)), isRevealed := Some(false))
  }

  /** The handlers' patches touch only the fields they name. */
  lemma HandlerPatches(r: Room, round: int, description: string)
    ensures ApplyPatch(r, Reveal) == r.(isRevealed := true)
    ensures ApplyPatch(r, Advance(round, description))
         == r.(currentRound := round, currentDescription := Some(description), isRevealed := false)
  {
  }

  // ---------------------------------------------------------------------
  // Participants

  /** Position of the participant with id `id`. */
  function ParticipantIndex(ps: seq<Participant>, id: string): (r: Option<nat>)
    ensures r.Some? ==> r.value < |ps| && ps[r.value].id == id
    ensures r.None? ==> forall i :: 0 <= i < |ps| ==> ps[i].id != id
  {
    if |ps| == 0 then None
    else if ps[0].id == id then Some(0)
    else match ParticipantIndex(ps[1..], id)
      case Some(i) => Some(i + 1)
      case None => None
  }

  /** `participants.set(p.id, p)`: replaces the entry with that id in place,
      or appends a new one. */
  function PutParticipant(ps: seq<Participant>, p: Participant): (r: seq<Participant>)
    ensures p in r
    ensures forall q :: q in r ==> q == p || q in ps
    ensures forall q :: q in ps && q.id != p.id ==> q in r
  {
    match ParticipantIndex(ps, p.id)
    case Some(i) =>
      var r := ps[i := p];
      assert r[i] == p;
      assert forall q :: q in ps && q.id != p.id ==> q in r by {
        forall q | q in ps && q.id != p.id ensures q in r {
          var j :| 0 <= j < |ps| && ps[j] == q;
          assert r[j] == q;
        }
      }
      r
    case None => ps + [p]
  }

  predicate IdBefore(a: Participant, b: Participant) { a.id != b.id }

  predicate DistinctIds(ps: seq<Participant>) { Pairwise(ps, IdBefore) }

  lemma {:induction false} PutParticipantKeepsIdsDistinct(ps: seq<Participant>, p: Participant)
    requires DistinctIds(ps)
    ensures DistinctIds(PutParticipant(ps, p))
  {
    var r := PutParticipant(ps, p);
    forall i, j | 0 <= i < j < |r| ensures r[i].id != r[j].id {
      match ParticipantIndex(ps, p.id)
      case Some(k) =>
        assert IdBefore(ps[i], ps[j]);
        if i == k {
          assert IdBefore(ps[k], ps[j]);
        } else if j == k {
          assert IdBefore(ps[i], ps[k]);
        }
      case None =>
        if j < |ps| {
          assert IdBefore(ps[i], ps[j]);
        }
    }
  }

  // ---------------------------------------------------------------------
  // Votes

  predicate SameKey(v: Vote, participantId: string, round: int) {
    v.participantId == participantId && v.round == round
  }

  /** Position of the first vote of participant `participantId` in round
      `round`, whatever its room. */
  function VoteIndex(vs: seq<Vote>, participantId: string, round: int): (r: Option<nat>)
    ensures r.Some? ==> r.value < |vs| && SameKey(vs[r.value], participantId, round)
    ensures r.Some? ==> forall j :: 0 <= j < r.value ==> !SameKey(vs[j], participantId, round)
    ensures r.None? ==> forall j :: 0 <= j < |vs| ==> !SameKey(vs[j], participantId, round)
  {
    if |vs| == 0 then None
    else if SameKey(vs[0], participantId, round) then Some(0)
    else match VoteIndex(vs[1..], participantId, round)
      case Some(i) => Some(i + 1)
      case None => None
  }

  /** The stored vote refreshed by a new submission: a field the submission
      leaves null keeps its earlier value; the id, room and key stay. */
  function MergeVote(existing: Vote, ins: InsertVote, now: Timestamp): (v: Vote)
    ensures v.id == existing.id && v.roomId == existing.roomId
    ensures v.participantId == existing.participantId && v.round == existing.round
    ensures ins.storyPoints.Some? ==> v.storyPoints == ins.storyPoints
    ensures ins.storyPoints.None? ==> v.storyPoints == existing.storyPoints
    ensures ins.timeEstimate.Some? ==> v.timeEstimate == ins.timeEstimate
    ensures ins.timeEstimate.None? ==> v.timeEstimate == existing.timeEstimate
  {
    existing.(storyPoints := ins.storyPoints.OrElse(existing.storyPoints),
              timeEstimate := ins.timeEstimate.OrElse(existing.timeEstimate),
              votedAt := now)
  }

  /** The outcome of an upsert: the new votes, the next vote id and the
      vote stored. */
  datatype Upserted = Upserted(votes: seq<Vote>, nextVoteId: nat, vote: Vote)

  /** `createOrUpdateVote` on the votes `vs` with next id `nextId`. */
  function Upsert(vs: seq<Vote>, nextId: nat, ins: InsertVote, now: Timestamp): Upserted {
    match VoteIndex(vs, ins.participantId, ins.round)
    case Some(i) =>
      var v := MergeVote(vs[i], ins, now);
      Upserted(vs[i := v], nextId, v)
    case None =>
      var v := VoteOf(ins, nextId, now);
      Upserted(vs + [v], nextId + 1, v)
  }

  predicate VoteIdBefore(a: Vote, b: Vote) { a.id < b.id }

  predicate DifferentKeys(a: Vote, b: Vote) { !SameKey(b, a.participantId, a.round) }

  /** Vote ids strictly increase in insertion order. */
  predicate VoteIdsAscending(vs: seq<Vote>) { Pairwise(vs, VoteIdBefore) }

  /** At most one vote per participant and round. */
  predicate OneVotePerKey(vs: seq<Vote>) { Pairwise(vs, DifferentKeys) }

  /** The ids of the votes cast by participant `participantId`. */
  function VoteIdsOf(vs: seq<Vote>, participantId: string): (ids: seq<nat>)
    ensures forall i :: 0 <= i < |vs| && vs[i].participantId == participantId ==> vs[i].id in ids
    ensures forall x :: x in ids ==> exists i :: 0 <= i < |vs| && vs[i].id == x && vs[i].participantId == participantId
  {
    if |vs| == 0 then []
    else
      var rest := VoteIdsOf(vs[1..], participantId);
      assert forall x :: x in rest ==> exists i :: 0 <= i < |vs| && vs[i].id == x && vs[i].participantId == participantId by {
        forall x | x in rest ensures exists i :: 0 <= i < |vs| && vs[i].id == x && vs[i].participantId == participantId {
          var k :| 0 <= k < |vs[1..]| && vs[1..][k].id == x && vs[1..][k].participantId == participantId;
          assert vs[k + 1] == vs[1..][k];
        }
      }
      assert forall i :: 1 <= i < |vs| ==> vs[i] == vs[1..][i - 1];
      if vs[0].participantId == participantId then [vs[0].id] + rest else rest
  }

  /** The votes whose ids are not in `ids`. */
  function WithoutVoteIds(vs: seq<Vote>, ids: seq<nat>): seq<Vote> {
    Filter(vs, (v: Vote) => v.id !in ids)
  }

  // ---------------------------------------------------------------------
  // History

  predicate HistoryIdBefore(a: VotingHistory, b: VotingHistory) { a.id < b.id }

  predicate HistoryIdsAscending(hs: seq<VotingHistory>) { Pairwise(hs, HistoryIdBefore) }

  /** The entries of round `round`, in order. */
  function OfRound(hs: seq<VotingHistory>, round: int): seq<VotingHistory> {
    if |hs| == 0 then []
    else if hs[0].round == round then [hs[0]] + OfRound(hs[1..], round)
    else OfRound(hs[1..], round)
  }

  predicate RoundsDescending(hs: seq<VotingHistory>) {
    forall i, j :: 0 <= i < j < |hs| ==> hs[i].round >= hs[j].round
  }

  lemma OfRoundCons(h: VotingHistory, s: seq<VotingHistory>, round: int)
    ensures OfRound([h] + s, round) == if h.round == round then [h] + OfRound(s, round) else OfRound(s, round)
  {
    assert ([h] + s)[1..] == s;
  }

  /** Putting an entry of a round no lower than all others in front keeps
      the rounds descending. */
  lemma DescendingCons(h: VotingHistory, s: seq<VotingHistory>)
    requires RoundsDescending(s)
    requires forall x :: x in s ==> h.round >= x.round
    ensures RoundsDescending([h] + s)
  {
    forall i, j | 0 <= i < j < |[h] + s| ensures ([h] + s)[i].round >= ([h] + s)[j].round {
      if i == 0 {
        assert ([h] + s)[j] in s;
      } else {
        assert ([h] + s)[i] == s[i - 1] && ([h] + s)[j] == s[j - 1];
      }
    }
  }

  lemma DescendingTail(s: seq<VotingHistory>)
    requires |s| > 0 && RoundsDescending(s)
    ensures RoundsDescending(s[1..])
    ensures forall x :: x in s[1..] ==> s[0].round >= x.round
  {
    forall i, j | 0 <= i < j < |s[1..]| ensures s[1..][i].round >= s[1..][j].round {
      assert s[1..][i] == s[i + 1] && s[1..][j] == s[j + 1];
    }
    forall x | x in s[1..] ensures s[0].round >= x.round {
      var m :| 0 <= m < |s[1..]| && s[1..][m] == x;
      assert s[m + 1] == x;
    }
  }

  /** Inserts `h` in front of the first entry whose round is not higher. */
  function InsertByRound(h: VotingHistory, s: seq<VotingHistory>): (r: seq<VotingHistory>)
    ensures |r| == |s| + 1
    ensures forall x :: x in r <==> x == h || x in s
    ensures RoundsDescending(s) ==> RoundsDescending(r)
    ensures forall k :: OfRound(r, k) == if h.round == k then [h] + OfRound(s, k) else OfRound(s, k)
  {
    if |s| == 0 || h.round >= s[0].round then
      assert forall k :: OfRound([h] + s, k) == if h.round == k then [h] + OfRound(s, k) else OfRound(s, k) by {
        forall k { OfRoundCons(h, s, k); }
      }
      assert RoundsDescending(s) ==> RoundsDescending([h] + s) by {
        if RoundsDescending(s) && |s| > 0 {
          DescendingTail(s);
          DescendingCons(h, s);
        } else if RoundsDescending(s) {
          DescendingCons(h, s);
        }
      }
      [h] + s
    else
      var t := InsertByRound(h, s[1..]);
      assert s == [s[0]] + s[1..];
      assert forall k :: OfRound([s[0]] + t, k) == if s[0].round == k then [s[0]] + OfRound(t, k) else OfRound(t, k) by {
        forall k { OfRoundCons(s[0], t, k); }
      }
      assert forall k :: OfRound(s, k) == if s[0].round == k then [s[0]] + OfRound(s[1..], k) else OfRound(s[1..], k) by {
        forall k { OfRoundCons(s[0], s[1..], k); }
      }
      assert RoundsDescending(s) ==> RoundsDescending([s[0]] + t) by {
        if RoundsDescending(s) {
          DescendingTail(s);
          DescendingCons(s[0], t);
        }
      }
      [s[0]] + t
  }

  /** `sort((a, b) => b.round - a.round)`: a stable sort, highest round
      first. */
  function SortByRoundDescending(s: seq<VotingHistory>): (r: seq<VotingHistory>)
    ensures |r| == |s|
    ensures forall x :: x in r <==> x in s
    ensures RoundsDescending(r)
    ensures forall k :: OfRound(r, k) == OfRound(s, k)
  {
    if |s| == 0 then []
    else
      var t := SortByRoundDescending(s[1..]);
      assert s == [s[0]] + s[1..];
      assert forall k :: OfRound(s, k) == if s[0].round == k then [s[0]] + OfRound(s[1..], k) else OfRound(s[1..], k) by {
        forall k { OfRoundCons(s[0], s[1..], k); }
      }
      InsertByRound(s[0], t)
  }

  // ---------------------------------------------------------------------
  // The store

  class MemStorage {
    var rooms: map<string, Room>
    var participants: seq<Participant>
    var votes: seq<Vote>
    var votingHistory: seq<VotingHistory>
    var currentVoteId: nat
    var currentHistoryId: nat

    /** Participant ids are unique; vote and history ids are unique,
        ascending and below their counters; one vote per participant and
        round. */
    ghost predicate Valid()
      reads this
    {
      && DistinctIds(participants)
      && 1 <= currentVoteId && VoteIdsAscending(votes) && OneVotePerKey(votes)
      && (forall v :: v in votes ==> 1 <= v.id < currentVoteId)
      && 1 <= currentHistoryId && HistoryIdsAscending(votingHistory)
      && (forall h :: h in votingHistory ==> 1 <= h.id < currentHistoryId)
    }

    constructor()
      ensures Valid()
      ensures rooms == map[] && participants == [] && votes == [] && votingHistory == []
      ensures currentVoteId == 1 && currentHistoryId == 1
    {
      rooms := map[];
      participants := [];
      votes := [];
      votingHistory := [];
      currentVoteId := 1;
      currentHistoryId := 1;
    }

    // Rooms

    /** The room stored under `id`, if any. */
    function GetRoom(id: string): (r: Option<Room>)
      reads this
      ensures r.Some? <==> id in rooms
      ensures r.Some? ==> r.value == rooms[id]
    {
      if id in rooms then Some(rooms[id]) else None
    }

    /** Stores the room under its id, stamped with `now`; reading it back
        gives the insert plus its creation time. */
    method CreateRoom(ins: InsertRoom, now: Timestamp) returns (room: Room)
      requires Valid()
      modifies this
      ensures Valid()
      ensures room == RoomOf(ins, now) && RoomInsert(room) == ins
      ensures rooms == old(rooms)[ins.id := room]
      ensures GetRoom(ins.id) == Some(room)
      ensures participants == old(participants) && votes == old(votes) && votingHistory == old(votingHistory)
      ensures currentVoteId == old(currentVoteId) && currentHistoryId == old(currentHistoryId)
    {
      room := RoomOf(ins, now);
      rooms := rooms[ins.id := room];
    }

    /** Merges the patch into the stored room; a missing room changes
        nothing. */
    method UpdateRoom(id: string, updates: RoomPatch) returns (r: Option<Room>)
      requires Valid()
      modifies this
      ensures Valid()
      ensures old(GetRoom(id)).None? ==> r.None? && rooms == old(rooms)
      ensures old(GetRoom(id)).Some? ==>
                r == Some(ApplyPatch(old(rooms[id]), updates)) && rooms == old(rooms)[id := r.value]
      ensures participants == old(participants) && votes == old(votes) && votingHistory == old(votingHistory)
      ensures currentVoteId == old(currentVoteId) && currentHistoryId == old(currentHistoryId)
    {
      if id !in rooms {
        return None;
      }
      var updated := ApplyPatch(rooms[id], updates);
      rooms := rooms[id := updated];
      r := Some(updated);
    }

    // Participants

    /** Creates a participant under the store's own fresh id `newId`. */
    method CreateParticipant(ins: InsertParticipant, newId: string, now: Timestamp) returns (p: Participant)
      requires Valid()
      modifies this
      ensures Valid()
      ensures p == ParticipantOf(ins, newId, now) && ParticipantInsert(p) == ins
      ensures participants == PutParticipant(old(participants), p)
      ensures GetParticipant(newId) == Some(p)
      ensures (forall q :: q in old(participants) ==> q.id != newId) ==> participants == old(participants) + [p]
      ensures rooms == old(rooms) && votes == old(votes) && votingHistory == old(votingHistory)
      ensures currentVoteId == old(currentVoteId) && currentHistoryId == old(currentHistoryId)
    {
      p := ParticipantOf(ins, newId, now);
      PutParticipantKeepsIdsDistinct(participants, p);
      participants := PutParticipant(participants, p);
      FindInDistinct(participants, p);
    }

    /** The participants of room `roomId`, in insertion order. */
    function GetParticipantsByRoom(roomId: string): (r: seq<Participant>)
      reads this
      ensures forall p :: p in r <==> p in participants && p.roomId == roomId
      ensures SubsequenceOf(r, participants)
    {
      var keep := (p: Participant) => p.roomId == roomId;
      FilterIsSubsequence(participants, keep);
      Filter(participants, keep)
    }

    /** The participant with id `id`, if any. */
    function GetParticipant(id: string): (r: Option<Participant>)
      reads this
      ensures r.Some? ==> r.value in participants && r.value.id == id
      ensures r.None? ==> forall p :: p in participants ==> p.id != id
    {
      match ParticipantIndex(participants, id)
      case Some(i) => Some(participants[i])
      case None => None
    }

    /** Deletes the participant and, one id at a time, every vote it cast in
        any round; that is the cascade rule of the votes table. */
    method RemoveParticipant(id: string)
      requires Valid()
      modifies this
      ensures Valid()
      ensures participants == Filter(old(participants), (p: Participant) => p.id != id)
      ensures GetParticipant(id).None?
      ensures votes == VotesAfterParticipantDeleted(old(votes), id)
      ensures rooms == old(rooms) && votingHistory == old(votingHistory)
      ensures currentVoteId == old(currentVoteId) && currentHistoryId == old(currentHistoryId)
    {
      FilterPairwise(participants, (p: Participant) => p.id != id, IdBefore);
      participants := Filter(participants, (p: Participant) => p.id != id);
      var toRemove := VoteIdsOf(votes, id);
      ghost var before := votes;
      WithoutNoVoteIds(before);
      var k := 0;
      while k < |toRemove|
        invariant 0 <= k <= |toRemove|
        invariant votes == WithoutVoteIds(before, toRemove[..k])
        invariant participants == Filter(old(participants), (p: Participant) => p.id != id)
        invariant rooms == old(rooms) && votingHistory == old(votingHistory)
        invariant currentVoteId == old(currentVoteId) && currentHistoryId == old(currentHistoryId)
      {
        var voteId := toRemove[k];
        assert toRemove[..k + 1] == toRemove[..k] + [voteId];
        WithoutOneMoreVoteId(before, toRemove[..k], voteId);
        votes := Filter(votes, (v: Vote) => v.id != voteId);
        k := k + 1;
      }
      assert toRemove[..k] == toRemove;
      DeletingVoteIdsIsCascade(before, id);
    }

    // Votes

    /** Upserts the vote of a participant in a round: the first stored vote
        with the same participant and round (in any room) is merged in place
        and keeps its id; otherwise a new vote takes the next id. */
    method CreateOrUpdateVote(ins: InsertVote, now: Timestamp) returns (v: Vote)
      requires Valid()
      modifies this
      ensures Valid()
      ensures Upserted(votes, currentVoteId, v) == Upsert(old(votes), old(currentVoteId), ins, now)
      ensures GetVoteByParticipantAndRound(ins.participantId, ins.round) == Some(v)
      ensures rooms == old(rooms) && participants == old(participants) && votingHistory == old(votingHistory)
      ensures currentHistoryId == old(currentHistoryId)
    {
      match VoteIndex(votes, ins.participantId, ins.round)
      case Some(i) =>
        v := MergeVote(votes[i], ins, now);
        ReplaceVoteKeepsValid(votes, i, v, currentVoteId);
        votes := votes[i := v];
        assert VoteIndex(votes, ins.participantId, ins.round) == Some(i) by {
          VoteIndexAfterReplace(old(votes), i, v);
        }
      case None =>
        v := VoteOf(ins, currentVoteId, now);
        AppendVoteKeepsValid(votes, v, currentVoteId);
        votes := votes + [v];
        currentVoteId := currentVoteId + 1;
        assert VoteIndex(votes, ins.participantId, ins.round) == Some(|votes| - 1) by {
          VoteIndexAfterAppend(old(votes), v);
        }
    }

    /** The votes of room `roomId` in round `round`, in insertion order. */
    function GetVotesByRoomAndRound(roomId: string, round: int): (r: seq<Vote>)
      reads this
      ensures forall v :: v in r <==> v in votes && v.roomId == roomId && v.round == round
      ensures SubsequenceOf(r, votes)
    {
      var keep := (v: Vote) => v.roomId == roomId && v.round == round;
      FilterIsSubsequence(votes, keep);
      Filter(votes, keep)
    }

    /** The vote of a participant in a round, if any. */
    function GetVoteByParticipantAndRound(participantId: string, round: int): (r: Option<Vote>)
      reads this
      ensures r.Some? ==> r.value in votes && SameKey(r.value, participantId, round)
      ensures r.None? ==> forall v :: v in votes ==> !SameKey(v, participantId, round)
    {
      match VoteIndex(votes, participantId, round)
      case Some(i) => Some(votes[i])
      case None => None
    }

    // History

    /** Appends an archive row with the next history id; it never merges
        with an existing row of the same round. */
    method CreateVotingHistory(ins: InsertVotingHistory, now: Timestamp) returns (h: VotingHistory)
      requires Valid()
      modifies this
      ensures Valid()
      ensures h == HistoryOf(ins, old(currentHistoryId), now) && HistoryInsert(h) == ins
      ensures votingHistory == old(votingHistory) + [h]
      ensures currentHistoryId == old(currentHistoryId) + 1
      ensures forall g :: g in old(votingHistory) ==> g.id < h.id
      ensures rooms == old(rooms) && participants == old(participants) && votes == old(votes)
      ensures currentVoteId == old(currentVoteId)
    {
      h := HistoryOf(ins, currentHistoryId, now);
      assert forall i, j :: 0 <= i < j < |votingHistory + [h]| ==>
        HistoryIdBefore((votingHistory + [h])[i], (votingHistory + [h])[j]) by {
        forall i, j | 0 <= i < j < |votingHistory + [h]|
          ensures HistoryIdBefore((votingHistory + [h])[i], (votingHistory + [h])[j])
        {
          if j < |votingHistory| {
            assert HistoryIdBefore(votingHistory[i], votingHistory[j]);
          } else {
            assert votingHistory[i] in votingHistory;
          }
        }
      }
      votingHistory := votingHistory + [h];
      currentHistoryId := currentHistoryId + 1;
    }

    /** The archive of room `roomId`, highest round first; rows of the same
        round keep their order of creation. */
    function GetVotingHistoryByRoom(roomId: string): (r: seq<VotingHistory>)
      reads this
      ensures forall h :: h in r <==> h in votingHistory && h.roomId == roomId
      ensures RoundsDescending(r)
      ensures forall k :: OfRound(r, k) == OfRound(Filter(votingHistory, (h: VotingHistory) => h.roomId == roomId), k)
    {
      SortByRoundDescending(Filter(votingHistory, (h: VotingHistory) => h.roomId == roomId))
    }

    /** What a client is shown of a room: the room, its participants, the
        votes of its current round and its archive. */
    function RoomState(roomId: string): (r: Option<Snapshot>)
      reads this
      ensures r.None? <==> roomId !in rooms
      ensures r.Some? ==> r.value.room == rooms[roomId]
      ensures r.Some? ==> forall v :: v in r.value.votes <==>
                v in votes && v.roomId == roomId && v.round == rooms[roomId].currentRound
      ensures r.Some? ==> r.value.participants == GetParticipantsByRoom(roomId)
      ensures r.Some? ==> forall p :: p in r.value.participants <==> p in participants && p.roomId == roomId
      ensures r.Some? ==> r.value.history == GetVotingHistoryByRoom(roomId)
      ensures r.Some? ==> forall h :: h in r.value.history <==> h in votingHistory && h.roomId == roomId
      ensures r.Some? ==> RoundsDescending(r.value.history)
    {
      match GetRoom(roomId)
      case None => None
      case Some(room) =>
        Some(Snapshot(room, GetParticipantsByRoom(roomId), GetVotesByRoomAndRound(roomId, room.currentRound),
                      GetVotingHistoryByRoom(roomId)))
    }
  }

  lemma FindInDistinct(ps: seq<Participant>, p: Participant)
    requires DistinctIds(ps) && p in ps
    ensures ParticipantIndex(ps, p.id) == Some(IndexOfParticipant(ps, p))
  {
    var i := IndexOfParticipant(ps, p);
  }

  function IndexOfParticipant(ps: seq<Participant>, p: Participant): (i: nat)
    requires p in ps
    ensures i < |ps| && ps[i] == p
  {
    if ps[0] == p then 0 else 1 + IndexOfParticipant(ps[1..], p)
  }

  lemma ReplaceVoteKeepsValid(vs: seq<Vote>, i: nat, v: Vote, bound: nat)
    requires i < |vs| && v.id == vs[i].id && SameKey(v, vs[i].participantId, vs[i].round)
    requires VoteIdsAscending(vs) && OneVotePerKey(vs) && forall w :: w in vs ==> 1 <= w.id < bound
    ensures VoteIdsAscending(vs[i := v]) && OneVotePerKey(vs[i := v])
    ensures forall w :: w in vs[i := v] ==> 1 <= w.id < bound
  {
    var r := vs[i := v];
    forall a, b | 0 <= a < b < |r| ensures VoteIdBefore(r[a], r[b]) && DifferentKeys(r[a], r[b]) {
      assert VoteIdBefore(vs[a], vs[b]) && DifferentKeys(vs[a], vs[b]);
    }
    forall w | w in r ensures 1 <= w.id < bound {
      var k :| 0 <= k < |r| && r[k] == w;
      assert vs[k] in vs;
    }
  }

  lemma AppendVoteKeepsValid(vs: seq<Vote>, v: Vote, bound: nat)
    requires v.id == bound && bound >= 1
    requires forall j :: 0 <= j < |vs| ==> !SameKey(vs[j], v.participantId, v.round)
    requires VoteIdsAscending(vs) && OneVotePerKey(vs) && forall w :: w in vs ==> 1 <= w.id < bound
    ensures VoteIdsAscending(vs + [v]) && OneVotePerKey(vs + [v])
    ensures forall w :: w in vs + [v] ==> 1 <= w.id < bound + 1
  {
    var r := vs + [v];
    forall a, b | 0 <= a < b < |r| ensures VoteIdBefore(r[a], r[b]) && DifferentKeys(r[a], r[b]) {
      if b < |vs| {
        assert VoteIdBefore(vs[a], vs[b]) && DifferentKeys(vs[a], vs[b]);
      } else {
        assert vs[a] in vs;
      }
    }
  }

  /** A first match is what the lookup returns. */
  lemma VoteIndexAt(vs: seq<Vote>, participantId: string, round: int, i: nat)
    requires i < |vs| && SameKey(vs[i], participantId, round)
    requires forall j :: 0 <= j < i ==> !SameKey(vs[j], participantId, round)
    ensures VoteIndex(vs, participantId, round) == Some(i)
  {
  }

  lemma VoteIndexAfterReplace(vs: seq<Vote>, i: nat, v: Vote)
    requires i < |vs| && VoteIndex(vs, v.participantId, v.round) == Some(i)
    ensures VoteIndex(vs[i := v], v.participantId, v.round) == Some(i)
  {
    var r := vs[i := v];
    assert forall j :: 0 <= j < i ==> r[j] == vs[j];
    VoteIndexAt(r, v.participantId, v.round, i);
  }

  lemma VoteIndexAfterAppend(vs: seq<Vote>, v: Vote)
    requires VoteIndex(vs, v.participantId, v.round).None?
    ensures VoteIndex(vs + [v], v.participantId, v.round) == Some(|vs|)
  {
    var r := vs + [v];
    assert forall j :: 0 <= j < |vs| ==> r[j] == vs[j];
    VoteIndexAt(r, v.participantId, v.round, |vs|);
  }

  /** One vote per participant and round, as the upsert keeps it: a lookup
      by participant and round finds the only such vote. */
  lemma OnlyVoteOfKey(vs: seq<Vote>, participantId: string, round: int, v: Vote)
    requires OneVotePerKey(vs) && v in vs && SameKey(v, participantId, round)
    ensures VoteIndex(vs, participantId, round).Some?
    ensures vs[VoteIndex(vs, participantId, round).value] == v
  {
    var k :| 0 <= k < |vs| && vs[k] == v;
  }

  lemma WithoutNoVoteIds(vs: seq<Vote>)
    ensures WithoutVoteIds(vs, []) == vs
  {
    FilterAll(vs, (v: Vote) => v.id !in []);
  }

  /** Deleting one more id from the map: the loop step. */
  lemma WithoutOneMoreVoteId(vs: seq<Vote>, ids: seq<nat>, x: nat)
    ensures Filter(WithoutVoteIds(vs, ids), (v: Vote) => v.id != x) == WithoutVoteIds(vs, ids + [x])
  {
    FilterTwice(vs, (v: Vote) => v.id !in ids, (v: Vote) => v.id != x, (v: Vote) => v.id !in ids + [x]);
  }

  /** Deleting by id the votes of a participant is the cascade rule, and it
      keeps ids ascending and one vote per participant and round. */
  lemma DeletingVoteIdsIsCascade(vs: seq<Vote>, participantId: string)
    requires VoteIdsAscending(vs) && OneVotePerKey(vs)
    ensures WithoutVoteIds(vs, VoteIdsOf(vs, participantId)) == VotesAfterParticipantDeleted(vs, participantId)
    ensures VoteIdsAscending(VotesAfterParticipantDeleted(vs, participantId))
    ensures OneVotePerKey(VotesAfterParticipantDeleted(vs, participantId))
  {
    var ids := VoteIdsOf(vs, participantId);
    forall i | 0 <= i < |vs|
      ensures (vs[i].id !in ids) == (vs[i].participantId != participantId)
    {
      if vs[i].id in ids {
        var j :| 0 <= j < |vs| && vs[j].id == vs[i].id && vs[j].participantId == participantId;
      }
    }
    FilterEquivalent(vs, (v: Vote) => v.id !in ids, (v: Vote) => v.participantId != participantId);
    FilterPairwise(vs, (v: Vote) => v.participantId != participantId, VoteIdBefore);
    FilterPairwise(vs, (v: Vote) => v.participantId != participantId, DifferentKeys);
  }
}
