/** The statistics sidebar: how many story point and time votes the current
    round has, and the labels of the room's settings. */
module StatsPanel {
  import opened Wrappers
  import opened JsText
  import opened Schema
  import opened Aggregation

  /** "N votes" for a positive count, "No votes" for none. */
  function VotesLabel(n: nat): (text: string)
    ensures n == 0 ==> text == "No votes"
    ensures n > 0 ==> text == NatToString(n) + " votes"
  {
    if n > 0 then NatToString(n) + " votes" else "No votes"
  }

  /** A label gives its count back: reading the number at its start yields
      the count, and only a count of zero reads "No votes". */
  lemma VotesLabelReadsBack(n: nat)
    ensures n > 0 ==> ParseFloat(VotesLabel(n)) == Some(n as real)
    ensures VotesLabel(n) == "No votes" <==> n == 0
  {
    if n > 0 {
      var d := NatToString(n);
      DigitsValueOfNatToString(n);
      ParseFloatOfDigitsThen(d, " votes");
      assert IsDigit(VotesLabel(n)[0]);
    }
  }

  /** Different counts give different labels. */
  lemma VotesLabelInjective(a: nat, b: nat)
    requires VotesLabel(a) == VotesLabel(b)
    ensures a == b
  {
    VotesLabelReadsBack(a);
    VotesLabelReadsBack(b);
  }

  /** The two counts shown for the current round. */
  datatype CurrentStats = CurrentStats(storyPoints: string, timeEstimate: string)

  /** `getCurrentStats`: "Voting..." twice while nobody has voted; otherwise
      the number of votes with a non-empty story point and with a non-empty
      time estimate. */
  function GetCurrentStats(votes: seq<Vote>): (s: CurrentStats)
    ensures |votes| == 0 ==> s == CurrentStats("Voting...", "Voting...")
    ensures |votes| > 0 ==> s.storyPoints == VotesLabel(|StoryPointVotes(votes)|)
    ensures |votes| > 0 ==> s.timeEstimate == VotesLabel(|TimeVotes(votes)|)
  {
    if |votes| == 0 then CurrentStats("Voting...", "Voting...")
    else CurrentStats(VotesLabel(|StoryPointVotes(votes)|), VotesLabel(|TimeVotes(votes)|))
  }

  /** Votes whose story points are all empty are reported as "No votes",
      although someone has voted. */
  lemma EmptyStoryPointsCountAsNone(votes: seq<Vote>)
    requires |votes| > 0
    requires forall i :: 0 <= i < |votes| ==> votes[i].storyPoints.None? || votes[i].storyPoints == Some("")
    ensures GetCurrentStats(votes).storyPoints == "No votes"
  {
    PresentOfBlanks(StoryPointsOf(votes));
  }

  /** Only absent and empty values: nothing is kept. */
  lemma {:induction false} PresentOfBlanks(xs: seq<Option<string>>)
    requires forall i :: 0 <= i < |xs| ==> xs[i].None? || xs[i] == Some("")
    ensures Present(xs) == []
  {
    if |xs| > 0 {
      PresentOfBlanks(xs[1..]);
    }
  }

  /** The "Current Round" card: the time row only when the room votes on
      both. */
  datatype RoundCard = RoundCard(storyPoints: string, timeEstimate: Option<string>)

  function CurrentRoundCard(room: Room, votes: seq<Vote>): (c: RoundCard)
    ensures c.storyPoints == GetCurrentStats(votes).storyPoints
    ensures c.timeEstimate.Some? <==> room.dualVoting
    ensures c.timeEstimate.Some? ==> c.timeEstimate.value == GetCurrentStats(votes).timeEstimate
  {
    var s := GetCurrentStats(votes);
    RoundCard(s.storyPoints, if room.dualVoting then Some(s.timeEstimate) else None)
  }

  /** `flag ? yes : no`. */
  function BoolLabel(flag: bool, yes: string, no: string): (text: string)
    ensures flag ==> text == yes
    ensures !flag ==> text == no
  {
    if flag then yes else no
  }

  /** The room summary card: the voting type, the auto-reveal state, the
      number of participants and the voting system. */
  datatype SettingsCard = SettingsCard(votingType: string, autoReveal: string, participants: nat, system: string)

  function RoomSettingsCard(room: Room, participants: seq<Participant>): (c: SettingsCard)
    ensures c.votingType == "Dual Voting" <==> room.dualVoting
    ensures c.votingType == "Story Points Only" <==> !room.dualVoting
    ensures c.autoReveal == "Enabled" <==> room.autoReveal
    ensures c.autoReveal == "Disabled" <==> !room.autoReveal
    ensures c.participants == |participants| && c.system == room.votingSystem
  {
    SettingsCard(BoolLabel(room.dualVoting, "Dual Voting", "Story Points Only"),
                 BoolLabel(room.autoReveal, "Enabled", "Disabled"), |participants|, room.votingSystem)
  }
}
