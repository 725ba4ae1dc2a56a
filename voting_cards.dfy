/** The voting cards: one card per story point value and, when the room
    votes on both, one per time value; choosing a card submits a vote that
    keeps the viewer's choice on the other dimension. */
module VotingCards {
  import opened Wrappers
  import opened Schema
  import opened Storage

  /** The two arguments handed to `onVote`. */
  datatype VoteIntent = VoteIntent(storyPoints: Option<string>, timeEstimate: Option<string>)

  /** `handleStoryPointSelect`: the chosen value with the viewer's current
      time estimate. */
  function SelectStoryPoint(currentVote: Option<Vote>, value: string): (i: VoteIntent)
    ensures i.storyPoints == Some(value)
    ensures i.timeEstimate == VoteTimeEstimate(currentVote)
  {
    VoteIntent(Some(value), VoteTimeEstimate(currentVote))
  }

  /** `handleTimeEstimateSelect`: the viewer's current story points with
      the chosen value. */
  function SelectTimeEstimate(currentVote: Option<Vote>, value: string): (i: VoteIntent)
    ensures i.storyPoints == VoteStoryPoints(currentVote)
    ensures i.timeEstimate == Some(value)
  {
    VoteIntent(VoteStoryPoints(currentVote), Some(value))
  }

  /** The vote a submission stores over the viewer's current vote. */
  function Submit(current: Vote, i: VoteIntent, now: Timestamp): Vote {
    MergeVote(current, InsertVote(current.roomId, current.participantId, current.round, i.storyPoints, i.timeEstimate), now)
  }

  /** Choosing a story point replaces only the story point: the stored time
      estimate stays, and the chosen card is highlighted afterwards. */
  lemma StoryChoiceKeepsTime(room: Room, current: Vote, k: nat, isRevealed: bool, now: Timestamp)
    requires k < |room.storyPointValues|
    ensures var v := Submit(current, SelectStoryPoint(Some(current), room.storyPointValues[k]), now);
            && v.storyPoints == Some(room.storyPointValues[k]) && v.timeEstimate == current.timeEstimate
            && StoryCards(room, Some(v), isRevealed)[k].selected
  {
  }

  /** Choosing a time estimate replaces only the time estimate. */
  lemma TimeChoiceKeepsStory(room: Room, current: Vote, k: nat, isRevealed: bool, now: Timestamp)
    requires room.dualVoting && k < |room.timeValues|
    ensures var v := Submit(current, SelectTimeEstimate(Some(current), room.timeValues[k]), now);
            && v.timeEstimate == Some(room.timeValues[k]) && v.storyPoints == current.storyPoints
            && TimeCards(room, Some(v), isRevealed).value[k].selected
  {
  }

  /** `${room.timeUnits[0]}`: the unit's initial, or "undefined" for an
      empty unit name. */
  function UnitInitial(units: string): (r: string)
    ensures |units| > 0 ==> r == [units[0]]
    ensures |units| == 0 ==> r == "undefined"
  {
    if |units| > 0 then [units[0]] else "undefined"
  }

  /** The text on a time card: "?" stays "?", any other value is followed
      by the unit's initial. */
  function TimeLabel(value: string, units: string): (text: string)
    ensures value == "?" ==> text == "?"
    ensures value != "?" ==> text == value + UnitInitial(units)
  {
    if value == "?" then "?" else value + UnitInitial(units)
  }

  /** Distinct time values get distinct labels, as long as the unit's name
      does not start with '?'. */
  lemma TimeLabelInjective(a: string, b: string, units: string)
    requires |units| == 0 || units[0] != '?'
    requires TimeLabel(a, units) == TimeLabel(b, units)
    ensures a == b
  {
    if a != "?" && b != "?" {
      assert a == TimeLabel(a, units)[..|a|];
      assert b == TimeLabel(b, units)[..|b|];
    } else if a != "?" {
      LabelOfNumber(a, units);
    } else if b != "?" {
      LabelOfNumber(b, units);
    }
  }

  /** Only the "?" card is labelled "?". */
  lemma LabelOfNumber(w: string, units: string)
    requires w != "?" && (|units| == 0 || units[0] != '?')
    ensures TimeLabel(w, units) != "?"
  {
    var u := UnitInitial(units);
    if |w| == 0 {
      assert w + u == u;
    } else {
      assert |w + u| >= 2;
    }
  }

  lemma TimeLabelExamples()
    ensures TimeLabel("8", "hours") == "8h" && TimeLabel("0.5", "days") == "0.5d"
    ensures TimeLabel("?", "hours") == "?" && TimeLabel("8", "") == "8undefined"
  {
  }

  // ---------------------------------------------------------------------
  // Cards

  /** One card: its value, the text shown, whether it is highlighted and
      whether it can be chosen. */
  datatype Card = Card(value: string, caption: string, selected: bool, disabled: bool)

  /** The story point cards, in the room's order: a card is highlighted
      exactly when the viewer's story point is its value, and every card is
      disabled once the round is revealed. */
  function StoryCards(room: Room, currentVote: Option<Vote>, isRevealed: bool): (cards: seq<Card>)
    ensures |cards| == |room.storyPointValues|
    ensures forall k :: 0 <= k < |cards| ==>
              var value := room.storyPointValues[k];
              && cards[k].value == value && cards[k].caption == value && cards[k].disabled == isRevealed
              && (cards[k].selected <==> VoteStoryPoints(currentVote) == Some(value))
  {
    seq(|room.storyPointValues|, k requires 0 <= k < |room.storyPointValues| =>
      var value := room.storyPointValues[k];
      Card(value, value, VoteStoryPoints(currentVote) == Some(value), isRevealed))
  }

  /** The time cards, only when the room votes on both; labelled with the
      unit's initial and highlighted as the story point cards are. */
  function TimeCards(room: Room, currentVote: Option<Vote>, isRevealed: bool): (cards: Option<seq<Card>>)
    ensures cards.Some? <==> room.dualVoting
    ensures cards.Some? ==> |cards.value| == |room.timeValues|
    ensures cards.Some? ==> forall k :: 0 <= k < |room.timeValues| ==>
              var value := room.timeValues[k];
              && cards.value[k].value == value && cards.value[k].caption == TimeLabel(value, room.timeUnits)
              && cards.value[k].disabled == isRevealed
              && (cards.value[k].selected <==> VoteTimeEstimate(currentVote) == Some(value))
  {
    if !room.dualVoting then None
    else
      Some(seq(|room.timeValues|, k requires 0 <= k < |room.timeValues| =>
        var value := room.timeValues[k];
        Card(value, TimeLabel(value, room.timeUnits), VoteTimeEstimate(currentVote) == Some(value), isRevealed)))
  }

  predicate Distinct(values: seq<string>) {
    forall a, b :: 0 <= a < b < |values| ==> values[a] != values[b]
  }

  /** With distinct values at most one card is highlighted, and one is
      exactly when the viewer's value is among them. */
  lemma AtMostOneStoryCardSelected(room: Room, currentVote: Option<Vote>, isRevealed: bool)
    requires Distinct(room.storyPointValues)
    ensures var cards := StoryCards(room, currentVote, isRevealed);
            && (forall a, b :: 0 <= a < b < |cards| ==> !(cards[a].selected && cards[b].selected))
            && ((exists k :: 0 <= k < |cards| && cards[k].selected) <==>
                  VoteStoryPoints(currentVote).Some? && VoteStoryPoints(currentVote).value in room.storyPointValues)
  {
    var cards := StoryCards(room, currentVote, isRevealed);
    if VoteStoryPoints(currentVote).Some? && VoteStoryPoints(currentVote).value in room.storyPointValues {
      var k :| 0 <= k < |room.storyPointValues| && room.storyPointValues[k] == VoteStoryPoints(currentVote).value;
      assert cards[k].selected;
    }
  }

  /** The same for the time cards. */
  lemma AtMostOneTimeCardSelected(room: Room, currentVote: Option<Vote>, isRevealed: bool)
    requires room.dualVoting && Distinct(room.timeValues)
    ensures var cards := TimeCards(room, currentVote, isRevealed).value;
            && (forall a, b :: 0 <= a < b < |cards| ==> !(cards[a].selected && cards[b].selected))
            && ((exists k :: 0 <= k < |cards| && cards[k].selected) <==>
                  VoteTimeEstimate(currentVote).Some? && VoteTimeEstimate(currentVote).value in room.timeValues)
  {
    var cards := TimeCards(room, currentVote, isRevealed).value;
    if VoteTimeEstimate(currentVote).Some? && VoteTimeEstimate(currentVote).value in room.timeValues {
      var k :| 0 <= k < |room.timeValues| && room.timeValues[k] == VoteTimeEstimate(currentVote).value;
      assert cards[k].selected;
    }
  }
}
