/** The participants panel: each participant's initials, avatar colour and
    vote badges, and the revealed statistics under the roster. */
module ParticipantsPanel {
  import opened Wrappers
  import opened Seqs
  import opened JsText
  import opened Schema
  import opened Aggregation

  // ---------------------------------------------------------------------
  // Statistics

  /** What a statistics row shows: three dashes, or an average, a minimum
      and a maximum of the numeric readings. */
  datatype Stats = NoStats | Stats(avg: real, min: real, max: real)

  /** Every value's reading occurs among the readings. */
  lemma ReadingsOfValues(values: seq<string>)
    ensures forall v :: v in values ==> ParseVoteValue(v) in Values(values)
  {
    forall v | v in values ensures ParseVoteValue(v) in Values(values) {
      var i :| 0 <= i < |values| && values[i] == v;
      assert Values(values)[i] == ParseVoteValue(v);
    }
  }

  /** `calculateStats`: dashes unless the round is revealed and some value
      reads as a positive number; otherwise the average, minimum and maximum
      of the positive readings, so values reading as 0 ("?", words) are
      skipped. The panel reads values the way the server does. */
  function CalculateStats(values: seq<string>, isRevealed: bool): (r: Stats)
    ensures r.NoStats? <==> |values| == 0 || !isRevealed || forall v :: v in values ==> ParseVoteValue(v) <= 0.0
    ensures r.Stats? ==> 0.0 < r.min <= r.avg <= r.max
    ensures r.Stats? ==> r.min in Values(values) && r.max in Values(values)
    ensures r.Stats? ==> forall v :: v in values && ParseVoteValue(v) > 0.0 ==> r.min <= ParseVoteValue(v) <= r.max
    ensures r.Stats? ==> CalculateAverage(values) == OneDecimal(r.avg)
  {
    if |values| == 0 || !isRevealed then NoStats
    else
      var p := Positives(Values(values));
      ReadingsOfValues(values);
      if |p| == 0 then NoStats
      else
        MeanBounds(p, MinOf(p), MaxOf(p));
        assert p[0] in p;
        Stats(Mean(p), MinOf(p), MaxOf(p))
  }

  /** The statistics under the roster: story points always, time only when
      the room votes on both. Only present, non-empty values are read. */
  datatype StatsView = StatsView(story: Stats, time: Option<Stats>)

  function VotingStatistics(votes: seq<Vote>, isRevealed: bool, dualVoting: bool): (s: StatsView)
    ensures s.story == CalculateStats(StoryPointVotes(votes), isRevealed)
    ensures s.time.Some? <==> dualVoting
    ensures s.time.Some? ==> s.time.value == CalculateStats(TimeVotes(votes), isRevealed)
  {
    StatsView(CalculateStats(StoryPointVotes(votes), isRevealed),
              if dualVoting then Some(CalculateStats(TimeVotes(votes), isRevealed)) else None)
  }

  /** The panel's minimum skips the unknown card, while the archived
      minimum of the same round counts it as 0. */
  lemma PanelMinSkipsUnknown()
    ensures CalculateStats(["?", "3"], true) == Stats(3.0, 3.0, 3.0)
    ensures MinOf(Values(["?", "3"])) == 0.0
  {
    ParseVoteValueOfInt(3);
    assert IntToString(3) == "3";
    var xs := Values(["?", "3"]);
    assert xs == [0.0, 3.0];
    assert xs[1..] == [3.0];
    assert Positives(xs) == [3.0];
    assert Sum([3.0]) == 3.0;
  }

  // ---------------------------------------------------------------------
  // Initials

  predicate IsWord(w: string) { w != "" }

  /** `words.map(w => w[0]).join("")`: an empty word yields `undefined`,
      which joins as nothing, so this is the first character of every
      non-empty word, in order. */
  function FirstChars(words: seq<string>): (r: string)
    ensures var ws := Filter(words, IsWord);
            |r| == |ws| && forall i :: 0 <= i < |r| ==> |ws[i]| > 0 && r[i] == ws[i][0]
  {
    if |words| == 0 then ""
    else (if words[0] == "" then "" else [words[0][0]]) + FirstChars(words[1..])
  }

  /** `getParticipantInitials`: the upper-cased first characters of the
      first two space-separated words. */
  function Initials(name: string): (r: string)
    ensures var ws := Filter(Split(name, ' '), IsWord);
            |r| == (if |ws| < 2 then |ws| else 2)
            && forall i :: 0 <= i < |r| ==> |ws[i]| > 0 && r[i] == UpperChar(ws[i][0])
  {
    var s := ToUpper(FirstChars(Split(name, ' ')));
    if |s| <= 2 then s else s[..2]
  }

  /** Two words give their two capitals. */
  lemma InitialsOfTwoWords(a: string, b: string)
    requires a != "" && b != "" && ' ' !in a && ' ' !in b
    ensures Initials(a + " " + b) == [UpperChar(a[0]), UpperChar(b[0])]
  {
    var ws := [a, b];
    assert ws[1..] == [b];
    assert Join(ws, " ") == a + " " + b;
    SplitOfJoin(ws, ' ');
    FilterAll(ws, IsWord);
  }

  /** A blank name has no initials. */
  lemma InitialsOfEmptyName()
    ensures Initials("") == ""
  {
    assert Split("", ' ') == [""];
    assert Filter([""], IsWord) == [];
  }

  // ---------------------------------------------------------------------
  // Avatar colours

  const Colors: seq<string> := ["bg-blue-500", "bg-purple-500", "bg-emerald-500", "bg-orange-500",
                                "bg-pink-500", "bg-indigo-500", "bg-teal-500", "bg-red-500"]

  /** `getParticipantColor`: the colour of a roster position. */
  function ParticipantColor(index: nat): (c: string)
    ensures c in Colors
  {
    Colors[index % |Colors|]
  }

  /** The colours repeat every eight positions. */
  lemma ColorCycles(index: nat)
    ensures ParticipantColor(index + 8) == ParticipantColor(index)
  {
    assert (index + 8) % 8 == index % 8;
  }

  /** Within any eight consecutive positions the colours are all different. */
  lemma NearbyColorsDiffer(i: nat, j: nat)
    requires i < j < i + 8
    ensures ParticipantColor(i) != ParticipantColor(j)
  {
    assert i % 8 != j % 8;
    assert forall x, y :: 0 <= x < y < 8 ==> Colors[x] != Colors[y];
  }

  // ---------------------------------------------------------------------
  // Vote badges

  /** A vote badge: the value itself, a check mark, or a clock. */
  datatype Badge = Shows(value: string) | Check | Clock

  /** A dimension counts as voted when its value is present, even an empty
      one; the value itself is shown only once the round is revealed. */
  function VoteBadge(value: Option<string>, isRevealed: bool): (b: Badge)
    ensures b == Clock <==> value.None?
    ensures b.Shows? <==> value.Some? && isRevealed
    ensures b.Shows? ==> b.value == value.value
  {
    if isRevealed && value.Some? then Shows(value.value)
    else if value.Some? then Check
    else Clock
  }

  /** One roster entry as the panel draws it. */
  datatype Row = Row(initials: string, color: string, name: string, isCreator: bool, story: Badge, time: Option<Badge>)

  /** The roster, in order: position `i` gets the `i`-th colour, and the
      badges come from the participant's first vote; the time badge only
      when the room votes on both. */
  function Rows(participants: seq<Participant>, votes: seq<Vote>, dualVoting: bool, isRevealed: bool): (rows: seq<Row>)
    ensures |rows| == |participants|
    ensures forall i :: 0 <= i < |rows| ==>
              var p := participants[i];
              var v := FindVote(votes, p.id);
              && rows[i].initials == Initials(p.name) && rows[i].color == ParticipantColor(i)
              && rows[i].name == p.name && rows[i].isCreator == p.isCreator
              && rows[i].story == VoteBadge(VoteStoryPoints(v), isRevealed)
              && (rows[i].time.Some? <==> dualVoting)
              && (dualVoting ==> rows[i].time == Some(VoteBadge(VoteTimeEstimate(v), isRevealed)))
  {
    seq(|participants|, i requires 0 <= i < |participants| =>
      var p := participants[i];
      var v := FindVote(votes, p.id);
      Row(Initials(p.name), ParticipantColor(i), p.name, p.isCreator,
          VoteBadge(VoteStoryPoints(v), isRevealed),
          if dualVoting then Some(VoteBadge(VoteTimeEstimate(v), isRevealed)) else None))
  }

  /** Before the reveal no badge shows a value. */
  lemma HiddenUntilRevealed(participants: seq<Participant>, votes: seq<Vote>, dualVoting: bool, i: nat)
    requires i < |participants|
    ensures var r := Rows(participants, votes, dualVoting, false)[i];
            !r.story.Shows? && (r.time.Some? ==> !r.time.value.Shows?)
  {
  }
}
