/** The home page: the room settings form, turning it into a create-room
    request, the preset texts behind the system and unit pickers, and
    joining a room by id. */
module HomePage {
  import opened Wrappers
  import opened Seqs
  import opened JsText
  import opened Schema
  import opened Routes

  /** The settings form; value lists are comma-separated text. */
  datatype RoomSettings = RoomSettings(
    name: string,
    creatorName: string,
    voteForStoryPoints: bool,
    voteForTime: bool,
    storyPointsSystem: string,
    storyPointsValues: string,
    timeUnits: string,
    timeValues: string,
    autoReveal: bool)

  const InitialSettings := RoomSettings(
    "Planning Session", "Room Creator", true, true,
    "fibonacci", "1, 2, 3, 5, 8, 13, 21, ?",
    "hours", "1, 2, 4, 6, 8, 12, 16, 20, 24, 32, 40, ?",
    true)

  /** The texts the story points picker fills in. */
  const StorySystemTexts: map<string, string> := map[
    "fibonacci" := "1, 2, 3, 5, 8, 13, 21, ?",
    "modified_fibonacci" := "0, 1/2, 1, 2, 3, 5, 8, 13, 20, 40, 100, ?",
    "tshirt" := "XS, S, M, L, XL, XXL, ?",
    "powers_of_2" := "1, 2, 4, 8, 16, 32, ?",
    "linear" := "1, 2, 3, 4, 5, 6, 7, 8, 9, 10, ?"
  ]

  /** The texts the time unit picker fills in. */
  const TimeUnitTexts: map<string, string> := map[
    "minutes" := "5, 10, 15, 30, 45, 60, 90, 120, ?",
    "hours" := "1, 2, 4, 8, 12, 16, 20, 24, 32, 40, ?",
    "days" := "0.5, 1, 1.5, 2, 2.5, 3, 5, ?"
  ]

  /** `texts[value] || texts[fallback]`: every preset text is non-empty. */
  function PresetText(texts: map<string, string>, value: string, fallback: string): (r: string)
    requires fallback in texts
    ensures value in texts && texts[value] != "" ==> r == texts[value]
    ensures value !in texts ==> r == texts[fallback]
  {
    if value in texts && texts[value] != "" then texts[value] else texts[fallback]
  }

  // ---------------------------------------------------------------------
  // Comma lists

  /** Each piece trimmed. */
  function TrimAll(parts: seq<string>): (r: seq<string>)
    ensures |r| == |parts|
    ensures forall i :: 0 <= i < |parts| ==> r[i] == Trim(parts[i])
  {
    seq(|parts|, i requires 0 <= i < |parts| => Trim(parts[i]))
  }

  predicate NonEmpty(s: string) { s != "" }

  /** Trimming cannot introduce a character. */
  lemma TrimKeepsOut(s: string, c: char)
    requires c !in s
    ensures c !in Trim(s)
  {
    var r := Trim(s);
    var a := LeadingWhitespace(s);
    forall j | 0 <= j < |r| ensures r[j] != c {
      assert r[j] == s[a + j];
    }
  }

  /** `text.split(",").map(v => v.trim()).filter(v => v)`: the non-empty
      trimmed pieces between commas, in order. */
  function ParseValueList(text: string): (r: seq<string>)
    ensures forall v :: v in r ==> v != "" && IsTrimmed(v) && ',' !in v
    ensures forall v :: v in r <==> v != "" && v in TrimAll(Split(text, ','))
  {
    var pieces := Split(text, ',');
    TrimAllKeepsOut(pieces, ',');
    Filter(TrimAll(pieces), NonEmpty)
  }

  lemma TrimAllKeepsOut(pieces: seq<string>, c: char)
    requires forall i :: 0 <= i < |pieces| ==> c !in pieces[i]
    ensures forall v :: v in TrimAll(pieces) ==> c !in v
  {
    forall i | 0 <= i < |pieces| ensures c !in TrimAll(pieces)[i] {
      TrimKeepsOut(pieces[i], c);
    }
  }

  /** `vals` with a space before every element but the first. */
  function Spaced(vals: seq<string>): (r: seq<string>)
    requires |vals| > 0
    ensures |r| == |vals| && r[0] == vals[0]
    ensures forall i :: 1 <= i < |vals| ==> r[i] == " " + vals[i]
  {
    [vals[0]] + seq(|vals| - 1, i requires 0 <= i < |vals| - 1 => " " + vals[i + 1])
  }

  lemma JoinConsSpace(x: string, rest: seq<string>)
    ensures Join([" " + x] + rest, ",") == " " + Join([x] + rest, ",")
  {
    if |rest| > 0 {
      assert ([" " + x] + rest)[1..] == rest && ([x] + rest)[1..] == rest;
    }
  }

  /** Joining with ", " is joining the spaced elements with ",". */
  lemma {:induction false} JoinSpaced(vals: seq<string>)
    requires |vals| > 0
    ensures Join(vals, ", ") == Join(Spaced(vals), ",")
  {
    if |vals| > 1 {
      var tail := vals[1..];
      JoinSpaced(tail);
      var st := Spaced(tail);
      var s := Spaced(vals);
      assert s[1..] == [" " + st[0]] + st[1..];
      assert st == [st[0]] + st[1..];
      JoinConsSpace(st[0], st[1..]);
      assert Join(s, ",") == vals[0] + "," + Join(s[1..], ",");
      assert Join(vals, ", ") == vals[0] + ", " + Join(tail, ", ");
      assert vals[0] + ", " + Join(st, ",") == vals[0] + "," + (" " + Join(st, ","));
    }
  }

  /** The empty text parses to the empty list. */
  lemma ParseValueListOfEmpty()
    ensures ParseValueList("") == []
  {
    assert Split("", ',') == [""];
    assert TrimAll([""]) == [""];
  }

  lemma TrimAllSpaced(vals: seq<string>)
    requires |vals| > 0
    requires forall i :: 0 <= i < |vals| ==> IsTrimmed(vals[i])
    ensures TrimAll(Spaced(vals)) == vals
  {
    var s := Spaced(vals);
    forall i | 0 <= i < |s| ensures Trim(s[i]) == vals[i] {
      if i == 0 {
        TrimOfTrimmed(vals[0]);
      } else {
        TrimOfSpaced(vals[i]);
      }
    }
  }

  /** Parsing undoes joining with ", ": a list of non-empty, trimmed values
      without commas comes back unchanged. */
  lemma ParseValueListOfJoin(vals: seq<string>)
    requires forall i :: 0 <= i < |vals| ==> vals[i] != "" && IsTrimmed(vals[i]) && ',' !in vals[i]
    ensures ParseValueList(Join(vals, ", ")) == vals
  {
    if |vals| == 0 {
      ParseValueListOfEmpty();
    } else {
      var s := Spaced(vals);
      var text := Join(vals, ", ");
      JoinSpaced(vals);
      assert forall i :: 0 <= i < |s| ==> ',' !in s[i];
      SplitOfJoin(s, ',');
      assert Split(text, ',') == s;
      TrimAllSpaced(vals);
      FilterAll(vals, NonEmpty);
      assert Filter(TrimAll(Split(text, ',')), NonEmpty) == vals;
    }
  }

  // ---------------------------------------------------------------------
  // The create-room request

  /** `backendSettings`: a disabled dimension sends no values and a fixed
      default; dual voting means both dimensions are on. */
  function BackendSettings(s: RoomSettings): (b: RoomBody)
    ensures b.name == Some(s.name) && b.autoReveal == Some(s.autoReveal)
    ensures b.dualVoting == Some(s.voteForStoryPoints && s.voteForTime)
    ensures s.voteForStoryPoints ==> b.votingSystem == Some(s.storyPointsSystem)
                                     && b.storyPointValues == Some(ParseValueList(s.storyPointsValues))
    ensures !s.voteForStoryPoints ==> b.votingSystem == Some(DefaultVotingSystem) && b.storyPointValues == Some([])
    ensures s.voteForTime ==> b.timeUnits == Some(s.timeUnits) && b.timeValues == Some(ParseValueList(s.timeValues))
    ensures !s.voteForTime ==> b.timeUnits == Some(DefaultTimeUnits) && b.timeValues == Some([])
  {
    RoomBody(
      Some(s.name),
      Some(if s.voteForStoryPoints then s.storyPointsSystem else DefaultVotingSystem),
      Some(if s.voteForTime then s.timeUnits else DefaultTimeUnits),
      Some(s.voteForStoryPoints && s.voteForTime),
      Some(s.autoReveal),
      Some(if s.voteForStoryPoints then ParseValueList(s.storyPointsValues) else []),
      Some(if s.voteForTime then ParseValueList(s.timeValues) else []))
  }

  /** The room the server builds from the form: the client's lists are
      kept as sent, even when empty, so a room with story points switched
      off has no story point cards and is not dual; every value is a
      non-empty trimmed string; an empty name becomes the default. */
  lemma RoomFromSettings(s: RoomSettings, id: string)
    ensures var r := NewRoom(BackendSettings(s), id);
      && r.dualVoting == (s.voteForStoryPoints && s.voteForTime) && r.autoReveal == s.autoReveal
      && (s.voteForStoryPoints ==> r.storyPointValues == ParseValueList(s.storyPointsValues))
      && (!s.voteForStoryPoints ==> r.storyPointValues == [] && r.votingSystem == DefaultVotingSystem && !r.dualVoting)
      && (s.voteForTime ==> r.timeValues == ParseValueList(s.timeValues))
      && (!s.voteForTime ==> r.timeValues == [] && r.timeUnits == DefaultTimeUnits && !r.dualVoting)
      && (forall v :: v in r.storyPointValues + r.timeValues ==> v != "" && IsTrimmed(v))
      && (s.name == "" ==> r.name == DefaultRoomName)
  {
    var r := NewRoom(BackendSettings(s), id);
    forall v | v in r.storyPointValues + r.timeValues ensures v != "" && IsTrimmed(v) {
      assert v in r.storyPointValues || v in r.timeValues;
    }
  }

  // ---------------------------------------------------------------------
  // The page

  class HomePage {
    var settings: RoomSettings
    var joinRoomId: string
    var location: Option<string>
    /** The create-room requests sent, in order. */
    var createRequests: seq<RoomBody>

    constructor()
      ensures settings == InitialSettings && joinRoomId == "" && location == None && createRequests == []
    {
      settings := InitialSettings;
      joinRoomId := "";
      location := None;
      createRequests := [];
    }

    /** Picking a story points system fills in its preset values, or the
        Fibonacci ones for an unknown system. */
    method SelectStorySystem(value: string)
      modifies this
      ensures settings == old(settings).(storyPointsSystem := value,
                                         storyPointsValues := PresetText(StorySystemTexts, value, "fibonacci"))
      ensures joinRoomId == old(joinRoomId) && location == old(location) && createRequests == old(createRequests)
    {
      settings := settings.(storyPointsSystem := value, storyPointsValues := PresetText(StorySystemTexts, value, "fibonacci"));
    }

    /** Picking a time unit fills in its preset values, or the hours ones
        for an unknown unit. */
    method SelectTimeUnits(value: string)
      modifies this
      ensures settings == old(settings).(timeUnits := value, timeValues := PresetText(TimeUnitTexts, value, "hours"))
      ensures joinRoomId == old(joinRoomId) && location == old(location) && createRequests == old(createRequests)
    {
      settings := settings.(timeUnits := value, timeValues := PresetText(TimeUnitTexts, value, "hours"));
    }

    /** Typing in the room id field stores it upper-cased. */
    method EditJoinRoomId(text: string)
      modifies this
      ensures joinRoomId == ToUpper(text)
      ensures settings == old(settings) && location == old(location) && createRequests == old(createRequests)
    {
      joinRoomId := ToUpper(text);
    }

    /** The create button sends the mapped settings. */
    method CreateRoom()
      modifies this
      ensures createRequests == old(createRequests) + [BackendSettings(settings)]
      ensures settings == old(settings) && joinRoomId == old(joinRoomId) && location == old(location)
    {
      createRequests := createRequests + [BackendSettings(settings)];
    }

    /** `handleJoinRoom`: a blank id goes nowhere; otherwise the page moves
        to the room path of the upper-cased, untrimmed id. */
    method HandleJoinRoom()
      modifies this
      ensures Trim(joinRoomId) == "" ==> location == old(location)
      ensures Trim(joinRoomId) != "" ==> location == Some("/room/" + ToUpper(joinRoomId))
      ensures settings == old(settings) && joinRoomId == old(joinRoomId) && createRequests == old(createRequests)
    {
      if Trim(joinRoomId) == "" {
        return;
      }
      location := Some("/room/" + ToUpper(joinRoomId));
    }
  }

  /** A room id with surrounding spaces is not blank, and its spaces stay
      in the path. */
  lemma JoinPathKeepsSpaces()
    ensures Trim(" ab ") != "" && "/room/" + ToUpper(" ab ") == "/room/ AB "
  {
    assert LeadingWhitespace(" ab ") == 1;
    assert Trim(" ab ")[0] == 'a';
  }
}
