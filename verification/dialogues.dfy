/**
 * The authored dialogue of the game and its lookup (chichi/src/data/dialogues.js).
 *
 * The data is a four-level record: act -> scene -> character -> interaction id
 * -> array of lines.  The one exception is the closing letter, stored one level
 * higher as a plain string (act3.letter.content); its text is not modelled.
 */
module Dialogues {
  import opened Wrappers

  /** A choice offered by a line (never used by the authored lines). */
  datatype Choice = Choice(id: string, text: string)

  /**
   * One authored line.  Optional fields that a line leaves out are `None`,
   * and a missing `isAction` / `isNarration` reads as false.
   */
  datatype Line = Line(
    speaker: string,
    text: string,
    emotion: Option<string>,
    isAction: bool,
    isNarration: bool,
    choices: Option<seq<Choice>>)

  /** What sits under a character key: its interactions, or the letter's string. */
  datatype Entry = Interactions(sequences: map<string, seq<Line>>) | LetterText

  type SceneTable = map<string, Entry>
  type ActTable = map<string, SceneTable>
  type Book = map<string, ActTable>

  // ---------------------------------------------------------------
  // Act 1: the land of love
  // ---------------------------------------------------------------

  const WakeUp: seq<Line> := [
    Line("Chichi", "...", Some("sleepy"), false, false, None),
    Line("Chichi", "I had that nightmare again...", Some("sad"), false, false, None),
    Line("Chichi", "I miss him.", Some("longing"), false, false, None)
  ]

  const BlockDoor: seq<Line> := [
    Line("Bat", "Hi Chichi! \U{1F987}", Some("happy"), false, false, None),
    Line("Bat", "You can't leave yet.", Some("concerned"), false, false, None),
    Line("Bat", "It's dangerous outside alone.", Some("worried"), false, false, None)
  ]

  const AfterCatAppears: seq<Line> := [
    Line("Bat", "Oh! You have a friend with you!", Some("surprised"), false, false, None),
    Line("Bat", "Well then... take care of her, little spirit! \U{1F495}", Some("happy"), false, false, None),
    Line("Bat", "*flies away with a smile*", Some("happy"), true, false, None)
  ]

  const NoticeCat: seq<Line> := [
    Line("Chichi", "!", Some("surprised"), false, false, None),
    Line("Chichi", "Oh you! I didn't notice you!", Some("surprised"), false, false, None),
    Line("Chichi", "Bonjour monsieur pussycat.", Some("affectionate"), false, false, None)
  ]

  const DeliceIntroduction: seq<Line> := [
    Line("Delice", "*purrs softly* \U{2728}", Some("calm"), true, false, None),
    Line("Delice", "I am always with you.", Some("wise"), false, false, None),
    Line("Delice", "Let's go find him.", Some("determined"), false, false, None)
  ]

  const DoorDescription: seq<Line> := [
    Line("Narrator", "The door glows softly and unlocks...", None, false, true, None),
    Line("Narrator", "The journey to find Nienie begins.", None, false, true, None)
  ]

  /** ACT1_DIALOGUES, the `act1` subtree. */
  const Act1Dialogues: ActTable := map[
    "opening" := map["chichi" := Interactions(map["wakeUp" := WakeUp])],
    "batEncounter" := map["bat" := Interactions(map["blockDoor" := BlockDoor,
                                                    "afterCatAppears" := AfterCatAppears])],
    "catEncounter" := map["chichi" := Interactions(map["noticeCat" := NoticeCat]),
                          "delice" := Interactions(map["introduction" := DeliceIntroduction])],
    "doorUnlocked" := map["narrator" := Interactions(map["description" := DoorDescription])]
  ]

  // ---------------------------------------------------------------
  // Act 2: the void
  // ---------------------------------------------------------------

  const EnteringDescription: seq<Line> := [
    Line("Narrator", "The world splits in two...", None, false, true, None),
    Line("Narrator", "Colors on one side, darkness on the other.", None, false, true, None)
  ]

  const EnteringReaction: seq<Line> := [
    Line("Chichi", "I can see him... he's right there!", Some("hopeful"), false, false, None),
    Line("Chichi", "Nienie!", Some("calling"), false, false, None)
  ]

  const DistanceDescription: seq<Line> := [
    Line("Narrator", "An invisible force blocks the way...", None, false, true, None),
    Line("Narrator", "THE DISTANCE stands between two hearts.", None, false, true, None)
  ]

  const DistanceReaction: seq<Line> := [
    Line("Chichi", "No... I can't get through!", Some("frustrated"), false, false, None),
    Line("Chichi", "There has to be a way...", Some("determined"), false, false, None)
  ]

  const DistanceHint: seq<Line> := [
    Line("Delice", "*glows mysteriously*", Some("mystical"), true, false, None),
    Line("Delice", "Connect your hearts.", Some("wise"), false, false, None),
    Line("Delice", "Love always finds a path.", Some("encouraging"), false, false, None)
  ]

  const PuzzleStartDescription: seq<Line> := [
    Line("Narrator", "A puzzle materializes before you...", None, false, true, None),
    Line("Narrator", "Connect the path from Chichi's heart to Nienie's.", None, false, true, None)
  ]

  const PuzzleSolvedDescription: seq<Line> := [
    Line("Narrator", "The connection is made!", None, false, true, None),
    Line("Narrator", "Darkness fades... Sunrise breaks through.", None, false, true, None)
  ]

  const PuzzleSolvedReaction: seq<Line> := [
    Line("Chichi", "The wall... it's gone!", Some("joyful"), false, false, None),
    Line("Chichi", "I'm coming, Nienie!", Some("determined"), false, false, None)
  ]

  /** ACT2_DIALOGUES, the `act2` subtree. */
  const Act2Dialogues: ActTable := map[
    "entering" := map["narrator" := Interactions(map["description" := EnteringDescription]),
                      "chichi" := Interactions(map["reaction" := EnteringReaction])],
    "theDistance" := map["narrator" := Interactions(map["description" := DistanceDescription]),
                         "chichi" := Interactions(map["reaction" := DistanceReaction]),
                         "delice" := Interactions(map["hint" := DistanceHint])],
    "puzzleStart" := map["narrator" := Interactions(map["description" := PuzzleStartDescription])],
    "puzzleSolved" := map["narrator" := Interactions(map["description" := PuzzleSolvedDescription]),
                          "chichi" := Interactions(map["reaction" := PuzzleSolvedReaction])]
  ]

  // ---------------------------------------------------------------
  // Act 3: the reunion
  // ---------------------------------------------------------------

  const ArrivalDescription: seq<Line> := [
    Line("Narrator", "The sound of waves fills the air...", None, false, true, None),
    Line("Narrator", "A peaceful beach stretches before you.", None, false, true, None),
    Line("Narrator", "Spring colors bloom everywhere.", None, false, true, None)
  ]

  const ApproachReaction: seq<Line> := [
    Line("Chichi", "There he is...", Some("emotional"), false, false, None),
    Line("Chichi", "He's sleeping... in jeans again \U{1F602}", Some("amused"), false, false, None)
  ]

  const ReunionWakeUp: seq<Line> := [
    Line("Nienie", "...", Some("sleepy"), false, false, None),
    Line("Nienie", "Chichi...? Is this a dream?", Some("confused"), false, false, None),
    Line("Nienie", "You're really here!", Some("overjoyed"), false, false, None)
  ]

  const ReunionResponse: seq<Line> := [
    Line("Chichi", "I traveled through worlds to find you.", Some("emotional"), false, false, None),
    Line("Chichi", "No distance can keep us apart.", Some("loving"), false, false, None)
  ]

  const ReunionEnding: seq<Line> := [
    Line("Both", "Happy 2nd Anniversary! \U{1F495}", Some("joyful"), false, false, None)
  ]

  /** ACT3_DIALOGUES, the `act3` subtree. */
  const Act3Dialogues: ActTable := map[
    "arrival" := map["narrator" := Interactions(map["description" := ArrivalDescription])],
    "approach" := map["chichi" := Interactions(map["reaction" := ApproachReaction])],
    "reunion" := map["nienie" := Interactions(map["wakeUp" := ReunionWakeUp]),
                     "chichi" := Interactions(map["response" := ReunionResponse]),
                     "together" := Interactions(map["ending" := ReunionEnding])],
    "letter" := map["content" := LetterText]
  ]

  /** The whole `dialogues` record. */
  const AllDialogues: Book := map[
    "act1" := Act1Dialogues,
    "act2" := Act2Dialogues,
    "act3" := Act3Dialogues
  ]

  // ---------------------------------------------------------------
  // Lookup
  // ---------------------------------------------------------------

  /** All four keys lead to an authored array of lines. */
  predicate HasSequence(act: string, scene: string, character: string, id: string) {
    && act in AllDialogues
    && scene in AllDialogues[act]
    && character in AllDialogues[act][scene]
    && AllDialogues[act][scene][character].Interactions?
    && id in AllDialogues[act][scene][character].sequences
  }

  /** The authored array at a path that exists. */
  function Authored(act: string, scene: string, character: string, id: string): seq<Line>
    requires HasSequence(act, scene, character, id)
  {
    AllDialogues[act][scene][character].sequences[id]
  }

  /**
   * The outcome of `getDialogue`: the lines returned, and whether the
   * "Dialogue not found" warning was logged.
   */
  datatype Lookup = Lookup(lines: seq<Line>, warned: bool)

  /**
   * getDialogue(act, scene, character, interactionId).  A missing act, scene
   * or character makes the chained property access throw, which the handler
   * turns into a warning and `[]`; a missing interaction id (or indexing the
   * letter's string) yields `undefined`, which `|| []` turns into `[]` without
   * a warning.  Nothing escapes as an exception.
   */
  function GetDialogue(act: string, scene: string, character: string, id: string): (r: Lookup)
    ensures HasSequence(act, scene, character, id) ==>
              r == Lookup(Authored(act, scene, character, id), false)
    ensures !HasSequence(act, scene, character, id) ==> r.lines == []
    ensures r.warned <==> !(act in AllDialogues && scene in AllDialogues[act]
                            && character in AllDialogues[act][scene])
  {
    if act !in AllDialogues || scene !in AllDialogues[act]
       || character !in AllDialogues[act][scene] then
      Lookup([], true)
    else
      match AllDialogues[act][scene][character]
      case Interactions(sequences) =>
        Lookup(if id in sequences then sequences[id] else [], false)
      case LetterText =>
        Lookup([], false)
  }

  // ---------------------------------------------------------------
  // Properties of the authored data
  // ---------------------------------------------------------------

  /** Every line names a speaker and says something; narration is the Narrator's. */
  predicate WellFormedLine(l: Line) {
    && l.speaker != ""
    && l.text != ""
    && (l.isNarration ==> l.speaker == "Narrator")
    && l.choices.None?
  }

  predicate WellFormedSequence(ls: seq<Line>) {
    forall k :: 0 <= k < |ls| ==> WellFormedLine(ls[k])
  }

  /** The six act-1 arrays are well formed, with two or three lines each. */
  lemma Act1SequencesWellFormed()
    ensures WellFormedSequence(WakeUp) && WellFormedSequence(BlockDoor)
    ensures WellFormedSequence(AfterCatAppears) && WellFormedSequence(NoticeCat)
    ensures WellFormedSequence(DeliceIntroduction) && WellFormedSequence(DoorDescription)
  {
  }

  /** The eight act-2 arrays are well formed. */
  lemma Act2SequencesWellFormed()
    ensures WellFormedSequence(EnteringDescription) && WellFormedSequence(EnteringReaction)
    ensures WellFormedSequence(DistanceDescription) && WellFormedSequence(DistanceReaction)
    ensures WellFormedSequence(DistanceHint) && WellFormedSequence(PuzzleStartDescription)
    ensures WellFormedSequence(PuzzleSolvedDescription) && WellFormedSequence(PuzzleSolvedReaction)
  {
  }

  /** The five act-3 arrays are well formed. */
  lemma Act3SequencesWellFormed()
    ensures WellFormedSequence(ArrivalDescription) && WellFormedSequence(ApproachReaction)
    ensures WellFormedSequence(ReunionWakeUp) && WellFormedSequence(ReunionResponse)
    ensures WellFormedSequence(ReunionEnding)
  {
  }

  /** Every act-1 path leads to one of its six named arrays. */
  lemma Act1Authored(scene: string, character: string, id: string)
    requires HasSequence("act1", scene, character, id)
    ensures var ls := Authored("act1", scene, character, id);
            ls == WakeUp || ls == BlockDoor || ls == AfterCatAppears
            || ls == NoticeCat || ls == DeliceIntroduction || ls == DoorDescription
  {
    var t := AllDialogues["act1"];
    assert t == Act1Dialogues;
    if scene == "opening" {
      assert t[scene] == map["chichi" := Interactions(map["wakeUp" := WakeUp])];
    } else if scene == "batEncounter" {
      assert t[scene]["bat"].sequences.Keys == {"blockDoor", "afterCatAppears"};
    } else if scene == "catEncounter" {
      assert t[scene].Keys == {"chichi", "delice"};
    } else {
      assert scene == "doorUnlocked";
    }
  }

  /** Every act-2 path leads to one of its eight named arrays. */
  lemma Act2Authored(scene: string, character: string, id: string)
    requires HasSequence("act2", scene, character, id)
    ensures var ls := Authored("act2", scene, character, id);
            ls == EnteringDescription || ls == EnteringReaction
            || ls == DistanceDescription || ls == DistanceReaction || ls == DistanceHint
            || ls == PuzzleStartDescription
            || ls == PuzzleSolvedDescription || ls == PuzzleSolvedReaction
  {
    var t := AllDialogues["act2"];
    assert t == Act2Dialogues;
    if scene == "entering" {
      assert t[scene].Keys == {"narrator", "chichi"};
    } else if scene == "theDistance" {
      assert t[scene].Keys == {"narrator", "chichi", "delice"};
    } else {
      assert scene == "puzzleStart" || scene == "puzzleSolved";
    }
  }

  /** Every act-3 path leads to one of its five named arrays. */
  lemma Act3Authored(scene: string, character: string, id: string)
    requires HasSequence("act3", scene, character, id)
    ensures var ls := Authored("act3", scene, character, id);
            ls == ArrivalDescription || ls == ApproachReaction
            || ls == ReunionWakeUp || ls == ReunionResponse || ls == ReunionEnding
  {
    var t := AllDialogues["act3"];
    assert t == Act3Dialogues;
    if scene == "reunion" {
      assert t[scene].Keys == {"nienie", "chichi", "together"};
    } else {
      assert scene == "arrival" || scene == "approach";
    }
  }

  /** Every act-1 array the scene plays is well formed and has two or three lines. */
  lemma Act1WellFormed(scene: string, character: string, id: string)
    requires HasSequence("act1", scene, character, id)
    ensures WellFormedSequence(Authored("act1", scene, character, id))
    ensures 2 <= |Authored("act1", scene, character, id)| <= 3
  {
    Act1Authored(scene, character, id);
    Act1SequencesWellFormed();
  }

  /**
   * Whatever keys it is given, getDialogue returns only well-formed lines
   * and never a line that offers choices.
   */
  lemma GetDialogueWellFormed(act: string, scene: string, character: string, id: string)
    ensures WellFormedSequence(GetDialogue(act, scene, character, id).lines)
  {
    if HasSequence(act, scene, character, id) {
      if act == "act1" {
        Act1WellFormed(scene, character, id);
      } else if act == "act2" {
        Act2Authored(scene, character, id);
        Act2SequencesWellFormed();
      } else {
        Act3Authored(scene, character, id);
        Act3SequencesWellFormed();
      }
    }
  }

  /**
   * The arrays the act-1 scene plays, reached by direct property access on
   * ACT1_DIALOGUES, are what getDialogue returns for the same keys.
   */
  lemma SceneArraysAreAuthored()
    ensures GetDialogue("act1", "opening", "chichi", "wakeUp") == Lookup(WakeUp, false)
    ensures GetDialogue("act1", "batEncounter", "bat", "blockDoor") == Lookup(BlockDoor, false)
    ensures GetDialogue("act1", "batEncounter", "bat", "afterCatAppears") == Lookup(AfterCatAppears, false)
    ensures GetDialogue("act1", "catEncounter", "chichi", "noticeCat") == Lookup(NoticeCat, false)
    ensures GetDialogue("act1", "catEncounter", "delice", "introduction") == Lookup(DeliceIntroduction, false)
    ensures GetDialogue("act1", "doorUnlocked", "narrator", "description") == Lookup(DoorDescription, false)
  {
    var t := AllDialogues["act1"];
    assert t == Act1Dialogues;
    assert t["opening"]["chichi"] == Interactions(map["wakeUp" := WakeUp]);
    assert t["batEncounter"]["bat"]
        == Interactions(map["blockDoor" := BlockDoor, "afterCatAppears" := AfterCatAppears]);
    assert t["catEncounter"]["chichi"] == Interactions(map["noticeCat" := NoticeCat]);
    assert t["catEncounter"]["delice"] == Interactions(map["introduction" := DeliceIntroduction]);
    assert t["doorUnlocked"]["narrator"] == Interactions(map["description" := DoorDescription]);
  }

  /** The exported aliases are exactly the three act subtrees. */
  lemma AliasesAreSubtrees()
    ensures AllDialogues.Keys == {"act1", "act2", "act3"}
    ensures AllDialogues["act1"] == Act1Dialogues
    ensures AllDialogues["act2"] == Act2Dialogues
    ensures AllDialogues["act3"] == Act3Dialogues
  {
  }

  /** Asking past the letter's string returns nothing and logs nothing. */
  lemma LetterIsNotADialogue(id: string)
    ensures GetDialogue("act3", "letter", "content", id) == Lookup([], false)
  {
    assert AllDialogues["act3"]["letter"]["content"] == LetterText;
  }
}
