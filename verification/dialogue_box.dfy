/**
 * The dialogue box (chichi/src/components/Game/DialogueBox.jsx).
 *
 * The box reads the dialogue fields of the store, shows the line under the
 * cursor, and turns presses of its button or of Space/Enter into calls of
 * `nextDialogue`; when the store answers that the sequence is over, it tells
 * its owner through the `onDialogueEnd` callback.  The owner's callbacks are
 * modelled by whether they are present: `HandleNext` answers whether the end
 * callback ran, `HandleChoice` lists the callbacks it ran, in order.
 */
module DialogueBox {
  import opened Wrappers
  import opened Dialogues
  import opened GameStore

  // ---------------------------------------------------------------
  // Advancing and ending
  // ---------------------------------------------------------------

  /**
   * handleNext: one nextDialogue on the store; the end callback runs exactly
   * when the store answers that no line is left (and a callback was given).
   */
  method HandleNext(store: Store, hasEndHandler: bool) returns (endFired: bool)
    modifies store
    ensures store.State() == Advanced(old(store.State())).0
    ensures endFired <==> hasEndHandler && !Advanced(old(store.State())).1
  {
    var hasMoreDialogue := store.NextDialogue();
    endFired := !hasMoreDialogue && hasEndHandler;
  }

  /** A key the box listens for: the code of the key pressed. */
  predicate IsAdvanceKey(code: string) {
    code == "Space" || code == "Enter"
  }

  /**
   * The window keydown listener: ignored while no dialogue is active;
   * otherwise Space and Enter do what the button does, and any other key is
   * ignored.
   */
  method HandleKeyDown(store: Store, hasEndHandler: bool, code: string)
    returns (advanced: bool, endFired: bool)
    modifies store
    ensures advanced <==> old(store.isDialogueActive) && IsAdvanceKey(code)
    ensures advanced ==> store.State() == Advanced(old(store.State())).0
    ensures !advanced ==> store.State() == old(store.State())
    ensures endFired ==> advanced
    ensures endFired <==> advanced && hasEndHandler && !Advanced(old(store.State())).1
  {
    advanced, endFired := false, false;
    if !store.isDialogueActive {
      return;
    }
    if IsAdvanceKey(code) {
      advanced := true;
      endFired := HandleNext(store, hasEndHandler);
    }
  }

  /** A callback the box runs on its owner's behalf. */
  datatype Callback = ChoiceMade(id: string) | DialogueEnded

  /**
   * handleChoice(id): the choice callback, if any, receives the id, and then
   * the end callback, if any, runs (after a delay, which is not modelled).
   * The store is not touched: the queue does not advance.
   */
  method HandleChoice(choiceId: string, hasChoiceHandler: bool, hasEndHandler: bool)
    returns (calls: seq<Callback>)
    ensures ChoiceMade(choiceId) in calls <==> hasChoiceHandler
    ensures DialogueEnded in calls <==> hasEndHandler
    ensures forall k :: 0 <= k < |calls| ==> calls[k] in [ChoiceMade(choiceId), DialogueEnded]
    ensures forall j, k :: 0 <= j < k < |calls| ==> calls[j] == ChoiceMade(choiceId) && calls[k] == DialogueEnded
  {
    calls := [];
    if hasChoiceHandler {
      calls := calls + [ChoiceMade(choiceId)];
    }
    if hasEndHandler {
      calls := calls + [DialogueEnded];
    }
  }

  /** Every answer in n trues is true. */
  lemma {:induction false} TruesAllTrue(n: nat)
    ensures forall k :: 0 <= k < n ==> Trues(n)[k]
  {
    if n > 0 {
      TruesAllTrue(n - 1);
      assert Trues(n) == [true] + Trues(n - 1);
    }
  }

  /**
   * The "one end per sequence" protocol: after startDialogue(q) with q
   * non-empty, |q| presses of Next leave the dialogue closed, and the store
   * answers "over" at the last press and at no other, so the end callback
   * runs exactly once, after the |q|-th press.
   */
  lemma EndSignalledOnce(s: StoreState, q: seq<Line>)
    requires q != []
    ensures var run := AdvancedTimes(Started(s, q), |q|);
            && run.0 == Ended(s)
            && |run.1| == |q|
            && forall k :: 0 <= k < |q| ==> (!run.1[k] <==> k == |q| - 1)
  {
    QueueAnswersTrueThenFalse(s, q);
    TruesAllTrue(|q| - 1);
    var answers := Trues(|q| - 1) + [false];
    assert forall k :: 0 <= k < |q| - 1 ==> answers[k] == Trues(|q| - 1)[k];
  }

  // ---------------------------------------------------------------
  // What is shown
  // ---------------------------------------------------------------

  /** `dialogueQueue[currentDialogueIndex]`: undefined outside the queue. */
  function CurrentLine(s: StoreState): (r: Option<Line>)
    ensures r.Some? <==> s.currentDialogueIndex < |s.dialogueQueue|
    ensures r.Some? ==> r.value in s.dialogueQueue
  {
    if s.currentDialogueIndex < |s.dialogueQueue| then Some(s.dialogueQueue[s.currentDialogueIndex])
    else None
  }

  /** The box renders only while a dialogue is active and a line is under the cursor. */
  predicate Renders(s: StoreState) {
    s.isDialogueActive && CurrentLine(s).Some?
  }

  /**
   * The box renders exactly when the store's getCurrentDialogue has a line,
   * and then it shows that line.
   */
  lemma RendersIffStoreHasLine(store: Store)
    ensures Renders(store.State()) <==> store.GetCurrentDialogue().Some?
    ensures Renders(store.State()) ==> CurrentLine(store.State()) == store.GetCurrentDialogue()
  {
  }

  /** The progress label `shown/total`. */
  datatype Progress = Progress(shown: nat, total: nat)

  /** The progress label of a rendered box: one-based position within the queue. */
  function ProgressOf(s: StoreState): (r: Progress)
    requires Renders(s)
    ensures 1 <= r.shown <= r.total == |s.dialogueQueue|
    ensures r.shown - 1 == s.currentDialogueIndex
  {
    Progress(s.currentDialogueIndex + 1, |s.dialogueQueue|)
  }

  /** The footer under the text: the line's choice buttons, or one Next / Close button. */
  datatype Footer = ChoiceButtons(choices: seq<Choice>) | NextButton | CloseButton

  /**
   * A line that carries choices (even none) shows them; otherwise the button
   * reads Next while a later line exists and Close on the last line.
   */
  function FooterOf(s: StoreState): (r: Footer)
    requires Renders(s)
    ensures CurrentLine(s).value.choices.Some? <==> r.ChoiceButtons?
    ensures r.ChoiceButtons? ==> r.choices == CurrentLine(s).value.choices.value
    ensures r == NextButton ==> s.currentDialogueIndex + 1 < |s.dialogueQueue|
    ensures r == CloseButton ==> s.currentDialogueIndex + 1 == |s.dialogueQueue|
  {
    var line := CurrentLine(s).value;
    if line.choices.Some? then ChoiceButtons(line.choices.value)
    else if s.currentDialogueIndex < |s.dialogueQueue| - 1 then NextButton
    else CloseButton
  }

  /**
   * The button reads Close exactly when pressing it ends the dialogue, and
   * Close appears exactly when the progress label reads total/total.
   */
  lemma CloseIffLastLine(s: StoreState)
    requires Renders(s) && CurrentLine(s).value.choices.None?
    ensures FooterOf(s) == CloseButton <==> !Advanced(s).1
    ensures FooterOf(s) == CloseButton <==> ProgressOf(s).shown == ProgressOf(s).total
  {
  }

  // ---------------------------------------------------------------
  // Colours and emotions
  // ---------------------------------------------------------------

  /** SPEAKER_COLORS. */
  const SpeakerColours: map<string, string> := map[
    "Chichi" := "#ff9ecd",
    "Nienie" := "#98d4bb",
    "Delice" := "#7fffd4",
    "Bat" := "#9370db",
    "Narrator" := "#c0c0c0",
    "Both" := "#ffb6c1"
  ]

  /** The colour for a speaker, white for one the table does not know. */
  function SpeakerColour(speaker: string): (r: string)
    ensures r != ""
    ensures speaker in SpeakerColours ==> r == SpeakerColours[speaker]
    ensures r == "#ffffff" <==> speaker !in SpeakerColours
  {
    if speaker in SpeakerColours && SpeakerColours[speaker] != "" then SpeakerColours[speaker]
    else "#ffffff"
  }

  /** The keys of EMOTION_EMOJIS; the emoji themselves are opaque strings. */
  const EmotionNames: set<string> := {
    "sleepy", "sad", "longing", "happy", "concerned", "worried", "surprised",
    "affectionate", "calm", "wise", "determined", "mystical", "hopeful", "calling",
    "frustrated", "encouraging", "joyful", "emotional", "amused", "confused",
    "overjoyed", "loving"
  }

  /**
   * The emoji after the speaker's name: none for a missing or empty emotion,
   * none for an emotion the table lacks, else the table's emoji.
   */
  function EmotionEmoji(emotion: Option<string>, emojis: map<string, string>): (r: string)
    ensures r != "" ==> emotion.Some? && emotion.value != ""
                        && emotion.value in emojis && r == emojis[emotion.value]
    ensures emotion.Some? && emotion.value != "" && emotion.value in emojis ==>
              r == emojis[emotion.value]
  {
    match emotion
    case None => ""
    case Some(e) => if e != "" && e in emojis then emojis[e] else ""
  }

  /** The speaker has a colour of its own and the emotion, if any, has an emoji. */
  predicate Styled(l: Line) {
    && l.speaker in SpeakerColours
    && (l.emotion.Some? ==> l.emotion.value in EmotionNames)
  }

  predicate StyledSequence(ls: seq<Line>) {
    forall k :: 0 <= k < |ls| ==> Styled(ls[k])
  }

  lemma Act1SequencesStyled()
    ensures StyledSequence(WakeUp) && StyledSequence(BlockDoor)
    ensures StyledSequence(AfterCatAppears) && StyledSequence(NoticeCat)
    ensures StyledSequence(DeliceIntroduction) && StyledSequence(DoorDescription)
  {
  }

  lemma Act2SequencesStyled()
    ensures StyledSequence(EnteringDescription) && StyledSequence(EnteringReaction)
    ensures StyledSequence(DistanceDescription) && StyledSequence(DistanceReaction)
    ensures StyledSequence(DistanceHint) && StyledSequence(PuzzleStartDescription)
    ensures StyledSequence(PuzzleSolvedDescription) && StyledSequence(PuzzleSolvedReaction)
  {
  }

  lemma Act3SequencesStyled()
    ensures StyledSequence(ArrivalDescription) && StyledSequence(ApproachReaction)
    ensures StyledSequence(ReunionWakeUp) && StyledSequence(ReunionResponse)
    ensures StyledSequence(ReunionEnding)
  {
  }

  /**
   * Neither fallback is ever shown for authored dialogue: every line that
   * getDialogue returns has a speaker the colour table knows, and with an
   * emoji table over the emotion names, every emotion it names has its emoji.
   */
  lemma AuthoredLinesStyled(act: string, scene: string, character: string, id: string,
                            emojis: map<string, string>, k: nat)
    requires emojis.Keys == EmotionNames
    requires k < |GetDialogue(act, scene, character, id).lines|
    ensures var l := GetDialogue(act, scene, character, id).lines[k];
            && SpeakerColour(l.speaker) != "#ffffff"
            && (l.emotion.Some? ==> l.emotion.value in emojis
                                    && EmotionEmoji(l.emotion, emojis) == emojis[l.emotion.value])
  {
    assert HasSequence(act, scene, character, id);
    if act == "act1" {
      Act1Authored(scene, character, id);
      Act1SequencesStyled();
    } else if act == "act2" {
      Act2Authored(scene, character, id);
      Act2SequencesStyled();
    } else {
      Act3Authored(scene, character, id);
      Act3SequencesStyled();
    }
  }
}
