/**
 * The game store (chichi/src/store/useGameStore.js).
 *
 * A single state record changed only through named actions.  The pure
 * functions on `StoreState` say what each action does to the record; the
 * class `Store` holds the same fields and updates them in place, and each of
 * its methods is proved to have exactly the effect of its function.
 */
module GameStore {
  import opened Wrappers
  import opened Dialogues

  datatype Pos = Pos(x: int, y: int)

  datatype Facing = Left | Right

  /**
   * One entry of `npcStates`.  A record created for an unknown NPC name by
   * `setNPCVisible` has no position (`None`); one created by `setNPCPosition`
   * has no visibility, which reads as false.
   */
  datatype NpcState = NpcState(visible: bool, position: Option<Pos>)

  datatype StoreState = StoreState(
    currentAct: int,
    currentScene: string,
    dialogueQueue: seq<Line>,
    currentDialogueIndex: nat,
    isDialogueActive: bool,
    flags: map<string, bool>,
    playerPosition: Pos,
    playerFacing: Facing,
    isPlayerMoving: bool,
    npcStates: map<string, NpcState>,
    showPuzzle: bool,
    showLetter: bool,
    gameStarted: bool)

  const Act1Flags: set<string> :=
    {"hasWokenUp", "hasTalkedToBat", "hasMetDelice", "hasTalkedToDelice", "isDoorUnlocked"}
  const Act2Flags: set<string> :=
    {"hasEnteredVoid", "hasHitDistance", "puzzleStarted", "puzzleSolved"}
  const Act3Flags: set<string> :=
    {"hasReachedBeach", "hasApproachedNienie", "hasWokenNienie", "reunionComplete", "giftClaimed"}

  const InitialFlags: map<string, bool> := map[
    "hasWokenUp" := false,
    "hasTalkedToBat" := false,
    "hasMetDelice" := false,
    "hasTalkedToDelice" := false,
    "isDoorUnlocked" := false,
    "hasEnteredVoid" := false,
    "hasHitDistance" := false,
    "puzzleStarted" := false,
    "puzzleSolved" := false,
    "hasReachedBeach" := false,
    "hasApproachedNienie" := false,
    "hasWokenNienie" := false,
    "reunionComplete" := false,
    "giftClaimed" := false
  ]

  const InitialNpcs: map<string, NpcState> := map[
    "bat" := NpcState(true, Some(Pos(500, 250))),
    "delice" := NpcState(false, Some(Pos(80, 350))),
    "nienie" := NpcState(false, Some(Pos(700, 300)))
  ]

  /** `initialState`. */
  const InitialState: StoreState := StoreState(
    1, "opening",
    [], 0, false,
    InitialFlags,
    Pos(100, 300), Right, false,
    InitialNpcs,
    false, false, false)

  /** JavaScript truthiness of `flags[name]`: a missing flag reads as false. */
  predicate Truthy(flags: map<string, bool>, name: string) {
    name in flags && flags[name]
  }

  /** The NPC has a record, and the record has a position. */
  predicate Placed(npcs: map<string, NpcState>, npc: string) {
    npc in npcs && npcs[npc].position.Some?
  }

  /**
   * The dialogue fields agree: an inactive dialogue has an empty queue and
   * cursor 0, and the cursor is 0 on an empty queue and inside a non-empty one.
   */
  ghost predicate DialogueConsistent(active: bool, queue: seq<Line>, index: nat) {
    && (!active ==> queue == [] && index == 0)
    && (queue == [] ==> index == 0)
    && (queue != [] ==> index < |queue|)
  }

  /** The three NPCs of the game have positions. */
  ghost predicate NpcsPlaced(npcs: map<string, NpcState>) {
    Placed(npcs, "bat") && Placed(npcs, "delice") && Placed(npcs, "nienie")
  }

  /**
   * What every action keeps true: the dialogue fields agree and the three
   * NPCs keep their positions.
   */
  ghost predicate Consistent(s: StoreState) {
    && DialogueConsistent(s.isDialogueActive, s.dialogueQueue, s.currentDialogueIndex)
    && NpcsPlaced(s.npcStates)
  }

  /** No flag of the initial record ever disappears. */
  ghost predicate FlagsKept(s: StoreState) {
    InitialFlags.Keys <= s.flags.Keys
  }

  /**
   * The game starts with no dialogue on screen, the three NPCs placed and
   * fourteen story flags.
   */
  lemma InitialStateConsistent()
    ensures !InitialState.isDialogueActive && InitialState.dialogueQueue == []
    ensures InitialState.currentDialogueIndex == 0
    ensures Consistent(InitialState) && FlagsKept(InitialState)
  {
  }

  /** The initial flags are exactly the three acts' flags, all false. */
  lemma InitialFlagsByAct()
    ensures InitialFlags.Keys == Act1Flags + Act2Flags + Act3Flags
    ensures forall f :: f in InitialFlags ==> !InitialFlags[f]
  {
  }

  // ---------------------------------------------------------------
  // Acts
  // ---------------------------------------------------------------

  /** nextAct: one act forward, never past act 3, back to the "entering" scene. */
  function ActAdvanced(s: StoreState): (r: StoreState)
    ensures r.currentAct <= 3
    ensures s.currentAct < 3 ==> r.currentAct == s.currentAct + 1
    ensures s.currentAct >= 3 ==> r.currentAct == 3
    ensures r.currentScene == "entering"
    ensures r == s.(currentAct := r.currentAct, currentScene := r.currentScene)
    ensures Consistent(s) ==> Consistent(r)
  {
    var next := if s.currentAct + 1 < 3 then s.currentAct + 1 else 3;
    s.(currentAct := next, currentScene := "entering")
  }

  // ---------------------------------------------------------------
  // Dialogue
  // ---------------------------------------------------------------

  /** startDialogue(q): q replaces whatever was queued, from its first line. */
  function Started(s: StoreState, q: seq<Line>): (r: StoreState)
    ensures r.isDialogueActive && r.dialogueQueue == q && r.currentDialogueIndex == 0
    ensures q != [] ==> r.dialogueQueue[r.currentDialogueIndex] == q[0]
    ensures r == s.(dialogueQueue := q, currentDialogueIndex := 0, isDialogueActive := true)
    ensures Consistent(s) ==> Consistent(r)
  {
    s.(dialogueQueue := q, currentDialogueIndex := 0, isDialogueActive := true)
  }

  /** endDialogue: the dialogue is closed and its queue dropped. */
  function Ended(s: StoreState): (r: StoreState)
    ensures !r.isDialogueActive && r.dialogueQueue == [] && r.currentDialogueIndex == 0
    ensures r == s.(dialogueQueue := [], currentDialogueIndex := 0, isDialogueActive := false)
    ensures Consistent(s) ==> Consistent(r)
  {
    s.(isDialogueActive := false, currentDialogueIndex := 0, dialogueQueue := [])
  }

  /**
   * nextDialogue: moves the cursor on and answers true while a further line
   * exists; otherwise closes the dialogue and answers false.
   */
  function Advanced(s: StoreState): (r: (StoreState, bool))
    ensures r.1 <==> s.currentDialogueIndex + 1 < |s.dialogueQueue|
    ensures r.1 ==> r.0 == s.(currentDialogueIndex := s.currentDialogueIndex + 1)
    ensures !r.1 ==> r.0 == Ended(s)
    ensures Consistent(s) ==> Consistent(r.0)
  {
    var nextIndex := s.currentDialogueIndex + 1;
    if nextIndex >= |s.dialogueQueue| then
      (Ended(s), false)
    else
      (s.(currentDialogueIndex := nextIndex), true)
  }

  /** k successive nextDialogue calls: the final state and the answers, in order. */
  function AdvancedTimes(s: StoreState, k: nat): (StoreState, seq<bool>)
    decreases k
  {
    if k == 0 then (s, [])
    else
      var step := Advanced(s);
      var rest := AdvancedTimes(step.0, k - 1);
      (rest.0, [step.1] + rest.1)
  }

  /** n answers of true. */
  function Trues(n: nat): (r: seq<bool>)
    ensures |r| == n
  {
    if n == 0 then [] else [true] + Trues(n - 1)
  }

  /**
   * From line i of a queue of n lines, the next n - i calls answer true
   * n - i - 1 times and then false once, and leave the dialogue closed.
   */
  lemma {:induction false} AdvanceToEnd(s: StoreState, n: nat)
    requires n == |s.dialogueQueue| - s.currentDialogueIndex && n >= 1
    ensures AdvancedTimes(s, n) == (Ended(s), Trues(n - 1) + [false])
    decreases n
  {
    if n == 1 {
      assert Advanced(s) == (Ended(s), false);
      assert AdvancedTimes(Ended(s), 0) == (Ended(s), []);
      assert AdvancedTimes(s, 1) == (Ended(s), [false] + []);
      assert Trues(0) + [false] == [false] + [];
    } else {
      var s1 := s.(currentDialogueIndex := s.currentDialogueIndex + 1);
      assert Advanced(s) == (s1, true);
      AdvanceToEnd(s1, n - 1);
      assert Ended(s1) == Ended(s);
      assert [true] + (Trues(n - 2) + [false]) == Trues(n - 1) + [false];
    }
  }

  /**
   * After startDialogue(q) with q non-empty, the first |q| - 1 calls of
   * nextDialogue answer true and the |q|-th answers false, closing the
   * dialogue.
   */
  lemma QueueAnswersTrueThenFalse(s: StoreState, q: seq<Line>)
    requires q != []
    ensures AdvancedTimes(Started(s, q), |q|) == (Ended(s), Trues(|q| - 1) + [false])
  {
    AdvanceToEnd(Started(s, q), |q|);
  }

  /** After startDialogue([]), the very first nextDialogue answers false. */
  lemma EmptyQueueEndsAtOnce(s: StoreState)
    ensures AdvancedTimes(Started(s, []), 1) == (Ended(s), [false])
  {
    var s0 := Started(s, []);
    assert Ended(s0) == Ended(s);
    assert Advanced(s0) == (Ended(s), false);
    assert AdvancedTimes(Ended(s), 0) == (Ended(s), []);
    assert [false] + [] == [false];
  }

  // ---------------------------------------------------------------
  // Flags
  // ---------------------------------------------------------------

  /** setFlag(name, value): flags[name] becomes value; no other flag changes. */
  function WithFlag(s: StoreState, name: string, value: bool): (r: StoreState)
    ensures r.flags.Keys == s.flags.Keys + {name} && r.flags[name] == value
    ensures forall f :: f in s.flags && f != name ==> r.flags[f] == s.flags[f]
    ensures r == s.(flags := r.flags)
    ensures Consistent(s) ==> Consistent(r)
    ensures FlagsKept(s) ==> FlagsKept(r)
  {
    s.(flags := s.flags[name := value])
  }

  /** setFlags(obj): the keys of obj take obj's values; every other flag stays. */
  function WithFlags(s: StoreState, obj: map<string, bool>): (r: StoreState)
    ensures r.flags.Keys == s.flags.Keys + obj.Keys
    ensures forall f :: f in obj ==> r.flags[f] == obj[f]
    ensures forall f :: f in s.flags && f !in obj ==> r.flags[f] == s.flags[f]
    ensures r == s.(flags := r.flags)
    ensures Consistent(s) ==> Consistent(r)
    ensures FlagsKept(s) ==> FlagsKept(r)
  {
    s.(flags := s.flags + obj)
  }

  /** getFlag(name): the flag's value, or undefined. */
  function FlagValue(s: StoreState, name: string): (r: Option<bool>)
    ensures r.Some? <==> name in s.flags
    ensures r == Some(true) <==> Truthy(s.flags, name)
  {
    if name in s.flags then Some(s.flags[name]) else None
  }

  /** Reading a flag back after setting it, and reading any other flag. */
  lemma FlagReadBack(s: StoreState, name: string, value: bool, other: string)
    requires other != name
    ensures FlagValue(WithFlag(s, name, value), name) == Some(value)
    ensures FlagValue(WithFlag(s, name, value), other) == FlagValue(s, other)
  {
  }

  /** debugSkipToAct's per-act presets; any other act number adds nothing. */
  function ActPreset(act: int): map<string, bool>
  {
    if act == 2 then
      map["hasWokenUp" := true, "hasTalkedToBat" := true, "hasMetDelice" := true,
          "hasTalkedToDelice" := true, "isDoorUnlocked" := true]
    else if act == 3 then
      map["hasWokenUp" := true, "hasTalkedToBat" := true, "hasMetDelice" := true,
          "hasTalkedToDelice" := true, "isDoorUnlocked" := true,
          "hasEnteredVoid" := true, "hasHitDistance" := true,
          "puzzleStarted" := true, "puzzleSolved" := true]
    else
      map[]
  }

  /**
   * debugSkipToAct(k): act k, with the initial flags overlaid by k's preset:
   * every earlier act's flags true, every later one false.
   */
  function SkippedToAct(s: StoreState, act: int): (r: StoreState)
    ensures r.currentAct == act
    ensures r == s.(currentAct := act, flags := r.flags)
    ensures Consistent(s) ==> Consistent(r)
    ensures FlagsKept(r)
  {
    s.(currentAct := act, flags := InitialFlags + ActPreset(act))
  }

  /** Each preset sets only flags of the acts before its own, all to true. */
  lemma PresetFlags(act: int)
    ensures act == 2 ==> ActPreset(act).Keys == Act1Flags
    ensures act == 3 ==> ActPreset(act).Keys == Act1Flags + Act2Flags
    ensures act != 2 && act != 3 ==> ActPreset(act) == map[]
    ensures forall g :: g in ActPreset(act) ==> ActPreset(act)[g]
  {
  }

  /** No flag belongs to two acts. */
  lemma ActFlagsDisjoint()
    ensures Act1Flags !! Act2Flags && Act2Flags !! Act3Flags && Act1Flags !! Act3Flags
  {
  }

  /** Five flags for act 1, four for act 2, five for act 3. */
  lemma Act1FlagCount()
    ensures |Act1Flags| == 5
  {
  }

  lemma Act2FlagCount()
    ensures |Act2Flags| == 4
  {
  }

  lemma Act3FlagCount()
    ensures |Act3Flags| == 5
  {
  }

  /** There are fourteen story flags. */
  lemma FourteenFlags()
    ensures |InitialFlags| == 14
  {
    InitialFlagsByAct();
    ActFlagsDisjoint();
    Act1FlagCount();
    Act2FlagCount();
    Act3FlagCount();
    assert |Act1Flags + Act2Flags| == 9;
    assert |InitialFlags.Keys| == 14;
  }

  /**
   * The preset overlaid on the initial flags: the initial names, with every
   * flag of an act before k true and every other flag false.
   */
  lemma OverlaidFlags(act: int, f: string)
    ensures (InitialFlags + ActPreset(act)).Keys == InitialFlags.Keys
    ensures f in Act1Flags ==> (InitialFlags + ActPreset(act))[f] == (act == 2 || act == 3)
    ensures f in Act2Flags ==> (InitialFlags + ActPreset(act))[f] == (act == 3)
    ensures f in Act3Flags ==> !(InitialFlags + ActPreset(act))[f]
  {
    InitialFlagsByAct();
    PresetFlags(act);
    ActFlagsDisjoint();
  }

  /**
   * After debugSkipToAct(k) the flags are exactly the initial ones, with every
   * flag of an act before k true and every other flag false.
   */
  lemma SkippedToActFlags(s: StoreState, act: int, f: string)
    ensures SkippedToAct(s, act).flags.Keys == InitialFlags.Keys
    ensures f in Act1Flags ==> SkippedToAct(s, act).flags[f] == (act == 2 || act == 3)
    ensures f in Act2Flags ==> SkippedToAct(s, act).flags[f] == (act == 3)
    ensures f in Act3Flags ==> !SkippedToAct(s, act).flags[f]
  {
    OverlaidFlags(act, f);
  }

  // ---------------------------------------------------------------
  // Player
  // ---------------------------------------------------------------

  /** setPlayerPosition(x, y): only the position changes. */
  function Positioned(s: StoreState, x: int, y: int): (r: StoreState)
    ensures r.playerPosition == Pos(x, y)
    ensures r == s.(playerPosition := Pos(x, y))
    ensures Consistent(s) ==> Consistent(r)
  {
    s.(playerPosition := Pos(x, y))
  }

  /**
   * movePlayer(dx, dy): the position moves by the deltas, the player is
   * marked moving, and faces the way of a horizontal move (unchanged when
   * dx is 0).
   */
  function Moved(s: StoreState, dx: int, dy: int): (r: StoreState)
    ensures r.playerPosition.x - s.playerPosition.x == dx
    ensures r.playerPosition.y - s.playerPosition.y == dy
    ensures r.isPlayerMoving
    ensures dx > 0 ==> r.playerFacing == Right
    ensures dx < 0 ==> r.playerFacing == Left
    ensures dx == 0 ==> r.playerFacing == s.playerFacing
    ensures r == s.(playerPosition := r.playerPosition, playerFacing := r.playerFacing,
                    isPlayerMoving := true)
    ensures Consistent(s) ==> Consistent(r)
  {
    s.(playerPosition := Pos(s.playerPosition.x + dx, s.playerPosition.y + dy),
       playerFacing := if dx > 0 then Right else if dx < 0 then Left else s.playerFacing,
       isPlayerMoving := true)
  }

  /** stopPlayer: the player is no longer marked moving. */
  function Stopped(s: StoreState): (r: StoreState)
    ensures !r.isPlayerMoving
    ensures r == s.(isPlayerMoving := false)
    ensures Consistent(s) ==> Consistent(r)
  {
    s.(isPlayerMoving := false)
  }

  // ---------------------------------------------------------------
  // NPCs
  // ---------------------------------------------------------------

  /**
   * setNPCVisible(npc, v): only that NPC's visibility changes; its position
   * and every other NPC are kept.
   */
  function WithNpcVisible(s: StoreState, npc: string, visible: bool): (r: StoreState)
    ensures r.npcStates.Keys == s.npcStates.Keys + {npc}
    ensures r.npcStates[npc].visible == visible
    ensures npc in s.npcStates ==> r.npcStates[npc].position == s.npcStates[npc].position
    ensures npc !in s.npcStates ==> r.npcStates[npc].position == None
    ensures forall n :: n in s.npcStates && n != npc ==> r.npcStates[n] == s.npcStates[n]
    ensures r == s.(npcStates := r.npcStates)
    ensures Consistent(s) ==> Consistent(r)
  {
    var entry := if npc in s.npcStates then s.npcStates[npc] else NpcState(false, None);
    var npcs := s.npcStates[npc := entry.(visible := visible)];
    assert forall n :: Placed(s.npcStates, n) ==> Placed(npcs, n);
    s.(npcStates := npcs)
  }

  /**
   * setNPCPosition(npc, x, y): only that NPC's position changes; its
   * visibility and every other NPC are kept.
   */
  function WithNpcPosition(s: StoreState, npc: string, x: int, y: int): (r: StoreState)
    ensures r.npcStates.Keys == s.npcStates.Keys + {npc}
    ensures r.npcStates[npc].position == Some(Pos(x, y))
    ensures npc in s.npcStates ==> r.npcStates[npc].visible == s.npcStates[npc].visible
    ensures npc !in s.npcStates ==> !r.npcStates[npc].visible
    ensures forall n :: n in s.npcStates && n != npc ==> r.npcStates[n] == s.npcStates[n]
    ensures r == s.(npcStates := r.npcStates)
    ensures Consistent(s) ==> Consistent(r)
  {
    var entry := if npc in s.npcStates then s.npcStates[npc] else NpcState(false, None);
    var npcs := s.npcStates[npc := entry.(position := Some(Pos(x, y)))];
    assert forall n :: Placed(s.npcStates, n) ==> Placed(npcs, n);
    s.(npcStates := npcs)
  }

  // ---------------------------------------------------------------
  // The store object
  // ---------------------------------------------------------------

  class Store {
    var currentAct: int
    var currentScene: string
    var dialogueQueue: seq<Line>
    var currentDialogueIndex: nat
    var isDialogueActive: bool
    var flags: map<string, bool>
    var playerPosition: Pos
    var playerFacing: Facing
    var isPlayerMoving: bool
    var npcStates: map<string, NpcState>
    var showPuzzle: bool
    var showLetter: bool
    var gameStarted: bool

    /** The record the store currently holds. */
    function State(): StoreState
      reads this
    {
      StoreState(currentAct, currentScene, dialogueQueue, currentDialogueIndex,
                 isDialogueActive, flags, playerPosition, playerFacing, isPlayerMoving,
                 npcStates, showPuzzle, showLetter, gameStarted)
    }

    ghost predicate Valid()
      reads this
    {
      Consistent(State()) && FlagsKept(State())
    }

    constructor ()
      ensures State() == InitialState && Valid()
    {
      currentAct, currentScene := 1, "opening";
      dialogueQueue, currentDialogueIndex, isDialogueActive := [], 0, false;
      flags := InitialFlags;
      playerPosition, playerFacing, isPlayerMoving := Pos(100, 300), Right, false;
      npcStates := InitialNpcs;
      showPuzzle, showLetter, gameStarted := false, false, false;
      InitialStateConsistent();
    }

    method NextAct()
      modifies this
      ensures old(Valid()) ==> Valid()
      ensures State() == ActAdvanced(old(State()))
    {
      var nextActNum := if currentAct + 1 < 3 then currentAct + 1 else 3;
      currentAct, currentScene := nextActNum, "entering";
    }

    method StartDialogue(q: seq<Line>)
      modifies this
      ensures old(Valid()) ==> Valid()
      ensures State() == Started(old(State()), q)
    {
      dialogueQueue, currentDialogueIndex, isDialogueActive := q, 0, true;
    }

    method NextDialogue() returns (more: bool)
      modifies this
      ensures old(Valid()) ==> Valid()
      ensures (State(), more) == Advanced(old(State()))
    {
      var nextIndex := currentDialogueIndex + 1;
      if nextIndex >= |dialogueQueue| {
        isDialogueActive, currentDialogueIndex, dialogueQueue := false, 0, [];
        return false;
      }
      currentDialogueIndex := nextIndex;
      return true;
    }

    /**
     * getCurrentDialogue: no line while inactive or with an empty queue
     * (startDialogue([]) leaves the dialogue active with nothing to show);
     * otherwise the line under the cursor.
     */
    function GetCurrentDialogue(): (r: Option<Line>)
      reads this
      ensures Valid() ==> (r.None? <==> !isDialogueActive || dialogueQueue == [])
      ensures r.Some? ==> isDialogueActive && r.value in dialogueQueue
      ensures r.Some? ==> currentDialogueIndex < |dialogueQueue|
                          && r.value == dialogueQueue[currentDialogueIndex]
    {
      if !isDialogueActive || |dialogueQueue| == 0 then None
      else if currentDialogueIndex < |dialogueQueue| then Some(dialogueQueue[currentDialogueIndex])
      else None  // an out-of-range index reads as undefined
    }

    method EndDialogue()
      modifies this
      ensures old(Valid()) ==> Valid()
      ensures State() == Ended(old(State()))
    {
      isDialogueActive, currentDialogueIndex, dialogueQueue := false, 0, [];
    }

    method SetFlag(name: string, value: bool)
      modifies this
      ensures old(Valid()) ==> Valid()
      ensures State() == WithFlag(old(State()), name, value)
      ensures GetFlag(name) == Some(value)
      ensures forall f :: f != name ==> GetFlag(f) == old(GetFlag(f))
    {
      flags := flags[name := value];
    }

    method SetFlags(obj: map<string, bool>)
      modifies this
      ensures old(Valid()) ==> Valid()
      ensures State() == WithFlags(old(State()), obj)
    {
      flags := flags + obj;
    }

    function GetFlag(name: string): (r: Option<bool>)
      reads this
      ensures r == FlagValue(State(), name)
    {
      if name in flags then Some(flags[name]) else None
    }

    method SetPlayerPosition(x: int, y: int)
      modifies this
      ensures old(Valid()) ==> Valid()
      ensures State() == Positioned(old(State()), x, y)
    {
      playerPosition := Pos(x, y);
    }

    method MovePlayer(dx: int, dy: int)
      modifies this
      ensures old(Valid()) ==> Valid()
      ensures State() == Moved(old(State()), dx, dy)
    {
      playerPosition := Pos(playerPosition.x + dx, playerPosition.y + dy);
      playerFacing := if dx > 0 then Right else if dx < 0 then Left else playerFacing;
      isPlayerMoving := true;
    }

    method StopPlayer()
      modifies this
      ensures old(Valid()) ==> Valid()
      ensures State() == Stopped(old(State()))
    {
      isPlayerMoving := false;
    }

    method SetNPCVisible(npc: string, visible: bool)
      modifies this
      ensures old(Valid()) ==> Valid()
      ensures State() == WithNpcVisible(old(State()), npc, visible)
    {
      var entry := if npc in npcStates then npcStates[npc] else NpcState(false, None);
      npcStates := npcStates[npc := entry.(visible := visible)];
    }

    method SetNPCPosition(npc: string, x: int, y: int)
      modifies this
      ensures old(Valid()) ==> Valid()
      ensures State() == WithNpcPosition(old(State()), npc, x, y)
    {
      var entry := if npc in npcStates then npcStates[npc] else NpcState(false, None);
      npcStates := npcStates[npc := entry.(position := Some(Pos(x, y)))];
    }

    /** The act, the scene, the dialogue and the flags take the values of s. */
    method ReplaceStory(s: StoreState)
      modifies this
      ensures State() == old(State()).(currentAct := s.currentAct, currentScene := s.currentScene,
                                       dialogueQueue := s.dialogueQueue,
                                       currentDialogueIndex := s.currentDialogueIndex,
                                       isDialogueActive := s.isDialogueActive, flags := s.flags)
    {
      currentAct, currentScene := s.currentAct, s.currentScene;
      dialogueQueue, currentDialogueIndex, isDialogueActive :=
        s.dialogueQueue, s.currentDialogueIndex, s.isDialogueActive;
      flags := s.flags;
    }

    /** The player, the NPCs and the overlays take the values of s. */
    method ReplaceWorld(s: StoreState)
      modifies this
      ensures State() == old(State()).(playerPosition := s.playerPosition,
                                       playerFacing := s.playerFacing,
                                       isPlayerMoving := s.isPlayerMoving, npcStates := s.npcStates,
                                       showPuzzle := s.showPuzzle, showLetter := s.showLetter,
                                       gameStarted := s.gameStarted)
    {
      playerPosition, playerFacing, isPlayerMoving := s.playerPosition, s.playerFacing, s.isPlayerMoving;
      npcStates := s.npcStates;
      showPuzzle, showLetter, gameStarted := s.showPuzzle, s.showLetter, s.gameStarted;
    }

    /** resetGame: every field takes its initial value again, whatever came before. */
    method ResetGame()
      modifies this
      ensures State() == InitialState && Valid()
    {
      ReplaceStory(InitialState);
      ReplaceWorld(InitialState);
      InitialStateConsistent();
    }

    method DebugSkipToAct(act: int)
      modifies this
      ensures old(Valid()) ==> Valid()
      ensures State() == SkippedToAct(old(State()), act)
    {
      flags := InitialFlags + ActPreset(act);
      currentAct := act;
    }
  }
}
