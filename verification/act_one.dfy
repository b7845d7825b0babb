/**
 * Act One, "The Land of Love" (chichi/src/components/Scenes/ActOne.jsx).
 *
 * The scene owns three pieces of local state beside the store: the story
 * phase, whether the bat is fading out, and (in this model) the one delayed
 * callback that is waiting to run.  Every `setTimeout` callback of the scene
 * is a `Timer` that runs when a `TimerFires` event arrives, so the wall clock
 * disappears and what is left is a total transition function `Step` over
 * events.  The pure functions below say what each handler does; the class
 * `ActOneScene` performs the same handlers in place on a `Store` and is
 * proved to agree with them.
 */
module ActOne {
  import opened Wrappers
  import opened Dialogues
  import opened GameStore
  import DialogueBox

  // ---------------------------------------------------------------
  // Geometry
  // ---------------------------------------------------------------

  /** MOVE_SPEED, in pixels per tick. */
  const MoveSpeed: int := 5

  /** The room the movement tick clamps the player to. */
  const MinX: int := 50
  const MaxX: int := 750
  const MinY: int := 200
  const MaxY: int := 450

  /** Past this x the player stands in the doorway, which a locked door refuses. */
  const DoorX: int := 700

  /** The distance, on each axis, at which touching the bat starts its dialogue. */
  const BatReach: int := 60

  function Abs(n: int): (r: nat)
    ensures r == n || r == -n
  {
    if n < 0 then -n else n
  }

  /** checkCollision(a, b, t): both axis distances strictly below t. */
  function CheckCollision(a: Pos, b: Pos, threshold: int): (r: bool)
    ensures r <==> b.x - threshold < a.x < b.x + threshold
                   && b.y - threshold < a.y < b.y + threshold
  {
    Abs(a.x - b.x) < threshold && Abs(a.y - b.y) < threshold
  }

  /** The test does not depend on which of the two boxes comes first. */
  lemma CollisionSymmetric(a: Pos, b: Pos, threshold: int)
    ensures CheckCollision(a, b, threshold) == CheckCollision(b, a, threshold)
  {
  }

  // ---------------------------------------------------------------
  // Movement
  // ---------------------------------------------------------------

  /** The movement keys, by their lower-cased `key` names. */
  datatype Key = W | A | S | D | ArrowUp | ArrowDown | ArrowLeft | ArrowRight

  predicate HoldsUp(keys: set<Key>) { W in keys || ArrowUp in keys }
  predicate HoldsDown(keys: set<Key>) { S in keys || ArrowDown in keys }
  predicate HoldsLeft(keys: set<Key>) { A in keys || ArrowLeft in keys }
  predicate HoldsRight(keys: set<Key>) { D in keys || ArrowRight in keys }

  /**
   * The step a tick takes for the held keys: one MOVE_SPEED per axis in the
   * held direction, and nothing on an axis whose two opposite keys are both
   * held (or neither).
   */
  function Delta(keys: set<Key>): (d: (int, int))
    ensures d.0 == 0 <==> (HoldsLeft(keys) <==> HoldsRight(keys))
    ensures d.0 < 0 <==> HoldsLeft(keys) && !HoldsRight(keys)
    ensures d.1 < 0 <==> HoldsUp(keys) && !HoldsDown(keys)
    ensures d.1 == 0 <==> (HoldsUp(keys) <==> HoldsDown(keys))
    ensures Abs(d.0) == (if d.0 == 0 then 0 else MoveSpeed)
    ensures Abs(d.1) == (if d.1 == 0 then 0 else MoveSpeed)
  {
    var dy := (if HoldsUp(keys) then -MoveSpeed else 0) + (if HoldsDown(keys) then MoveSpeed else 0);
    var dx := (if HoldsLeft(keys) then -MoveSpeed else 0) + (if HoldsRight(keys) then MoveSpeed else 0);
    (dx, dy)
  }

  /** Math.max(lo, Math.min(v, hi)) */
  function Clamp(v: int, lo: int, hi: int): (r: int)
    requires lo <= hi
    ensures lo <= r <= hi
    ensures lo <= v <= hi ==> r == v
  {
    if v > hi then hi else if v < lo then lo else v
  }

  predicate DoorUnlocked(s: StoreState) {
    Truthy(s.flags, "isDoorUnlocked")
  }

  /**
   * One run of the movement interval's body AS WRITTEN: the exit test
   * `newX > 750` is made on the clamped x, which is never above 750.
   */
  function TickAsWritten(s: StoreState, keys: set<Key>): StoreState
  {
    var (dx, dy) := Delta(keys);
    if dx == 0 && dy == 0 then s
    else
      var newX := Clamp(s.playerPosition.x + dx, MinX, MaxX);
      var newY := Clamp(s.playerPosition.y + dy, MinY, MaxY);
      if newX > DoorX && !DoorUnlocked(s) then s
      else if newX > MaxX && DoorUnlocked(s) then ActAdvanced(s)
      else Positioned(s, newX, newY)
  }

  /**
   * As written, no movement tick ever calls nextAct: the player can never
   * walk out of the room, even through the unlocked door.
   */
  lemma ExitUnreachableAsWritten(s: StoreState, keys: set<Key>)
    ensures TickAsWritten(s, keys).currentAct == s.currentAct
    ensures TickAsWritten(s, keys).currentScene == s.currentScene
  {
  }

  /**
   * One run of the movement interval's body, with the exit test made on the
   * candidate x before clamping: stepping right past the room's edge through
   * the unlocked door starts the next act.
   */
  function Tick(s: StoreState, keys: set<Key>): StoreState
  {
    var (dx, dy) := Delta(keys);
    if dx == 0 && dy == 0 then s
    else
      var newX := Clamp(s.playerPosition.x + dx, MinX, MaxX);
      var newY := Clamp(s.playerPosition.y + dy, MinY, MaxY);
      if newX > DoorX && !DoorUnlocked(s) then s
      else if s.playerPosition.x + dx > MaxX && DoorUnlocked(s) then ActAdvanced(s)
      else Positioned(s, newX, newY)
  }

  /** The player stands inside the room, and in front of a door that is locked. */
  predicate InRoom(s: StoreState) {
    && MinX <= s.playerPosition.x <= MaxX
    && MinY <= s.playerPosition.y <= MaxY
    && (!DoorUnlocked(s) ==> s.playerPosition.x <= DoorX)
  }

  /**
   * What a tick does: nothing without a net direction; a move into the
   * doorway of a locked door is refused whole (y does not change either);
   * through the open door at the right edge it starts the next act, keeping
   * the position; otherwise the player moves to the clamped candidate.
   * Nothing but the position, the act and the scene name ever changes.
   */
  lemma TickEffect(s: StoreState, keys: set<Key>)
    ensures var (dx, dy) := Delta(keys);
            var r := Tick(s, keys);
            && (dx == 0 && dy == 0 ==> r == s)
            && (r.currentAct != s.currentAct ==>
                  DoorUnlocked(s) && s.playerPosition.x + dx > MaxX && r == ActAdvanced(s))
            && (!DoorUnlocked(s) && s.playerPosition.x + dx > DoorX ==> r == s)
            && ((dx != 0 || dy != 0) && DoorUnlocked(s) && s.playerPosition.x + dx > MaxX ==>
                  r == ActAdvanced(s))
            && ((dx != 0 || dy != 0) && !(!DoorUnlocked(s) && s.playerPosition.x + dx > DoorX)
                && !(DoorUnlocked(s) && s.playerPosition.x + dx > MaxX) ==>
                  r == Positioned(s, Clamp(s.playerPosition.x + dx, MinX, MaxX),
                                     Clamp(s.playerPosition.y + dy, MinY, MaxY)))
            && (r.playerPosition != s.playerPosition ==>
                  r == Positioned(s, Clamp(s.playerPosition.x + dx, MinX, MaxX),
                                     Clamp(s.playerPosition.y + dy, MinY, MaxY)))
            && r == s.(playerPosition := r.playerPosition, currentAct := r.currentAct,
                       currentScene := r.currentScene)
  {
  }

  /** A tick never takes the player out of the room, nor past a locked door. */
  lemma TickKeepsInRoom(s: StoreState, keys: set<Key>)
    requires InRoom(s)
    ensures InRoom(Tick(s, keys))
  {
    TickEffect(s, keys);
    var r := Tick(s, keys);
    assert r.flags == s.flags;
    if r.playerPosition != s.playerPosition {
      var d := Delta(keys);
      var v := s.playerPosition.x + d.0;
      assert r.playerPosition.x == Clamp(v, MinX, MaxX);
      assert !DoorUnlocked(s) ==> v <= DoorX;
    }
  }

  /**
   * The tick as written and the corrected tick part ways only at the open
   * door: where the step would take the player past the right edge, the
   * corrected tick starts the next act and the one as written pins the
   * player to the edge instead.  Everywhere else they agree.
   */
  lemma TickDiffersOnlyAtExit(s: StoreState, keys: set<Key>)
    ensures var (dx, dy) := Delta(keys);
            Tick(s, keys) != TickAsWritten(s, keys) ==>
              && DoorUnlocked(s) && s.playerPosition.x + dx > MaxX
              && Tick(s, keys) == ActAdvanced(s)
              && TickAsWritten(s, keys) == Positioned(s, MaxX, Clamp(s.playerPosition.y + dy, MinY, MaxY))
  {
  }

  /**
   * With the door open, a right step from the room's right edge leaves the
   * room: the act advances and the new act starts at its "entering" scene.
   */
  lemma ExitThroughOpenDoor(s: StoreState)
    requires DoorUnlocked(s) && s.playerPosition.x == MaxX && s.currentAct < 3
    ensures Tick(s, {D}).currentAct == s.currentAct + 1
    ensures Tick(s, {D}).currentScene == "entering"
  {
    assert Delta({D}) == (MoveSpeed, 0);
  }

  // ---------------------------------------------------------------
  // The story phases
  // ---------------------------------------------------------------

  /** storyPhase, in the order the story goes through it. */
  datatype Phase =
    | Opening | Exploration | BatTalking | DeliceAppeared | ChichiNoticingCat
    | DeliceTalking | BatLeaving | DoorUnlocking | CanProceed

  function Rank(p: Phase): nat {
    match p
    case Opening => 0
    case Exploration => 1
    case BatTalking => 2
    case DeliceAppeared => 3
    case ChichiNoticingCat => 4
    case DeliceTalking => 5
    case BatLeaving => 6
    case DoorUnlocking => 7
    case CanProceed => 8
  }

  /** The delayed callbacks the scene schedules. */
  datatype Timer =
    | OpeningDelay      // the opening effect: show the wake-up dialogue
    | DeliceReveal      // after the bat's dialogue: reveal Delice
    | NoticeCatDelay    // after the reveal: Chichi notices the cat
    | BatFadeDelay      // after the bat's farewell: the bat is gone, the door glows

  /** The store as the scene sees it, with the scene's own state. */
  datatype Scene = Scene(store: StoreState, phase: Phase, batFadingOut: bool, pending: Option<Timer>)

  /** What can happen next: a press of Next (button or key), a timer, a click on the bat, a movement tick. */
  datatype Event = PressNext | TimerFires | ClickBat | MoveTick(keys: set<Key>)

  /**
   * The scene as it mounts: phase opening, the bat not fading, and the
   * opening effect's timer set unless Chichi has already woken up.
   */
  function Mounted(s: StoreState): (w: Scene)
    ensures w.store == s && w.phase == Opening && !w.batFadingOut
    ensures w.pending.Some? <==> !Truthy(s.flags, "hasWokenUp")
    ensures w.pending.Some? ==> w.pending.value == OpeningDelay
  {
    Scene(s, Opening, false, if !Truthy(s.flags, "hasWokenUp") then Some(OpeningDelay) else None)
  }

  /** The scene is on screen while the store's act is neither 2 nor 3. */
  predicate OnScreen(w: Scene) {
    w.store.currentAct != 2 && w.store.currentAct != 3
  }

  /** handleOpeningComplete */
  function OpeningComplete(w: Scene): Scene {
    w.(store := WithFlag(w.store, "hasWokenUp", true), phase := Exploration)
  }

  /**
   * handleBatClick: ignored once the bat has been talked to or while a
   * dialogue runs; otherwise the bat's blocking dialogue starts.  Leaving the
   * opening phase clears the opening effect's timer.
   */
  function BatClicked(w: Scene): Scene {
    if Truthy(w.store.flags, "hasTalkedToBat") || w.store.isDialogueActive then w
    else
      w.(store := Started(w.store, BlockDoor), phase := BatTalking,
         pending := if w.pending == Some(OpeningDelay) then None else w.pending)
  }

  /** handleBatDialogueComplete: the bat has been talked to; Delice is revealed later. */
  function BatDialogueComplete(w: Scene): Scene {
    w.(store := WithFlag(w.store, "hasTalkedToBat", true), pending := Some(DeliceReveal))
  }

  /** handleChichiNoticeComplete */
  function ChichiNoticeComplete(w: Scene): Scene {
    w.(store := Started(w.store, DeliceIntroduction), phase := DeliceTalking)
  }

  /** handleDeliceDialogueComplete */
  function DeliceDialogueComplete(w: Scene): Scene {
    w.(store := Started(WithFlag(w.store, "hasTalkedToDelice", true), AfterCatAppears),
       phase := BatLeaving)
  }

  /** handleBatLeavingComplete: the bat fades; it disappears later. */
  function BatLeavingComplete(w: Scene): Scene {
    w.(batFadingOut := true, pending := Some(BatFadeDelay))
  }

  /** handleDoorUnlockComplete */
  function DoorUnlockComplete(w: Scene): Scene {
    w.(store := WithFlag(w.store, "isDoorUnlocked", true), phase := CanProceed)
  }

  /** handleDialogueEnd: routed by the phase alone; phases without a case do nothing. */
  function DialogueEnd(w: Scene): Scene {
    match w.phase
    case Opening => OpeningComplete(w)
    case BatTalking => BatDialogueComplete(w)
    case ChichiNoticingCat => ChichiNoticeComplete(w)
    case DeliceTalking => DeliceDialogueComplete(w)
    case BatLeaving => BatLeavingComplete(w)
    case DoorUnlocking => DoorUnlockComplete(w)
    case Exploration => w
    case DeliceAppeared => w
    case CanProceed => w
  }

  /** The waiting callback, if any, runs. */
  function Fired(w: Scene): Scene {
    match w.pending
    case None => w
    case Some(OpeningDelay) =>
      w.(store := Started(w.store, WakeUp), pending := None)
    case Some(DeliceReveal) =>
      w.(store := WithFlag(WithNpcVisible(w.store, "delice", true), "hasMetDelice", true),
         phase := DeliceAppeared, pending := Some(NoticeCatDelay))
    case Some(NoticeCatDelay) =>
      w.(store := Started(w.store, NoticeCat), phase := ChichiNoticingCat, pending := None)
    case Some(BatFadeDelay) =>
      w.(store := Started(WithNpcVisible(w.store, "bat", false), DoorDescription),
         phase := DoorUnlocking, pending := None)
  }

  /**
   * Next in the dialogue box (its button, Space or Enter), which listens only
   * while a dialogue is active; when the store answers that the sequence is
   * over, the scene's dialogue-end handler runs.
   */
  function Pressed(w: Scene): Scene {
    if !w.store.isDialogueActive then w
    else
      var (after, more) := Advanced(w.store);
      if more then w.(store := after) else DialogueEnd(w.(store := after))
  }

  /** The bat NPC is drawn (and so can be clicked) while visible and not fading. */
  predicate BatShown(w: Scene) {
    "bat" in w.store.npcStates && w.store.npcStates["bat"].visible && !w.batFadingOut
  }

  /**
   * The movement effect: with a dialogue running or no key held the player
   * is stopped; otherwise one tick of the interval runs.
   */
  function Walked(w: Scene, keys: set<Key>): Scene {
    if w.store.isDialogueActive || keys == {} then w.(store := Stopped(w.store))
    else w.(store := Tick(w.store, keys))
  }

  /** The movement effect with the tick as written. */
  function WalkedAsWritten(w: Scene, keys: set<Key>): Scene {
    if w.store.isDialogueActive || keys == {} then w.(store := Stopped(w.store))
    else w.(store := TickAsWritten(w.store, keys))
  }

  /**
   * The bat-collision effect: when the bat is visible, not yet talked to, no
   * dialogue runs and the player is within reach of it, the bat is clicked.
   */
  predicate BatTouched(w: Scene) {
    && "bat" in w.store.npcStates
    && w.store.npcStates["bat"].visible
    && !Truthy(w.store.flags, "hasTalkedToBat")
    && !w.store.isDialogueActive
    && w.store.npcStates["bat"].position.Some?
    && CheckCollision(w.store.playerPosition, w.store.npcStates["bat"].position.value, BatReach)
  }

  function BatEffect(w: Scene): Scene {
    if BatTouched(w) then BatClicked(w) else w
  }

  function Handle(w: Scene, e: Event): Scene {
    match e
    case PressNext => Pressed(w)
    case TimerFires => Fired(w)
    case ClickBat => if BatShown(w) then BatClicked(w) else w
    case MoveTick(keys) => Walked(w, keys)
  }

  /**
   * One event, then the bat-collision effect.  Once the act has moved on the
   * scene is no longer on screen and nothing happens to it.
   */
  function Step(w: Scene, e: Event): Scene {
    if !OnScreen(w) then w
    else
      var w1 := Handle(w, e);
      if OnScreen(w1) then BatEffect(w1) else w1
  }

  /** A sequence of events, in order. */
  function Run(w: Scene, es: seq<Event>): Scene
    decreases |es|
  {
    if es == [] then w else Run(Step(w, es[0]), es[1..])
  }

  // ---------------------------------------------------------------
  // The scene component
  // ---------------------------------------------------------------

  /**
   * The mounted ActOne component: its local state and the store it drives.
   * Each handler changes them in place exactly as its function says.
   */
  class ActOneScene {
    const store: Store
    var phase: Phase
    var batFadingOut: bool
    var pending: Option<Timer>

    function View(): Scene
      reads this, store
    {
      Scene(store.State(), phase, batFadingOut, pending)
    }

    /** Mounting, including the opening effect's first run. */
    constructor (s: Store)
      ensures store == s
      ensures View() == Mounted(s.State())
    {
      store := s;
      phase := Opening;
      batFadingOut := false;
      pending := if !Truthy(s.flags, "hasWokenUp") then Some(OpeningDelay) else None;
    }

    method HandleOpeningComplete()
      modifies this, store
      ensures View() == OpeningComplete(old(View()))
    {
      store.SetFlag("hasWokenUp", true);
      phase := Exploration;
    }

    method HandleBatClick()
      modifies this, store
      ensures View() == BatClicked(old(View()))
    {
      if Truthy(store.flags, "hasTalkedToBat") || store.isDialogueActive {
        return;
      }
      store.StartDialogue(BlockDoor);
      phase := BatTalking;
      if pending == Some(OpeningDelay) {
        pending := None;
      }
    }

    method HandleBatDialogueComplete()
      modifies this, store
      ensures View() == BatDialogueComplete(old(View()))
    {
      store.SetFlag("hasTalkedToBat", true);
      pending := Some(DeliceReveal);
    }

    method HandleChichiNoticeComplete()
      modifies this, store
      ensures View() == ChichiNoticeComplete(old(View()))
    {
      store.StartDialogue(DeliceIntroduction);
      phase := DeliceTalking;
    }

    method HandleDeliceDialogueComplete()
      modifies this, store
      ensures View() == DeliceDialogueComplete(old(View()))
    {
      store.SetFlag("hasTalkedToDelice", true);
      store.StartDialogue(AfterCatAppears);
      phase := BatLeaving;
    }

    method HandleBatLeavingComplete()
      modifies this, store
      ensures View() == BatLeavingComplete(old(View()))
    {
      batFadingOut := true;
      pending := Some(BatFadeDelay);
    }

    method HandleDoorUnlockComplete()
      modifies this, store
      ensures View() == DoorUnlockComplete(old(View()))
    {
      store.SetFlag("isDoorUnlocked", true);
      phase := CanProceed;
    }

    method HandleDialogueEnd()
      modifies this, store
      ensures View() == DialogueEnd(old(View()))
    {
      match phase
      case Opening => HandleOpeningComplete();
      case BatTalking => HandleBatDialogueComplete();
      case ChichiNoticingCat => HandleChichiNoticeComplete();
      case DeliceTalking => HandleDeliceDialogueComplete();
      case BatLeaving => HandleBatLeavingComplete();
      case DoorUnlocking => HandleDoorUnlockComplete();
      case Exploration =>
      case DeliceAppeared =>
      case CanProceed =>
    }

    /** The waiting delayed callback runs. */
    method FireTimer()
      modifies this, store
      ensures View() == Fired(old(View()))
    {
      match pending
      case None =>
      case Some(OpeningDelay) =>
        store.StartDialogue(WakeUp);
        pending := None;
      case Some(DeliceReveal) =>
        store.SetNPCVisible("delice", true);
        store.SetFlag("hasMetDelice", true);
        phase := DeliceAppeared;
        pending := Some(NoticeCatDelay);
      case Some(NoticeCatDelay) =>
        store.StartDialogue(NoticeCat);
        phase := ChichiNoticingCat;
        pending := None;
      case Some(BatFadeDelay) =>
        store.SetNPCVisible("bat", false);
        store.StartDialogue(DoorDescription);
        phase := DoorUnlocking;
        pending := None;
    }

    /** The dialogue box's Next, wired to the scene's dialogue-end handler. */
    method PressNext()
      modifies this, store
      ensures View() == Pressed(old(View()))
    {
      if !store.isDialogueActive {
        return;
      }
      var ended := DialogueBox.HandleNext(store, true);
      if ended {
        HandleDialogueEnd();
      }
    }

    /** One run of the movement interval's body (with the exit test on the unclamped x). */
    method MovementTick(keys: set<Key>)
      modifies store
      ensures store.State() == Tick(old(store.State()), keys)
    {
      var deltaX, deltaY := 0, 0;
      if W in keys || ArrowUp in keys { deltaY := deltaY - MoveSpeed; }
      if S in keys || ArrowDown in keys { deltaY := deltaY + MoveSpeed; }
      if A in keys || ArrowLeft in keys { deltaX := deltaX - MoveSpeed; }
      if D in keys || ArrowRight in keys { deltaX := deltaX + MoveSpeed; }
      if deltaX != 0 || deltaY != 0 {
        var newX := Clamp(store.playerPosition.x + deltaX, MinX, MaxX);
        var newY := Clamp(store.playerPosition.y + deltaY, MinY, MaxY);
        if newX > DoorX && !Truthy(store.flags, "isDoorUnlocked") {
          return;
        }
        if store.playerPosition.x + deltaX > MaxX && Truthy(store.flags, "isDoorUnlocked") {
          store.NextAct();
          return;
        }
        store.SetPlayerPosition(newX, newY);
      }
    }

    /** One run of the movement interval's body as written (the exit test on the clamped x). */
    method MovementTickAsWritten(keys: set<Key>)
      modifies store
      ensures store.State() == TickAsWritten(old(store.State()), keys)
    {
      var deltaX, deltaY := 0, 0;
      if W in keys || ArrowUp in keys { deltaY := deltaY - MoveSpeed; }
      if S in keys || ArrowDown in keys { deltaY := deltaY + MoveSpeed; }
      if A in keys || ArrowLeft in keys { deltaX := deltaX - MoveSpeed; }
      if D in keys || ArrowRight in keys { deltaX := deltaX + MoveSpeed; }
      if deltaX != 0 || deltaY != 0 {
        var newX := Clamp(store.playerPosition.x + deltaX, MinX, MaxX);
        var newY := Clamp(store.playerPosition.y + deltaY, MinY, MaxY);
        var unlocked := Truthy(store.flags, "isDoorUnlocked");
        if newX > DoorX && !unlocked {
          return;
        }
        if newX > MaxX && unlocked {
          // The call of nextAct here can never run: newX was clamped to at most MaxX.
          assert false;
        }
        store.SetPlayerPosition(newX, newY);
      }
    }

    /** The movement effect for the held keys. */
    method Walk(keys: set<Key>)
      modifies store
      ensures View() == Walked(old(View()), keys)
    {
      if store.isDialogueActive || keys == {} {
        store.StopPlayer();
        return;
      }
      MovementTick(keys);
    }

    /** The bat-collision effect. */
    method BatCollisionCheck()
      modifies this, store
      ensures View() == BatEffect(old(View()))
    {
      if !("bat" in store.npcStates) || !store.npcStates["bat"].visible
         || Truthy(store.flags, "hasTalkedToBat") || store.isDialogueActive {
        return;
      }
      var bat := store.npcStates["bat"];
      if bat.position.Some? && CheckCollision(store.playerPosition, bat.position.value, BatReach) {
        HandleBatClick();
      }
    }

    /** One event, then the bat-collision effect, while the scene is on screen. */
    method OnEvent(e: Event)
      modifies this, store
      ensures View() == Step(old(View()), e)
    {
      if store.currentAct == 2 || store.currentAct == 3 {
        return;
      }
      match e {
        case PressNext => PressNext();
        case TimerFires => FireTimer();
        case ClickBat =>
          if "bat" in store.npcStates && store.npcStates["bat"].visible && !batFadingOut {
            HandleBatClick();
          }
        case MoveTick(keys) => Walk(keys);
      }
      if store.currentAct != 2 && store.currentAct != 3 {
        BatCollisionCheck();
      }
    }
  }
}
