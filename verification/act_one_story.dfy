/**
 * What the Act One scene guarantees over any sequence of events
 * (chichi/src/components/Scenes/ActOne.jsx).
 *
 * `Inv` ties the story phase to the dialogue state, the waiting timer, the
 * bat's fade and the story flags.  It holds when the scene mounts on a fresh
 * store and every `Step` keeps it, so it holds after any run of events.  From
 * it follow the order of the phases, the order in which the flags are set,
 * and that the bat's dialogue is never triggered twice.
 */
module ActOneStory {
  import opened Wrappers
  import opened Dialogues
  import opened GameStore
  import opened ActOne

  /** The scene's local state agrees with the phase. */
  predicate PhaseShape(w: Scene) {
    var active := w.store.isDialogueActive;
    match w.phase
    case Opening =>
      !w.batFadingOut && (if active then w.pending == None else w.pending == Some(OpeningDelay))
    case Exploration => !active && w.pending == None && !w.batFadingOut
    case BatTalking =>
      !w.batFadingOut && (if active then w.pending == None else w.pending == Some(DeliceReveal))
    case DeliceAppeared => !active && w.pending == Some(NoticeCatDelay) && !w.batFadingOut
    case ChichiNoticingCat => active && w.pending == None && !w.batFadingOut
    case DeliceTalking => active && w.pending == None && !w.batFadingOut
    case BatLeaving =>
      if active then w.pending == None && !w.batFadingOut
      else w.pending == Some(BatFadeDelay) && w.batFadingOut
    case DoorUnlocking => active && w.pending == None && w.batFadingOut
    case CanProceed => !active && w.pending == None && w.batFadingOut
  }

  /** Each act-1 flag is set exactly from the phase at which the story sets it. */
  predicate FlagsShape(w: Scene) {
    var f := w.store.flags;
    && (Truthy(f, "hasTalkedToBat") <==>
          Rank(w.phase) > Rank(BatTalking) || (w.phase == BatTalking && !w.store.isDialogueActive))
    && (Truthy(f, "hasMetDelice") <==> Rank(w.phase) >= Rank(DeliceAppeared))
    && (Truthy(f, "hasTalkedToDelice") <==> Rank(w.phase) >= Rank(BatLeaving))
    && (Truthy(f, "isDoorUnlocked") <==> w.phase == CanProceed)
  }

  ghost predicate Inv(w: Scene) {
    && Consistent(w.store)
    && (w.store.currentAct == 1 || (w.store.currentAct == 2 && w.phase == CanProceed))
    && PhaseShape(w)
    && FlagsShape(w)
    && InRoom(w.store)
  }

  /** The scene as it mounts when the start button has just been pressed. */
  function Start(): Scene {
    Mounted(InitialState.(gameStarted := true))
  }

  lemma StartInv()
    ensures Inv(Start())
  {
    InitialStateConsistent();
    var s := InitialState.(gameStarted := true);
    assert Consistent(s);
    assert !Truthy(s.flags, "hasWokenUp");
    assert !Truthy(s.flags, "hasTalkedToBat") && !Truthy(s.flags, "hasMetDelice");
    assert !Truthy(s.flags, "hasTalkedToDelice") && !Truthy(s.flags, "isDoorUnlocked");
  }

  // ---------------------------------------------------------------
  // Preservation, event by event
  // ---------------------------------------------------------------

  /** The dialogue that has just ended, with the scene as it stood. */
  ghost predicate EndingIn(w: Scene, p: Phase) {
    Inv(w) && OnScreen(w) && w.store.isDialogueActive && w.phase == p
  }

  lemma EndInOpeningInv(w: Scene)
    requires EndingIn(w, Opening)
    ensures Inv(DialogueEnd(w.(store := Ended(w.store))))
  {
  }

  lemma EndInBatTalkingInv(w: Scene)
    requires EndingIn(w, BatTalking)
    ensures Inv(DialogueEnd(w.(store := Ended(w.store))))
  {
  }

  lemma EndInChichiNoticingCatInv(w: Scene)
    requires EndingIn(w, ChichiNoticingCat)
    ensures Inv(DialogueEnd(w.(store := Ended(w.store))))
  {
  }

  lemma EndInDeliceTalkingInv(w: Scene)
    requires EndingIn(w, DeliceTalking)
    ensures Inv(DialogueEnd(w.(store := Ended(w.store))))
  {
  }

  lemma EndInBatLeavingInv(w: Scene)
    requires EndingIn(w, BatLeaving)
    ensures Inv(DialogueEnd(w.(store := Ended(w.store))))
  {
  }

  lemma EndInDoorUnlockingInv(w: Scene)
    requires EndingIn(w, DoorUnlocking)
    ensures Inv(DialogueEnd(w.(store := Ended(w.store))))
  {
  }

  lemma DialogueEndInv(w: Scene)
    requires Inv(w) && OnScreen(w) && w.store.isDialogueActive
    ensures Inv(DialogueEnd(w.(store := Ended(w.store))))
  {
    match w.phase
    case Opening => EndInOpeningInv(w);
    case BatTalking => EndInBatTalkingInv(w);
    case ChichiNoticingCat => EndInChichiNoticingCatInv(w);
    case DeliceTalking => EndInDeliceTalkingInv(w);
    case BatLeaving => EndInBatLeavingInv(w);
    case DoorUnlocking => EndInDoorUnlockingInv(w);
    case Exploration =>
    case DeliceAppeared =>
    case CanProceed =>
  }

  lemma PressedInv(w: Scene)
    requires Inv(w) && OnScreen(w)
    ensures Inv(Pressed(w))
  {
    if w.store.isDialogueActive {
      var (after, more) := Advanced(w.store);
      if !more {
        DialogueEndInv(w);
      }
    }
  }

  lemma FireOpeningDelayInv(w: Scene)
    requires Inv(w) && OnScreen(w) && w.pending == Some(OpeningDelay)
    ensures Inv(Fired(w))
  {
  }

  lemma FireDeliceRevealInv(w: Scene)
    requires Inv(w) && OnScreen(w) && w.pending == Some(DeliceReveal)
    ensures Inv(Fired(w))
  {
  }

  lemma FireNoticeCatDelayInv(w: Scene)
    requires Inv(w) && OnScreen(w) && w.pending == Some(NoticeCatDelay)
    ensures Inv(Fired(w))
  {
  }

  lemma FireBatFadeDelayInv(w: Scene)
    requires Inv(w) && OnScreen(w) && w.pending == Some(BatFadeDelay)
    ensures Inv(Fired(w))
  {
  }

  lemma FiredInv(w: Scene)
    requires Inv(w) && OnScreen(w)
    ensures Inv(Fired(w))
  {
    match w.pending
    case None =>
    case Some(OpeningDelay) => FireOpeningDelayInv(w);
    case Some(DeliceReveal) => FireDeliceRevealInv(w);
    case Some(NoticeCatDelay) => FireNoticeCatDelayInv(w);
    case Some(BatFadeDelay) => FireBatFadeDelayInv(w);
  }

  lemma BatClickedInv(w: Scene)
    requires Inv(w) && OnScreen(w)
    ensures Inv(BatClicked(w))
  {
  }

  lemma WalkedInv(w: Scene, keys: set<Key>)
    requires Inv(w) && OnScreen(w)
    ensures Inv(Walked(w, keys))
  {
    if !(w.store.isDialogueActive || keys == {}) {
      TickKeepsInRoom(w.store, keys);
      TickEffect(w.store, keys);
    }
  }

  lemma HandleInv(w: Scene, e: Event)
    requires Inv(w) && OnScreen(w)
    ensures Inv(Handle(w, e))
  {
    match e
    case PressNext => PressedInv(w);
    case TimerFires => FiredInv(w);
    case ClickBat => BatClickedInv(w);
    case MoveTick(keys) => WalkedInv(w, keys);
  }

  /** Every step keeps the invariant. */
  lemma StepInv(w: Scene, e: Event)
    requires Inv(w)
    ensures Inv(Step(w, e))
  {
    if OnScreen(w) {
      HandleInv(w, e);
      var w1 := Handle(w, e);
      if OnScreen(w1) && BatTouched(w1) {
        BatClickedInv(w1);
        assert Step(w, e) == BatClicked(w1);
      } else {
        assert Step(w, e) == w1;
      }
    }
  }

  /** Any run of events from a state that satisfies the invariant keeps it. */
  lemma {:induction false} RunInv(w: Scene, es: seq<Event>)
    requires Inv(w)
    ensures Inv(Run(w, es))
    decreases |es|
  {
    if es != [] {
      StepInv(w, es[0]);
      RunInv(Step(w, es[0]), es[1..]);
    }
  }

  // ---------------------------------------------------------------
  // The order of the story
  // ---------------------------------------------------------------

  /**
   * q can follow p in one step: the same phase, the next one, or the bat's
   * dialogue straight from the opening (the bat can be met before, or at the
   * moment, the opening dialogue is over).
   */
  predicate Follows(p: Phase, q: Phase) {
    q == p || Rank(q) == Rank(p) + 1 || (p == Opening && q == BatTalking)
  }

  lemma DialogueEndFollows(w: Scene)
    ensures Follows(w.phase, DialogueEnd(w).phase)
  {
  }

  lemma FiredFollows(w: Scene)
    requires PhaseShape(w)
    ensures Follows(w.phase, Fired(w).phase)
  {
  }

  lemma BatClickedFollows(w: Scene)
    requires FlagsShape(w)
    ensures Follows(w.phase, BatClicked(w).phase)
  {
    if !Truthy(w.store.flags, "hasTalkedToBat") && !w.store.isDialogueActive {
      assert Rank(w.phase) <= Rank(Exploration);
    }
  }

  /** The bat can only be touched before its dialogue, so touching it moves the story on by at most two. */
  lemma BatTouchedEarly(w: Scene)
    requires FlagsShape(w) && BatTouched(w)
    ensures w.phase == Opening || w.phase == Exploration
    ensures BatClicked(w).phase == BatTalking
  {
  }

  lemma HandleFollows(w: Scene, e: Event)
    requires Inv(w)
    ensures Follows(w.phase, Handle(w, e).phase)
  {
    match e
    case PressNext =>
      if w.store.isDialogueActive && !Advanced(w.store).1 {
        DialogueEndFollows(w.(store := Advanced(w.store).0));
      }
    case TimerFires => FiredFollows(w);
    case ClickBat => BatClickedFollows(w);
    case MoveTick(keys) =>
  }

  /** Each step stays in its phase or moves one phase along the story. */
  lemma StepFollowsStory(w: Scene, e: Event)
    requires Inv(w)
    ensures Follows(w.phase, Step(w, e).phase)
  {
    if OnScreen(w) {
      HandleFollows(w, e);
      var w1 := Handle(w, e);
      if OnScreen(w1) && BatTouched(w1) {
        HandleInv(w, e);
        BatTouchedEarly(w1);
        assert Step(w, e) == BatClicked(w1);
      } else {
        assert Step(w, e) == w1;
      }
    }
  }

  /** Along any run the phase never goes back. */
  lemma {:induction false} RunNeverGoesBack(w: Scene, es: seq<Event>)
    requires Inv(w)
    ensures Rank(Run(w, es).phase) >= Rank(w.phase)
    decreases |es|
  {
    if es != [] {
      StepFollowsStory(w, es[0]);
      StepInv(w, es[0]);
      RunNeverGoesBack(Step(w, es[0]), es[1..]);
    }
  }

  /** The flags the story sets, in the order it sets them. */
  lemma FlagsShapeOrder(w: Scene)
    requires FlagsShape(w)
    ensures var f := w.store.flags;
            && (Truthy(f, "isDoorUnlocked") ==> Truthy(f, "hasTalkedToDelice"))
            && (Truthy(f, "hasTalkedToDelice") ==> Truthy(f, "hasMetDelice"))
            && (Truthy(f, "hasMetDelice") ==> Truthy(f, "hasTalkedToBat"))
  {
  }

  /**
   * Whatever happens after the start button, the bat has been talked to
   * before Delice appears, Delice appears before she is talked to, and she
   * is talked to before the door unlocks; the door is unlocked exactly in the
   * last phase.
   */
  lemma FlagsInStoryOrder(es: seq<Event>)
    ensures var f := Run(Start(), es).store.flags;
            && (Truthy(f, "isDoorUnlocked") ==> Truthy(f, "hasTalkedToDelice"))
            && (Truthy(f, "hasTalkedToDelice") ==> Truthy(f, "hasMetDelice"))
            && (Truthy(f, "hasMetDelice") ==> Truthy(f, "hasTalkedToBat"))
            && (Truthy(f, "isDoorUnlocked") <==> Run(Start(), es).phase == CanProceed)
  {
    StartInv();
    RunInv(Start(), es);
    FlagsShapeOrder(Run(Start(), es));
  }

  // ---------------------------------------------------------------
  // Flags only rise; the bat speaks once
  // ---------------------------------------------------------------

  lemma DialogueEndKeepsFlag(w: Scene, f: string)
    requires Truthy(w.store.flags, f)
    ensures Truthy(DialogueEnd(w).store.flags, f)
  {
  }

  lemma RevealKeepsFlag(w: Scene, f: string)
    requires w.pending == Some(DeliceReveal)
    requires Truthy(w.store.flags, f)
    ensures Truthy(Fired(w).store.flags, f)
  {
    var s1 := WithNpcVisible(w.store, "delice", true);
    assert s1.flags == w.store.flags;
  }

  lemma FadeKeepsFlag(w: Scene, f: string)
    requires w.pending == Some(BatFadeDelay)
    requires Truthy(w.store.flags, f)
    ensures Truthy(Fired(w).store.flags, f)
  {
    assert WithNpcVisible(w.store, "bat", false).flags == w.store.flags;
  }

  lemma FiredKeepsFlag(w: Scene, f: string)
    requires Truthy(w.store.flags, f)
    ensures Truthy(Fired(w).store.flags, f)
  {
    match w.pending
    case None =>
    case Some(OpeningDelay) =>
    case Some(DeliceReveal) => RevealKeepsFlag(w, f);
    case Some(NoticeCatDelay) =>
    case Some(BatFadeDelay) => FadeKeepsFlag(w, f);
  }

  lemma HandleKeepsFlag(w: Scene, e: Event, f: string)
    requires Truthy(w.store.flags, f)
    ensures Truthy(Handle(w, e).store.flags, f)
  {
    match e
    case PressNext =>
      if w.store.isDialogueActive && !Advanced(w.store).1 {
        DialogueEndKeepsFlag(w.(store := Advanced(w.store).0), f);
      }
    case TimerFires => FiredKeepsFlag(w, f);
    case ClickBat =>
    case MoveTick(keys) => TickEffect(w.store, keys);
  }

  /** No step clears a flag that is set: the scene only ever sets flags to true. */
  lemma StepKeepsFlag(w: Scene, e: Event, f: string)
    requires Truthy(w.store.flags, f)
    ensures Truthy(Step(w, e).store.flags, f)
  {
    if OnScreen(w) {
      HandleKeepsFlag(w, e, f);
    }
  }

  lemma {:induction false} RunKeepsFlag(w: Scene, es: seq<Event>, f: string)
    requires Truthy(w.store.flags, f)
    ensures Truthy(Run(w, es).store.flags, f)
    decreases |es|
  {
    if es != [] {
      StepKeepsFlag(w, es[0], f);
      RunKeepsFlag(Step(w, es[0]), es[1..], f);
    }
  }

  /**
   * The bat effect fires exactly when the bat is visible, not yet talked to,
   * no dialogue runs and the player is within 60 of it on both axes; it then
   * starts the bat's blocking dialogue in phase batTalking.
   */
  lemma BatTrigger(w: Scene)
    ensures BatEffect(w) != w <==> BatTouched(w)
    ensures BatTouched(w) ==>
              && BatEffect(w).phase == BatTalking
              && BatEffect(w).store.isDialogueActive
              && BatEffect(w).store.dialogueQueue == BlockDoor
              && BatEffect(w).store.currentDialogueIndex == 0
  {
  }

  /**
   * Once the bat has been talked to, neither touching nor clicking it does
   * anything again, whatever happens afterwards.
   */
  lemma BatNeverRetriggers(w: Scene, es: seq<Event>)
    requires Truthy(w.store.flags, "hasTalkedToBat")
    ensures var v := Run(w, es);
            BatEffect(v) == v && BatClicked(v) == v && !BatTouched(v)
  {
    RunKeepsFlag(w, es, "hasTalkedToBat");
  }

  lemma DialogueEndUnlocks(w: Scene)
    requires !DoorUnlocked(w.store) && DoorUnlocked(DialogueEnd(w).store)
    ensures w.phase == DoorUnlocking
  {
  }

  lemma FiredKeepsLock(w: Scene)
    requires !DoorUnlocked(w.store)
    ensures !DoorUnlocked(Fired(w).store)
  {
    match w.pending
    case None =>
    case Some(OpeningDelay) =>
    case Some(DeliceReveal) =>
      assert WithNpcVisible(w.store, "delice", true).flags == w.store.flags;
    case Some(NoticeCatDelay) =>
    case Some(BatFadeDelay) =>
      assert WithNpcVisible(w.store, "bat", false).flags == w.store.flags;
  }

  /**
   * Only the end of the door narration unlocks the door: a step that turns
   * isDoorUnlocked on is a press of Next on the last line in phase
   * doorUnlocking.
   */
  lemma DoorUnlocksOnlyAfterNarration(w: Scene, e: Event)
    requires !DoorUnlocked(w.store) && DoorUnlocked(Step(w, e).store)
    ensures w.phase == DoorUnlocking && e == PressNext
    ensures w.store.isDialogueActive && !Advanced(w.store).1
  {
    var w1 := Handle(w, e);
    assert DoorUnlocked(w1.store) by {
      if OnScreen(w1) && BatTouched(w1) {
        assert Step(w, e) == BatClicked(w1);
      }
    }
    match e
    case PressNext =>
      if w.store.isDialogueActive && !Advanced(w.store).1 {
        DialogueEndUnlocks(w.(store := Advanced(w.store).0));
      }
    case TimerFires => FiredKeepsLock(w);
    case ClickBat =>
    case MoveTick(keys) => TickEffect(w.store, keys);
  }

  /**
   * Once the door is open, walking right from the room's right edge leaves
   * Act One: the act becomes 2 and the scene goes off screen.
   */
  lemma OpenDoorLeadsToActTwo(w: Scene)
    requires Inv(w) && OnScreen(w) && w.phase == CanProceed
    requires w.store.playerPosition.x == MaxX
    ensures Step(w, MoveTick({D})).store.currentAct == 2
    ensures !OnScreen(Step(w, MoveTick({D})))
  {
    ExitThroughOpenDoor(w.store);
  }

  /**
   * The movement step as written never changes the act, in any state.
   */
  lemma WalkAsWrittenStaysInAct(w: Scene, keys: set<Key>)
    ensures WalkedAsWritten(w, keys).store.currentAct == w.store.currentAct
  {
    if !(w.store.isDialogueActive || keys == {}) {
      ExitUnreachableAsWritten(w.store, keys);
    }
  }

  /**
   * As written, the open door does not let the player out: in phase
   * canProceed at the room's right edge, a right step leaves Chichi where
   * she stands, in Act One, with the scene still on screen.
   */
  lemma OpenDoorAsWrittenStays(w: Scene)
    requires Inv(w) && OnScreen(w) && w.phase == CanProceed
    requires w.store.playerPosition.x == MaxX
    ensures WalkedAsWritten(w, {D}).store.currentAct == 1
    ensures WalkedAsWritten(w, {D}).store.playerPosition == w.store.playerPosition
    ensures OnScreen(WalkedAsWritten(w, {D}))
  {
    assert Delta({D}) == (MoveSpeed, 0);
  }
}
