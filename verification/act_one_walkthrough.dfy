/**
 * A walkthrough of Act One: the script a player follows from the start
 * button to the open door, proved to reach it.
 *
 * The script waits for the opening timer, reads the wake-up lines, clicks
 * the bat, reads its lines, waits for Delice and for Chichi to notice the
 * cat, reads the three dialogues that follow, waits for the bat to fade and
 * reads the door's narration.  Chichi does not move, so the bat is reached
 * by clicking it rather than by touching it.
 */
module ActOneWalkthrough {
  import opened Wrappers
  import opened Dialogues
  import opened GameStore
  import opened ActOne
  import opened ActOneStory

  /** n presses of Next. */
  function Presses(n: nat): (es: seq<Event>)
    ensures |es| == n
  {
    if n == 0 then [] else [PressNext] + Presses(n - 1)
  }

  /** Running two scripts one after the other is running their concatenation. */
  lemma {:induction false} RunAppend(w: Scene, a: seq<Event>, b: seq<Event>)
    ensures Run(w, a + b) == Run(Run(w, a), b)
    decreases |a|
  {
    if a == [] {
      assert a + b == b;
    } else {
      assert (a + b)[0] == a[0];
      assert (a + b)[1..] == a[1..] + b;
      RunAppend(Step(w, a[0]), a[1..], b);
    }
  }

  /** Running one event and then a script. */
  lemma RunCons(w: Scene, e: Event, es: seq<Event>)
    ensures Run(w, [e] + es) == Run(Step(w, e), es)
  {
    assert ([e] + es)[1..] == es;
  }

  /** The bat, if it has a position, is out of Chichi's reach. */
  predicate BatOutOfReach(s: StoreState) {
    !("bat" in s.npcStates && s.npcStates["bat"].position.Some?
      && CheckCollision(s.playerPosition, s.npcStates["bat"].position.value, BatReach))
  }

  /** Chichi and the NPCs are where the game put them. */
  predicate Undisturbed(s: StoreState) {
    s.npcStates == InitialNpcs && s.playerPosition == InitialState.playerPosition
  }

  lemma UndisturbedOutOfReach(s: StoreState)
    requires Undisturbed(s)
    ensures BatOutOfReach(s)
  {
  }

  /**
   * A store as the start button leaves it: consistent, in Act One, no
   * dialogue, Chichi and the NPCs in their places and no Act One flag set.
   */
  ghost predicate Fresh(s: StoreState) {
    && Consistent(s) && s.currentAct == 1 && !s.isDialogueActive && Undisturbed(s)
    && !Truthy(s.flags, "hasWokenUp") && !Truthy(s.flags, "hasTalkedToBat")
    && !Truthy(s.flags, "hasMetDelice") && !Truthy(s.flags, "hasTalkedToDelice")
    && !Truthy(s.flags, "isDoorUnlocked")
  }

  /** The scene mounted on a fresh store is in its opening, waiting for the opening timer. */
  lemma FreshMountInv(s: StoreState)
    requires Fresh(s)
    ensures Inv(Mounted(s)) && Mounted(s).pending == Some(OpeningDelay)
  {
  }

  /** The start button leaves the store fresh. */
  lemma StartIsFresh()
    ensures Fresh(Start().store)
  {
    StartInv();
  }

  /** Ending a dialogue leaves the act, Chichi and the NPCs alone. */
  lemma DialogueEndStaysPut(w: Scene)
    ensures DialogueEnd(w).store.currentAct == w.store.currentAct
    ensures DialogueEnd(w).store.playerPosition == w.store.playerPosition
    ensures DialogueEnd(w).store.npcStates == w.store.npcStates
  {
    match w.phase
    case Opening =>
    case BatTalking =>
    case ChichiNoticingCat =>
    case DeliceTalking =>
      var s1 := WithFlag(w.store, "hasTalkedToDelice", true);
      assert s1 == w.store.(flags := s1.flags);
    case BatLeaving =>
    case DoorUnlocking =>
    case Exploration =>
    case DeliceAppeared =>
    case CanProceed =>
  }

  /** Next on a line before the last moves the cursor on, and nothing else. */
  lemma EarlyPress(w: Scene)
    requires OnScreen(w) && w.store.isDialogueActive
    requires w.store.currentDialogueIndex + 1 < |w.store.dialogueQueue|
    ensures Step(w, PressNext)
            == w.(store := w.store.(currentDialogueIndex := w.store.currentDialogueIndex + 1))
  {
    assert Handle(w, PressNext) == Pressed(w);
  }

  /** Next on the last line ends the dialogue and runs the end handler; the bat cannot interrupt. */
  lemma LastPress(w: Scene)
    requires OnScreen(w) && w.store.isDialogueActive
    requires w.store.currentDialogueIndex + 1 == |w.store.dialogueQueue|
    requires Truthy(w.store.flags, "hasTalkedToBat") || BatOutOfReach(w.store)
    ensures Step(w, PressNext) == DialogueEnd(w.(store := Ended(w.store)))
  {
    var v := DialogueEnd(w.(store := Ended(w.store)));
    assert Handle(w, PressNext) == v;
    DialogueEndStaysPut(w.(store := Ended(w.store)));
    if Truthy(w.store.flags, "hasTalkedToBat") {
      DialogueEndKeepsFlag(w.(store := Ended(w.store)), "hasTalkedToBat");
    }
    assert !BatTouched(v);
  }

  /**
   * Pressing Next once per remaining line ends the running dialogue and runs
   * the scene's end handler, provided the bat cannot interrupt.
   */
  lemma {:induction false} PressesToEnd(w: Scene)
    requires OnScreen(w) && w.store.isDialogueActive
    requires w.store.currentDialogueIndex < |w.store.dialogueQueue|
    requires Truthy(w.store.flags, "hasTalkedToBat") || BatOutOfReach(w.store)
    ensures Run(w, Presses(|w.store.dialogueQueue| - w.store.currentDialogueIndex))
            == DialogueEnd(w.(store := Ended(w.store)))
    decreases |w.store.dialogueQueue| - w.store.currentDialogueIndex
  {
    var n := |w.store.dialogueQueue| - w.store.currentDialogueIndex;
    var w1 := Step(w, PressNext);
    RunCons(w, PressNext, Presses(n - 1));
    if n == 1 {
      LastPress(w);
    } else {
      EarlyPress(w);
      PressesToEnd(w1);
      assert Ended(w1.store) == Ended(w.store);
    }
  }

  /** The scene is showing the first line of q in phase p. */
  ghost predicate Playing(w: Scene, p: Phase, q: seq<Line>) {
    && Inv(w) && OnScreen(w) && w.phase == p
    && w.store.isDialogueActive && w.store.dialogueQueue == q && w.store.currentDialogueIndex == 0
  }

  /** No dialogue runs in phase p, and timer t is waiting. */
  ghost predicate Waiting(w: Scene, p: Phase, t: Timer) {
    Inv(w) && OnScreen(w) && w.phase == p && !w.store.isDialogueActive && w.pending == Some(t)
  }

  /** Reading a dialogue to its end: the end handler runs and the invariant holds. */
  lemma ReadThrough(w: Scene, q: seq<Line>, p: Phase)
    requires Playing(w, p, q) && q != []
    requires Truthy(w.store.flags, "hasTalkedToBat") || Undisturbed(w.store)
    ensures Run(w, Presses(|q|)) == DialogueEnd(w.(store := Ended(w.store)))
    ensures Inv(Run(w, Presses(|q|)))
  {
    if !Truthy(w.store.flags, "hasTalkedToBat") {
      UndisturbedOutOfReach(w.store);
    }
    PressesToEnd(w);
    RunInv(w, Presses(|q|));
  }

  lemma StoryWakesUp(s: StoreState)
    requires Fresh(s)
    ensures Playing(Run(Mounted(s), [TimerFires]), Opening, WakeUp)
    ensures Undisturbed(Run(Mounted(s), [TimerFires]).store)
  {
    var w := Mounted(s);
    FreshMountInv(s);
    StepInv(w, TimerFires);
    RunCons(w, TimerFires, []);
    assert [TimerFires] + [] == [TimerFires];
    var v := Fired(w);
    assert v.store == Started(w.store, WakeUp);
    assert Handle(w, TimerFires) == v;
    assert Step(w, TimerFires) == v;
  }

  lemma StoryExplores(w: Scene)
    requires Playing(w, Opening, WakeUp) && Undisturbed(w.store)
    ensures var v := Run(w, Presses(|WakeUp|));
            && Inv(v) && OnScreen(v) && v.phase == Exploration && Undisturbed(v.store)
            && Truthy(v.store.flags, "hasWokenUp")
  {
    ReadThrough(w, WakeUp, Opening);
    DialogueEndStaysPut(w.(store := Ended(w.store)));
  }

  lemma StoryMeetsBat(w: Scene)
    requires Inv(w) && OnScreen(w) && w.phase == Exploration && Undisturbed(w.store)
    ensures Playing(Run(w, [ClickBat]), BatTalking, BlockDoor)
    ensures Undisturbed(Run(w, [ClickBat]).store)
  {
    StepInv(w, ClickBat);
    RunCons(w, ClickBat, []);
    assert [ClickBat] + [] == [ClickBat];
    assert BatShown(w);
    var v := BatClicked(w);
    assert v.store == Started(w.store, BlockDoor);
    assert Handle(w, ClickBat) == v;
    assert Step(w, ClickBat) == v;
  }

  lemma StoryBatSpeaks(w: Scene)
    requires Playing(w, BatTalking, BlockDoor) && Undisturbed(w.store)
    ensures Waiting(Run(w, Presses(|BlockDoor|)), BatTalking, DeliceReveal)
  {
    ReadThrough(w, BlockDoor, BatTalking);
  }

  lemma DeliceRevealed(w: Scene)
    requires Waiting(w, BatTalking, DeliceReveal)
    ensures Waiting(Step(w, TimerFires), DeliceAppeared, NoticeCatDelay)
  {
    StepInv(w, TimerFires);
    var v := Fired(w);
    assert Handle(w, TimerFires) == v;
    assert Step(w, TimerFires) == v;
  }

  lemma CatNoticed(w: Scene)
    requires Waiting(w, DeliceAppeared, NoticeCatDelay)
    ensures Playing(Step(w, TimerFires), ChichiNoticingCat, NoticeCat)
  {
    StepInv(w, TimerFires);
    var v := Fired(w);
    assert v.store == Started(w.store, NoticeCat);
    assert Handle(w, TimerFires) == v;
    assert Step(w, TimerFires) == v;
  }

  lemma StoryDeliceAppears(w: Scene)
    requires Waiting(w, BatTalking, DeliceReveal)
    ensures Playing(Run(w, [TimerFires, TimerFires]), ChichiNoticingCat, NoticeCat)
  {
    DeliceRevealed(w);
    var w1 := Step(w, TimerFires);
    CatNoticed(w1);
    RunCons(w, TimerFires, [TimerFires]);
    RunCons(w1, TimerFires, []);
    assert [TimerFires] + [TimerFires] == [TimerFires, TimerFires];
    assert [TimerFires] + [] == [TimerFires];
  }

  lemma StoryNoticesCat(w: Scene)
    requires Playing(w, ChichiNoticingCat, NoticeCat)
    ensures Playing(Run(w, Presses(|NoticeCat|)), DeliceTalking, DeliceIntroduction)
  {
    ReadThrough(w, NoticeCat, ChichiNoticingCat);
  }

  lemma StoryMeetsDelice(w: Scene)
    requires Playing(w, DeliceTalking, DeliceIntroduction)
    ensures Playing(Run(w, Presses(|DeliceIntroduction|)), BatLeaving, AfterCatAppears)
  {
    ReadThrough(w, DeliceIntroduction, DeliceTalking);
  }

  lemma StoryBatSaysGoodbye(w: Scene)
    requires Playing(w, BatLeaving, AfterCatAppears)
    ensures Waiting(Run(w, Presses(|AfterCatAppears|)), BatLeaving, BatFadeDelay)
  {
    ReadThrough(w, AfterCatAppears, BatLeaving);
  }

  lemma StoryDoorGlows(w: Scene)
    requires Waiting(w, BatLeaving, BatFadeDelay)
    ensures Playing(Run(w, [TimerFires]), DoorUnlocking, DoorDescription)
  {
    StepInv(w, TimerFires);
    RunCons(w, TimerFires, []);
    assert [TimerFires] + [] == [TimerFires];
    var v := Fired(w);
    assert Handle(w, TimerFires) == v;
    assert Step(w, TimerFires) == v;
  }

  lemma StoryDoorOpens(w: Scene)
    requires Playing(w, DoorUnlocking, DoorDescription)
    ensures var v := Run(w, Presses(|DoorDescription|));
            Inv(v) && OnScreen(v) && v.phase == CanProceed
  {
    ReadThrough(w, DoorDescription, DoorUnlocking);
    DialogueEndStaysPut(w.(store := Ended(w.store)));
  }

  /** The walkthrough, in pieces. */
  function ToBat(): seq<Event> {
    [TimerFires] + Presses(|WakeUp|) + [ClickBat]
  }

  function ToCat(): seq<Event> {
    Presses(|BlockDoor|) + [TimerFires, TimerFires]
  }

  function ToFarewell(): seq<Event> {
    Presses(|NoticeCat|) + Presses(|DeliceIntroduction|) + Presses(|AfterCatAppears|)
  }

  function ToDoor(): seq<Event> {
    [TimerFires] + Presses(|DoorDescription|)
  }

  function Walkthrough(): seq<Event> {
    ToBat() + ToCat() + ToFarewell() + ToDoor()
  }

  lemma WalkToBat(s: StoreState)
    requires Fresh(s)
    ensures var w := Run(Mounted(s), ToBat());
            Playing(w, BatTalking, BlockDoor) && Undisturbed(w.store)
            && Truthy(w.store.flags, "hasWokenUp")
  {
    StoryWakesUp(s);
    var w1 := Run(Mounted(s), [TimerFires]);
    StoryExplores(w1);
    var w2 := Run(w1, Presses(|WakeUp|));
    StoryMeetsBat(w2);
    RunAppend(Mounted(s), [TimerFires], Presses(|WakeUp|));
    RunAppend(Mounted(s), [TimerFires] + Presses(|WakeUp|), [ClickBat]);
    assert Run(w2, [ClickBat]) == Step(w2, ClickBat);
    StepKeepsFlag(w2, ClickBat, "hasWokenUp");
  }

  lemma WalkToCat(w: Scene)
    requires Playing(w, BatTalking, BlockDoor) && Undisturbed(w.store)
    ensures Playing(Run(w, ToCat()), ChichiNoticingCat, NoticeCat)
  {
    StoryBatSpeaks(w);
    StoryDeliceAppears(Run(w, Presses(|BlockDoor|)));
    RunAppend(w, Presses(|BlockDoor|), [TimerFires, TimerFires]);
  }

  lemma WalkToFarewell(w: Scene)
    requires Playing(w, ChichiNoticingCat, NoticeCat)
    ensures Waiting(Run(w, ToFarewell()), BatLeaving, BatFadeDelay)
  {
    StoryNoticesCat(w);
    var w1 := Run(w, Presses(|NoticeCat|));
    StoryMeetsDelice(w1);
    var w2 := Run(w1, Presses(|DeliceIntroduction|));
    StoryBatSaysGoodbye(w2);
    RunAppend(w, Presses(|NoticeCat|), Presses(|DeliceIntroduction|));
    RunAppend(w, Presses(|NoticeCat|) + Presses(|DeliceIntroduction|), Presses(|AfterCatAppears|));
  }

  lemma WalkToDoor(w: Scene)
    requires Waiting(w, BatLeaving, BatFadeDelay)
    ensures var v := Run(w, ToDoor());
            Inv(v) && OnScreen(v) && v.phase == CanProceed
  {
    StoryDoorGlows(w);
    StoryDoorOpens(Run(w, [TimerFires]));
    RunAppend(w, [TimerFires], Presses(|DoorDescription|));
  }

  /** Four scripts one after the other. */
  lemma RunChain(w: Scene, a: seq<Event>, b: seq<Event>, c: seq<Event>, d: seq<Event>)
    ensures Run(w, a + b + c + d) == Run(Run(Run(Run(w, a), b), c), d)
    ensures Run(Run(w, a), b + c + d) == Run(Run(Run(Run(w, a), b), c), d)
  {
    RunAppend(w, a, b);
    RunAppend(w, a + b, c);
    RunAppend(w, a + b + c, d);
    RunAppend(Run(w, a), b, c);
    RunAppend(Run(w, a), b + c, d);
  }

  /** The walkthrough is its four pieces run one after the other. */
  lemma WalkthroughInPieces(s: StoreState)
    ensures Run(Mounted(s), Walkthrough())
            == Run(Run(Run(Run(Mounted(s), ToBat()), ToCat()), ToFarewell()), ToDoor())
    ensures Run(Mounted(s), Walkthrough())
            == Run(Run(Mounted(s), ToBat()), ToCat() + ToFarewell() + ToDoor())
  {
    RunChain(Mounted(s), ToBat(), ToCat(), ToFarewell(), ToDoor());
  }

  lemma WalkthroughEndsAtDoor(s: StoreState)
    requires Fresh(s)
    ensures var w := Run(Run(Run(Run(Mounted(s), ToBat()), ToCat()), ToFarewell()), ToDoor());
            Inv(w) && OnScreen(w) && w.phase == CanProceed
  {
    WalkToBat(s);
    var w1 := Run(Mounted(s), ToBat());
    WalkToCat(w1);
    var w2 := Run(w1, ToCat());
    WalkToFarewell(w2);
    WalkToDoor(Run(w2, ToFarewell()));
  }

  lemma WalkthroughWakesChichi(s: StoreState)
    requires Fresh(s)
    ensures Truthy(Run(Mounted(s), Walkthrough()).store.flags, "hasWokenUp")
  {
    WalkToBat(s);
    WalkthroughInPieces(s);
    RunKeepsFlag(Run(Mounted(s), ToBat()), ToCat() + ToFarewell() + ToDoor(), "hasWokenUp");
  }

  /** With the door open, every Act One flag after the first is set and no dialogue runs. */
  lemma OpenDoorFacts(w: Scene)
    requires Inv(w) && OnScreen(w) && w.phase == CanProceed
    ensures !w.store.isDialogueActive && w.store.currentAct == 1
    ensures Truthy(w.store.flags, "hasTalkedToBat") && Truthy(w.store.flags, "hasMetDelice")
    ensures Truthy(w.store.flags, "hasTalkedToDelice") && Truthy(w.store.flags, "isDoorUnlocked")
  {
  }

  /**
   * From a fresh Act One store, the walkthrough reaches the open door: the
   * door is unlocked, every Act One flag is set, no dialogue runs, and the
   * scene is still on screen, waiting for Chichi to walk out.
   */
  lemma WalkthroughOpensDoor(s: StoreState)
    requires Fresh(s)
    ensures var w := Run(Mounted(s), Walkthrough());
            && w.phase == CanProceed && OnScreen(w) && !w.store.isDialogueActive
            && w.store.currentAct == 1
            && Truthy(w.store.flags, "hasWokenUp")
            && Truthy(w.store.flags, "hasTalkedToBat")
            && Truthy(w.store.flags, "hasMetDelice")
            && Truthy(w.store.flags, "hasTalkedToDelice")
            && Truthy(w.store.flags, "isDoorUnlocked")
  {
    var w := Run(Mounted(s), Walkthrough());
    WalkthroughInPieces(s);
    WalkthroughEndsAtDoor(s);
    assert Inv(w) && OnScreen(w) && w.phase == CanProceed;
    OpenDoorFacts(w);
    WalkthroughWakesChichi(s);
  }

  /** In particular, from the start button. */
  lemma WalkthroughFromStart()
    ensures Run(Start(), Walkthrough()).phase == CanProceed
    ensures Truthy(Run(Start(), Walkthrough()).store.flags, "isDoorUnlocked")
  {
    StartIsFresh();
    WalkthroughOpensDoor(Start().store);
    assert Start() == Mounted(Start().store);
  }
}
