# chichi — a verified model of the Act One narrative engine

"chichi" (subtitled *Protocol: Reunion*) is a small React game. This project models its narrative engine:

- **The game store** (`useGameStore.js`). This is one state record, changed only through named actions: the dialogue queue and its cursor, the story flags, the act counter, the player's position and facing, and the NPC records.
- **The Act One scene** (`ActOne.jsx`). Its story-phase machine runs `opening → exploration → batTalking → deliceAppeared → chichiNoticingCat → deliceTalking → batLeaving → doorUnlocking → canProceed`. The scene also holds the bat trigger, the collision test and the per-tick movement step.
- **The dialogue data** (`dialogues.js`). These are the authored line records and the four-level lookup `getDialogue`.
- **The dialogue box** (`DialogueBox.jsx`). It turns a Next press into a `nextDialogue` call and emits the single "dialogue ended" callback. It also derives the progress label, the button label, and the colour and emoji fallbacks.

The files are:

- `wrappers.dfy`: an `Option` type.
- `dialogues.dfy` (module `Dialogues`): the authored data, `GetDialogue`, and lemmas about the data.
- `game_store.dfy` (module `GameStore`):
  - one pure function per store action, on a `StoreState` value;
  - the class `Store`, whose methods update the same fields in place, each proved to match its function;
  - lemmas about the dialogue protocol, flags, `resetGame` and `debugSkipToAct`.
- `dialogue_box.dfy` (module `DialogueBox`): `handleNext`, `handleChoice` and the key guard as methods on a `Store`, plus the display derivations.
- `act_one.dfy` (module `ActOne`):
  - the scene as a value `Scene(store, phase, batFadingOut, pending)`;
  - each handler as a function, and the total transition function `Step` over events: Next pressed, a timer firing, a click on the bat, a movement tick;
  - the class `ActOneScene`, which runs the same handlers in place on a `Store`.
- `act_one_story.dfy` (module `ActOneStory`): the scene invariant that every step preserves, phase order, flag order and monotonicity, the bat trigger, and the door.
- `act_one_walkthrough.dfy` (module `ActOneWalkthrough`): a concrete script of events that takes a freshly mounted scene from the opening to the unlocked door.

Every `setTimeout` callback of the scene becomes a pending `Timer`, which runs when a `TimerFires` event arrives. The movement interval becomes one `MoveTick(keys)` event per tick, with the held keys as its input. After every event, the bat-collision effect is re-evaluated.

## Model

| member | source | states |
|---|---|---|
| GameStore.InitialStateConsistent | chichi/src/store/useGameStore.js:15-66 | The initial state has no active dialogue, an empty queue and the cursor at 0. It satisfies the store invariant: every NPC record has a position and every story flag is present. |
| GameStore.FourteenFlags | chichi/src/store/useGameStore.js:28-48 | The initial state holds exactly fourteen story flags: five for act 1, four for act 2 and five for act 3. |
| GameStore.InitialFlagsByAct | chichi/src/store/useGameStore.js:28-48 | The initial flags are exactly the act-1, act-2 and act-3 flags, and all of them are false. |
| GameStore.ActAdvanced | chichi/src/store/useGameStore.js:81-87 | `nextAct`: the act becomes `min(act+1, 3)`, so it never exceeds 3. The scene becomes "entering". Nothing else changes. |
| GameStore.Started | chichi/src/store/useGameStore.js:107-111 | `startDialogue(q)` replaces the queue with `q`, resets the cursor to 0 and activates the dialogue. Any previous queue is discarded. Nothing else changes. |
| GameStore.Ended | chichi/src/store/useGameStore.js:149-153 | `endDialogue`: inactive, empty queue, cursor 0. Nothing else changes. |
| GameStore.Advanced | chichi/src/store/useGameStore.js:117-133 | `nextDialogue` answers true exactly when `index+1 < length`, and then only the cursor moves. Otherwise the dialogue ends. |
| GameStore.Trues | chichi/src/store/useGameStore.js:117-133 | A run of `n` "more" answers has length `n`. |
| GameStore.AdvanceToEnd | chichi/src/store/useGameStore.js:117-133 | From cursor `i` in a queue of length `L`, `L-i` advances answer true `L-i-1` times, then false, and leave the dialogue ended. |
| GameStore.QueueAnswersTrueThenFalse | chichi/src/store/useGameStore.js:107-133 | After `startDialogue(q)` with `q` non-empty, `q.length` advances answer `q.length − 1` trues and then one false. They end the dialogue. |
| GameStore.EmptyQueueEndsAtOnce | chichi/src/store/useGameStore.js:107-133 | After `startDialogue([])`, the first advance answers false and ends the dialogue. |
| GameStore.WithFlag | chichi/src/store/useGameStore.js:164-169 | `setFlag(name, v)` sets `flags[name]` to `v` and adds the key if it was missing. Every other flag and every other field is unchanged. |
| GameStore.WithFlags | chichi/src/store/useGameStore.js:179-184 | `setFlags(obj)` overrides exactly the keys of `obj`. Every other flag keeps its value. |
| GameStore.FlagValue | chichi/src/store/useGameStore.js:174 | `getFlag` is undefined (None) exactly for a missing key. It reads true exactly when the flag is truthy. |
| GameStore.FlagReadBack | chichi/src/store/useGameStore.js:164-174 | Reading back a flag just set gives the value set. Reading any other flag gives what it read before. |
| GameStore.SkippedToAct | chichi/src/store/useGameStore.js:278-305 | `debugSkipToAct(k)` sets the act to `k` and replaces the flags. Nothing else changes. All fourteen flags remain present. |
| GameStore.PresetFlags | chichi/src/store/useGameStore.js:279-299 | The preset for act 2 is the act-1 flags. The preset for act 3 is the act-1 and act-2 flags. Any other act has the empty preset. Every preset flag is true. |
| GameStore.ActFlagsDisjoint | chichi/src/store/useGameStore.js:28-48 | No flag belongs to two acts. |
| GameStore.OverlaidFlags | chichi/src/store/useGameStore.js:303 | Overlaying a preset on the initial flags keeps the same keys. An act-1 flag is true iff the act is 2 or 3, an act-2 flag iff the act is 3, and an act-3 flag is always false. |
| GameStore.SkippedToActFlags | chichi/src/store/useGameStore.js:278-305 | After `debugSkipToAct(k)`: an act-1 flag is true iff `k` is 2 or 3, an act-2 flag iff `k` is 3, and an act-3 flag is always false, whatever the flags were before. |
| GameStore.Positioned | chichi/src/store/useGameStore.js:193 | `setPlayerPosition(x, y)` changes only the position. |
| GameStore.Moved | chichi/src/store/useGameStore.js:198-205 | `movePlayer(dx, dy)` moves the player by exactly the deltas and sets moving. Facing becomes right if `dx>0`, left if `dx<0`, and is unchanged if `dx=0`. |
| GameStore.Stopped | chichi/src/store/useGameStore.js:210 | `stopPlayer` clears only the moving flag. |
| GameStore.WithNpcVisible | chichi/src/store/useGameStore.js:224-232 | `setNPCVisible(n, v)` changes only `n`'s visibility. Its position is kept, or is absent for a new name. Every other NPC is unchanged. |
| GameStore.WithNpcPosition | chichi/src/store/useGameStore.js:237-245 | `setNPCPosition(n, x, y)` changes only `n`'s position. Its visibility is kept, or is false for a new name. Every other NPC is unchanged. |
| GameStore.Store.constructor | chichi/src/store/useGameStore.js:69-72 | The store starts in exactly `initialState` and satisfies the store invariant. |
| GameStore.Store.NextAct | chichi/src/store/useGameStore.js:81-87 | In place: the new state is `ActAdvanced` of the old one. It preserves the store invariant. |
| GameStore.Store.StartDialogue | chichi/src/store/useGameStore.js:107-111 | In place: the new state is `Started(old, q)`. It preserves the store invariant. |
| GameStore.Store.NextDialogue | chichi/src/store/useGameStore.js:117-133 | In place: the new state and the answer are `Advanced(old)`. It preserves the store invariant. |
| GameStore.Store.GetCurrentDialogue | chichi/src/store/useGameStore.js:138-144 | Returns nothing exactly when the dialogue is inactive or the queue is empty. Otherwise it returns a line of the queue, the one under the cursor. |
| GameStore.Store.EndDialogue | chichi/src/store/useGameStore.js:149-153 | In place: the new state is `Ended(old)`. It preserves the store invariant. |
| GameStore.Store.SetFlag | chichi/src/store/useGameStore.js:164-169 | In place: `WithFlag`. Afterwards `getFlag(name)` is the value set, and every other `getFlag` is unchanged. It preserves the store invariant. |
| GameStore.Store.SetFlags | chichi/src/store/useGameStore.js:179-184 | In place: `WithFlags`. It preserves the store invariant. |
| GameStore.Store.GetFlag | chichi/src/store/useGameStore.js:174 | Reads `FlagValue` of the current state. |
| GameStore.Store.SetPlayerPosition | chichi/src/store/useGameStore.js:193 | In place: `Positioned`. It preserves the store invariant. |
| GameStore.Store.MovePlayer | chichi/src/store/useGameStore.js:198-205 | In place: `Moved`. It preserves the store invariant. |
| GameStore.Store.StopPlayer | chichi/src/store/useGameStore.js:210 | In place: `Stopped`. It preserves the store invariant. |
| GameStore.Store.SetNPCVisible | chichi/src/store/useGameStore.js:224-232 | In place: `WithNpcVisible`. It preserves the store invariant. |
| GameStore.Store.SetNPCPosition | chichi/src/store/useGameStore.js:237-245 | In place: `WithNpcPosition`. It preserves the store invariant. |
| GameStore.Store.ResetGame | chichi/src/store/useGameStore.js:273 | In place: the new state is exactly `initialState`, whatever the old one was, and it satisfies the store invariant. |
| GameStore.Store.DebugSkipToAct | chichi/src/store/useGameStore.js:278-305 | In place: `SkippedToAct(old, k)`. It preserves the store invariant. |
| Dialogues.GetDialogue | chichi/src/data/dialogues.js:207-214 | Returns the authored array when all four keys exist. Otherwise it returns `[]`. The warning is logged exactly when the act, the scene or the character is missing. A missing final key yields `[]` silently. |
| Dialogues.Act1SequencesWellFormed | chichi/src/data/dialogues.js:16-64 | Every line of the six act-1 arrays has a speaker and a text. Narration lines belong to the Narrator. No line offers choices. |
| Dialogues.Act2SequencesWellFormed | chichi/src/data/dialogues.js:72-140 | The same holds for the eight act-2 arrays. |
| Dialogues.Act3SequencesWellFormed | chichi/src/data/dialogues.js:142-185 | The same holds for the five act-3 arrays. |
| Dialogues.Act1Authored | chichi/src/data/dialogues.js:12-67 | Every act-1 key path leads to one of the six arrays the scene plays. |
| Dialogues.Act2Authored | chichi/src/data/dialogues.js:72-140 | Every act-2 key path leads to one of its eight arrays. |
| Dialogues.Act3Authored | chichi/src/data/dialogues.js:142-203 | Every act-3 key path leads to one of its five arrays. The letter is not an array. |
| Dialogues.Act1WellFormed | chichi/src/data/dialogues.js:16-64 | Every act-1 array is well formed and has 2 or 3 lines, so none is empty. |
| Dialogues.GetDialogueWellFormed | chichi/src/data/dialogues.js:207-214 | For any keys, `getDialogue` returns only well-formed lines without choices. |
| Dialogues.SceneArraysAreAuthored | chichi/src/data/dialogues.js:16-64 | The arrays the scene reads through `ACT1_DIALOGUES` are what `getDialogue` returns for the same keys, with no warning. |
| Dialogues.AliasesAreSubtrees | chichi/src/data/dialogues.js:217-219 | `ACT1_DIALOGUES`, `ACT2_DIALOGUES` and `ACT3_DIALOGUES` are exactly the three act subtrees. Only those three acts exist. |
| Dialogues.LetterIsNotADialogue | chichi/src/data/dialogues.js:187-209 | Asking past the letter's string returns `[]` and logs nothing. |
| DialogueBox.HandleNext | chichi/src/components/Game/DialogueBox.jsx:65-72 | One `nextDialogue` on the store. The end callback runs iff the store answered "over" and a callback was given. |
| DialogueBox.HandleKeyDown | chichi/src/components/Game/DialogueBox.jsx:90-102 | Space or Enter advances iff a dialogue is active. Any other key, or an inactive dialogue, leaves the store unchanged. The end callback runs only after an advance that ended the queue. |
| DialogueBox.HandleChoice | chichi/src/components/Game/DialogueBox.jsx:77-85 | The choice callback receives the id iff it exists, and the end callback runs iff it exists, always in that order. The store is not touched. |
| DialogueBox.TruesAllTrue | chichi/src/components/Game/DialogueBox.jsx:65-72 | Every answer in a run of "more" answers is true. |
| DialogueBox.EndSignalledOnce | chichi/src/components/Game/DialogueBox.jsx:65-72 | After `startDialogue(q)` with `q` non-empty, `q.length` presses end the dialogue. "Over" is answered at the last press and at no other, so the end callback runs exactly once. |
| DialogueBox.CurrentLine | chichi/src/components/Game/DialogueBox.jsx:60 | `dialogueQueue[currentDialogueIndex]` exists iff the cursor is inside the queue. It is then a line of the queue. |
| DialogueBox.RendersIffStoreHasLine | chichi/src/components/Game/DialogueBox.jsx:105-107 | The box renders iff the store's `getCurrentDialogue` has a line, and it then shows that line. |
| DialogueBox.ProgressOf | chichi/src/components/Game/DialogueBox.jsx:125 | The progress label is the one-based cursor over the queue length, with `1 <= shown <= total`. |
| DialogueBox.FooterOf | chichi/src/components/Game/DialogueBox.jsx:147-166 | A line with choices shows exactly its choices. Otherwise the button reads Next iff a later line exists and Close on the last line. |
| DialogueBox.CloseIffLastLine | chichi/src/components/Game/DialogueBox.jsx:125-152 | The button reads Close iff pressing it ends the dialogue, and iff the progress label reads total/total. |
| DialogueBox.SpeakerColour | chichi/src/components/Game/DialogueBox.jsx:119 | A known speaker gets its table colour. The fallback `#ffffff` is used iff the speaker is unknown. |
| DialogueBox.EmotionEmoji | chichi/src/components/Game/DialogueBox.jsx:122 | A missing, empty or unknown emotion gets `''`. A known emotion gets its table emoji, and nothing else yields an emoji. |
| DialogueBox.Act1SequencesStyled | chichi/src/data/dialogues.js:16-64 | Every act-1 line's speaker has a colour, and every emotion it names has an emoji. |
| DialogueBox.Act2SequencesStyled | chichi/src/data/dialogues.js:72-140 | The same holds for act 2. |
| DialogueBox.Act3SequencesStyled | chichi/src/data/dialogues.js:142-185 | The same holds for act 3. |
| DialogueBox.AuthoredLinesStyled | chichi/src/components/Game/DialogueBox.jsx:119-122 | Neither fallback is ever shown for a line `getDialogue` returns. |
| ActOne.CheckCollision | chichi/src/components/Scenes/ActOne.jsx:28-31 | True iff both axis distances are strictly below the threshold. |
| ActOne.CollisionSymmetric | chichi/src/components/Scenes/ActOne.jsx:28-31 | The collision test is symmetric in its two boxes. |
| ActOne.Delta | chichi/src/components/Scenes/ActOne.jsx:227-233 | Opposite keys cancel. Each axis moves by 0 or exactly `MOVE_SPEED`, in the direction of the key held without its opposite. |
| ActOne.Clamp | chichi/src/components/Scenes/ActOne.jsx:237-238 | The result lies in `[lo, hi]`. A value already inside is unchanged. |
| ActOne.ExitUnreachableAsWritten | chichi/src/components/Scenes/ActOne.jsx:237-251 | As written, no movement tick ever changes the act or the scene (see Findings). |
| ActOne.TickEffect | chichi/src/components/Scenes/ActOne.jsx:226-255 | For the corrected tick (see Findings): a zero delta changes nothing. A locked door refuses any candidate past x=700 whole, and y does not change either. With the door open, a candidate past x=750 advances the act. Any other non-zero move sets the position to the clamped candidate. Only a position change or the act advance happens. |
| ActOne.TickDiffersOnlyAtExit | chichi/src/components/Scenes/ActOne.jsx:237-251 | The tick as written and the corrected tick differ only when the door is open and the candidate passes x=750. There the corrected one advances the act and the written one parks the player at x=750. |
| ActOne.TickKeepsInRoom | chichi/src/components/Scenes/ActOne.jsx:237-244 | A tick keeps the player inside x∈[50,750], y∈[200,450], and at x≤700 while the door is locked. |
| ActOne.ExitThroughOpenDoor | chichi/src/components/Scenes/ActOne.jsx:246-251 | With the door open, a right step from x=750 calls `nextAct`: the act advances and the scene becomes "entering". |
| ActOne.Mounted | chichi/src/components/Scenes/ActOne.jsx:50-65 | The scene mounts in phase opening, with the bat not fading. The opening timer is pending iff Chichi has not woken up. |
| ActOne.ActOneScene.constructor | chichi/src/components/Scenes/ActOne.jsx:50-65 | The mounted component's view is `Mounted` of its store's state. |
| ActOne.ActOneScene.HandleOpeningComplete | chichi/src/components/Scenes/ActOne.jsx:70-73 | In place: `OpeningComplete`. The flag `hasWokenUp` is set and the phase becomes exploration. |
| ActOne.ActOneScene.HandleBatClick | chichi/src/components/Scenes/ActOne.jsx:78-83 | In place: `BatClicked`. The click is ignored once the bat has been talked to or while a dialogue runs. Otherwise `blockDoor` starts and the phase becomes batTalking. |
| ActOne.ActOneScene.HandleBatDialogueComplete | chichi/src/components/Scenes/ActOne.jsx:88-103 | In place: the flag `hasTalkedToBat` is set and the reveal of Delice is scheduled. |
| ActOne.ActOneScene.HandleChichiNoticeComplete | chichi/src/components/Scenes/ActOne.jsx:108-112 | In place: Delice's introduction starts, and the phase becomes deliceTalking. |
| ActOne.ActOneScene.HandleDeliceDialogueComplete | chichi/src/components/Scenes/ActOne.jsx:117-123 | In place: the flag `hasTalkedToDelice` is set, the bat's farewell starts, and the phase becomes batLeaving. |
| ActOne.ActOneScene.HandleBatLeavingComplete | chichi/src/components/Scenes/ActOne.jsx:128-139 | In place: the bat fades and the bat-gone callback is scheduled. |
| ActOne.ActOneScene.HandleDoorUnlockComplete | chichi/src/components/Scenes/ActOne.jsx:144-147 | In place: the flag `isDoorUnlocked` is set and the phase becomes canProceed. |
| ActOne.ActOneScene.HandleDialogueEnd | chichi/src/components/Scenes/ActOne.jsx:152-174 | In place: `DialogueEnd`, routed by the phase alone. Exploration, deliceAppeared and canProceed do nothing. |
| ActOne.ActOneScene.FireTimer | chichi/src/components/Scenes/ActOne.jsx:57-139 | In place: the pending callback runs. It is one of: the wake-up dialogue; Delice revealed with `hasMetDelice` set; the notice dialogue; or the bat hidden with the door narration started. |
| ActOne.ActOneScene.PressNext | chichi/src/components/Scenes/ActOne.jsx:328 | In place: `Pressed`. The press does nothing without a dialogue. Otherwise the store advances, and the dialogue-end handler runs iff the sequence is over. |
| ActOne.ActOneScene.MovementTick | chichi/src/components/Scenes/ActOne.jsx:226-255 | In place: the store becomes `Tick` of the old store, the corrected tick of Findings, computed through the store methods. |
| ActOne.ActOneScene.MovementTickAsWritten | chichi/src/components/Scenes/ActOne.jsx:226-255 | In place: the loop body as written. The store becomes `TickAsWritten` of the old store; the `nextAct` branch is shown dead. |
| ActOne.ActOneScene.Walk | chichi/src/components/Scenes/ActOne.jsx:220-258 | In place: `Walked`. The player stops during a dialogue or with no key held. Otherwise one tick runs. |
| ActOne.ActOneScene.BatCollisionCheck | chichi/src/components/Scenes/ActOne.jsx:263-269 | In place: `BatEffect`. The bat is clicked iff it is touched. |
| ActOne.ActOneScene.OnEvent | chichi/src/components/Scenes/ActOne.jsx:57-269 | In place: `Step`, meaning one event followed by the bat-collision effect. |
| ActOneStory.StartInv | chichi/src/store/useGameStore.js:15-66 | The scene mounted on `initialState` satisfies the scene invariant: a consistent store, act 1, phase and pending timer matching, flags matching the phase, player in the room. |
| ActOneStory.DialogueEndInv | chichi/src/components/Scenes/ActOne.jsx:152-174 | Ending a running dialogue in any phase preserves the invariant. |
| ActOneStory.EndInOpeningInv | chichi/src/components/Scenes/ActOne.jsx:70-73 | Ending the wake-up dialogue preserves the invariant. |
| ActOneStory.EndInBatTalkingInv | chichi/src/components/Scenes/ActOne.jsx:88-103 | Ending the bat's dialogue preserves the invariant. |
| ActOneStory.EndInChichiNoticingCatInv | chichi/src/components/Scenes/ActOne.jsx:108-112 | Ending the notice dialogue preserves the invariant. |
| ActOneStory.EndInDeliceTalkingInv | chichi/src/components/Scenes/ActOne.jsx:117-123 | Ending Delice's dialogue preserves the invariant. |
| ActOneStory.EndInBatLeavingInv | chichi/src/components/Scenes/ActOne.jsx:128-139 | Ending the farewell preserves the invariant. |
| ActOneStory.EndInDoorUnlockingInv | chichi/src/components/Scenes/ActOne.jsx:144-147 | Ending the door narration preserves the invariant. |
| ActOneStory.PressedInv | chichi/src/components/Game/DialogueBox.jsx:65-72 | A press of Next preserves the invariant. |
| ActOneStory.FireOpeningDelayInv | chichi/src/components/Scenes/ActOne.jsx:60-62 | The opening timer preserves the invariant. |
| ActOneStory.FireDeliceRevealInv | chichi/src/components/Scenes/ActOne.jsx:92-96 | The reveal of Delice preserves the invariant. |
| ActOneStory.FireNoticeCatDelayInv | chichi/src/components/Scenes/ActOne.jsx:98-101 | The notice timer preserves the invariant. |
| ActOneStory.FireBatFadeDelayInv | chichi/src/components/Scenes/ActOne.jsx:132-138 | The bat-gone timer preserves the invariant. |
| ActOneStory.FiredInv | chichi/src/components/Scenes/ActOne.jsx:57-139 | Any timer preserves the invariant. |
| ActOneStory.BatClickedInv | chichi/src/components/Scenes/ActOne.jsx:78-83 | A click on the bat preserves the invariant. |
| ActOneStory.WalkedInv | chichi/src/components/Scenes/ActOne.jsx:220-258 | The movement step preserves the invariant. |
| ActOneStory.HandleInv | chichi/src/components/Scenes/ActOne.jsx:57-269 | Every event preserves the invariant. |
| ActOneStory.StepInv | chichi/src/components/Scenes/ActOne.jsx:57-269 | Every step preserves the invariant, including the bat effect. Its act-2 case is reached only through the corrected exit of Findings. |
| ActOneStory.RunInv | chichi/src/components/Scenes/ActOne.jsx:57-269 | Every sequence of events preserves the invariant. |
| ActOneStory.DialogueEndFollows | chichi/src/components/Scenes/ActOne.jsx:152-174 | A dialogue end keeps the phase or moves it one phase forward. |
| ActOneStory.FiredFollows | chichi/src/components/Scenes/ActOne.jsx:88-139 | A timer keeps the phase or moves it one phase forward. |
| ActOneStory.BatClickedFollows | chichi/src/components/Scenes/ActOne.jsx:78-83 | A bat click keeps the phase, moves it one phase forward, or jumps from opening to batTalking. |
| ActOneStory.BatTouchedEarly | chichi/src/components/Scenes/ActOne.jsx:263-269 | The bat can be touched only in the opening or exploration phase, and touching it moves the phase to batTalking. |
| ActOneStory.HandleFollows | chichi/src/components/Scenes/ActOne.jsx:57-269 | No event moves the phase backwards or skips a phase, except opening → batTalking. |
| ActOneStory.StepFollowsStory | chichi/src/components/Scenes/ActOne.jsx:6-13 | Every step follows the documented phase order. |
| ActOneStory.RunNeverGoesBack | chichi/src/components/Scenes/ActOne.jsx:6-13 | Along any run the story phase never goes back. |
| ActOneStory.FlagsShapeOrder | chichi/src/components/Scenes/ActOne.jsx:88-147 | Under the invariant: `isDoorUnlocked` ⇒ `hasTalkedToDelice` ⇒ `hasMetDelice` ⇒ `hasTalkedToBat`. |
| ActOneStory.FlagsInStoryOrder | chichi/src/components/Scenes/ActOne.jsx:88-147 | On every run from the start, the act-1 flags are set in story order, and the door is unlocked iff the phase is canProceed. |
| ActOneStory.DialogueEndKeepsFlag | chichi/src/components/Scenes/ActOne.jsx:152-174 | No dialogue-end handler clears a flag. |
| ActOneStory.RevealKeepsFlag | chichi/src/components/Scenes/ActOne.jsx:92-96 | Revealing Delice clears no flag. |
| ActOneStory.FadeKeepsFlag | chichi/src/components/Scenes/ActOne.jsx:132-138 | Hiding the bat clears no flag. |
| ActOneStory.FiredKeepsFlag | chichi/src/components/Scenes/ActOne.jsx:57-139 | No timer clears a flag. |
| ActOneStory.HandleKeepsFlag | chichi/src/components/Scenes/ActOne.jsx:57-269 | No event clears a flag. |
| ActOneStory.StepKeepsFlag | chichi/src/components/Scenes/ActOne.jsx:57-269 | No step clears a flag. |
| ActOneStory.RunKeepsFlag | chichi/src/components/Scenes/ActOne.jsx:57-269 | A flag once true stays true for the rest of any run. |
| ActOneStory.BatTrigger | chichi/src/components/Scenes/ActOne.jsx:263-269 | The bat effect changes the scene iff the bat is visible, not yet talked to, no dialogue runs and the player is within 60 on both axes. It then starts `blockDoor` at line 0 in phase batTalking. |
| ActOneStory.BatNeverRetriggers | chichi/src/components/Scenes/ActOne.jsx:263-269 | Once `hasTalkedToBat` holds, after any run the bat can neither be touched nor clicked into a dialogue. |
| ActOneStory.DialogueEndUnlocks | chichi/src/components/Scenes/ActOne.jsx:144-174 | A dialogue end unlocks the door only in phase doorUnlocking. |
| ActOneStory.FiredKeepsLock | chichi/src/components/Scenes/ActOne.jsx:57-139 | No timer unlocks the door. |
| ActOneStory.DoorUnlocksOnlyAfterNarration | chichi/src/components/Scenes/ActOne.jsx:144-147 | The only step that unlocks the door is the press that ends the door narration in phase doorUnlocking. |
| ActOneStory.OpenDoorLeadsToActTwo | chichi/src/components/Scenes/ActOne.jsx:246-251 | With the corrected exit of Findings: in phase canProceed at the right edge, a right step moves the game to act 2 and takes the scene off screen. |
| ActOneStory.WalkAsWrittenStaysInAct | chichi/src/components/Scenes/ActOne.jsx:220-258 | The movement step as written never changes the act, in any state. |
| ActOneStory.OpenDoorAsWrittenStays | chichi/src/components/Scenes/ActOne.jsx:246-251 | As written, in phase canProceed at the right edge, a right step leaves the game in act 1, the player where they stood and the scene on screen. |
| ActOneWalkthrough.RunAppend | chichi/src/components/Scenes/ActOne.jsx:57-269 | Running two scripts one after the other is running their concatenation. |
| ActOneWalkthrough.UndisturbedOutOfReach | chichi/src/store/useGameStore.js:51-59 | From the initial position, the bat at (500, 250) is out of reach. |
| ActOneWalkthrough.FreshMountInv | chichi/src/components/Scenes/ActOne.jsx:50-65 | Mounting on a fresh act-1 store satisfies the invariant, with the opening timer pending. |
| ActOneWalkthrough.StartIsFresh | chichi/src/store/useGameStore.js:15-66 | The initial state is a fresh act-1 store. |
| ActOneWalkthrough.DialogueEndStaysPut | chichi/src/components/Scenes/ActOne.jsx:152-174 | A dialogue end never changes the act, the player's position or the NPC records. |
| ActOneWalkthrough.LastPress | chichi/src/components/Game/DialogueBox.jsx:65-72 | The press on the last line is the dialogue-end handler on the ended store. |
| ActOneWalkthrough.PressesToEnd | chichi/src/components/Game/DialogueBox.jsx:65-72 | Pressing Next once per remaining line equals one dialogue end on the ended store. |
| ActOneWalkthrough.ReadThrough | chichi/src/components/Game/DialogueBox.jsx:65-72 | Reading a whole sequence ends it and preserves the invariant. |
| ActOneWalkthrough.StoryWakesUp | chichi/src/components/Scenes/ActOne.jsx:57-65 | On a fresh mount, the opening timer starts the wake-up dialogue. |
| ActOneWalkthrough.StoryExplores | chichi/src/components/Scenes/ActOne.jsx:70-73 | Reading the wake-up dialogue sets `hasWokenUp` and moves to exploration. |
| ActOneWalkthrough.StoryMeetsBat | chichi/src/components/Scenes/ActOne.jsx:78-83 | In exploration, clicking the bat starts `blockDoor`. |
| ActOneWalkthrough.StoryBatSpeaks | chichi/src/components/Scenes/ActOne.jsx:88-103 | Reading `blockDoor` schedules the reveal of Delice. |
| ActOneWalkthrough.DeliceRevealed | chichi/src/components/Scenes/ActOne.jsx:92-96 | The reveal timer shows Delice and schedules the notice. |
| ActOneWalkthrough.CatNoticed | chichi/src/components/Scenes/ActOne.jsx:98-101 | The notice timer starts `noticeCat`. |
| ActOneWalkthrough.StoryDeliceAppears | chichi/src/components/Scenes/ActOne.jsx:92-101 | Two timers after the bat's dialogue, `noticeCat` is playing. |
| ActOneWalkthrough.StoryNoticesCat | chichi/src/components/Scenes/ActOne.jsx:108-112 | Reading `noticeCat` starts Delice's introduction. |
| ActOneWalkthrough.StoryMeetsDelice | chichi/src/components/Scenes/ActOne.jsx:117-123 | Reading the introduction starts the bat's farewell. |
| ActOneWalkthrough.StoryBatSaysGoodbye | chichi/src/components/Scenes/ActOne.jsx:128-139 | Reading the farewell schedules the bat's disappearance. |
| ActOneWalkthrough.StoryDoorGlows | chichi/src/components/Scenes/ActOne.jsx:132-138 | The bat-gone timer starts the door narration. |
| ActOneWalkthrough.StoryDoorOpens | chichi/src/components/Scenes/ActOne.jsx:144-147 | Reading the door narration unlocks the door. |
| ActOneWalkthrough.WalkToBat | chichi/src/components/Scenes/ActOne.jsx:57-83 | From a fresh mount, the first script piece ends with `blockDoor` playing. |
| ActOneWalkthrough.WalkToCat | chichi/src/components/Scenes/ActOne.jsx:88-103 | The second script piece ends with `noticeCat` playing. |
| ActOneWalkthrough.WalkToFarewell | chichi/src/components/Scenes/ActOne.jsx:108-139 | The third script piece ends with the bat-gone timer pending. |
| ActOneWalkthrough.WalkToDoor | chichi/src/components/Scenes/ActOne.jsx:132-147 | The last script piece ends in canProceed. |
| ActOneWalkthrough.WalkthroughEndsAtDoor | chichi/src/components/Scenes/ActOne.jsx:6-13 | The four script pieces, run in turn from a fresh mount, end in canProceed. |
| ActOneWalkthrough.OpenDoorFacts | chichi/src/components/Scenes/ActOne.jsx:88-147 | Under the invariant, canProceed means no dialogue, act 1 and all four story flags set. |
| ActOneWalkthrough.WalkthroughOpensDoor | chichi/src/components/Scenes/ActOne.jsx:6-13 | canProceed is reachable: the walkthrough from a fresh mount ends with no dialogue, still in act 1, with all five act-1 flags set. |
| ActOneWalkthrough.WalkthroughFromStart | chichi/src/components/Scenes/ActOne.jsx:6-13 | From `initialState` the walkthrough unlocks the door. |

## Left out

- `setAct`, `setScene`, `setPlayerFacing`, `setShowPuzzle`, `setShowLetter` and `startGame` (chichi/src/store/useGameStore.js:92-97, 215, 254-264) are not modelled. They are one-field setters, and no modelled file calls them.
- Rendering is not modelled: JSX markup, CSS classes, sprites, the hint panel of the scene, and the other components (GameCanvas, NPC, Player, Furniture, cat, UIButton, App). Two facts are taken from them:
  - the scene is on screen while the act is neither 2 nor 3 (GameCanvas.jsx:55-79);
  - the bat can be clicked only while drawn, that is visible and not fading (NPC.jsx:50-51).
- Wall-clock timing is not modelled. Each `setTimeout` becomes a pending timer fired by an event, and the 60 FPS interval becomes one tick event. The 100 ms delay before `handleChoice`'s end callback is dropped. Several overlapping timers cannot be pending at once. The story never schedules two at once, and the opening timer is cleared when the phase leaves opening.
- The window key listeners and the `pressedKeys` set are not modelled. The held keys are the input of each tick.
- The zustand `create`/`devtools` plumbing is not modelled. The store is a plain class.
- The letter's text and the emoji glyphs are opaque. Only the emoji table's keys are modelled.
- `ActOne.ActOneScene.OnEvent`: the bat-collision effect is re-evaluated after every event. React re-runs it only when its dependencies change. The two agree because the effect is idempotent between such changes.
- `GameStore.WithNpcPosition`: a record created for an unknown name has `visible` undefined, which is modelled as false. This is how every reader treats it.
- `GameStore.WithNpcVisible`: a record created for an unknown name has no position. The bat trigger treats such a bat as out of reach, where the code would throw.
- `GameStore.Store.SetFlag`: the default argument `value = true` is not modelled. Callers always pass a value.
- `ActOne.CheckCollision`: the default threshold 30 is not modelled. The one call passes 60.
- `Dialogues.GetDialogue`: JavaScript prototype lookups are not modelled. Examples are an id such as `"toString"`, or indexing the letter's string with `"length"` or a digit. Keys are plain strings with plain map lookup.
- `GameStore.Store.ResetGame` resets the store only. In the game it also unmounts the scene, which is outside this model.
- The collectible-gated flow (items, wardrobe, pet choice, allowExit) is not implemented in ActOne.jsx and is not modelled.
- A blocked move at the locked door is refused whole (chichi/src/components/Scenes/ActOne.jsx:241-244); `setPlayerPosition` never changes the facing.
- `ActOne.Walked` and `ActOne.ActOneScene.MovementTick` run the corrected exit test of Findings, not line 247 of ActOne.jsx as written. The as-written loop is `ActOne.ActOneScene.MovementTickAsWritten`, and its step is `ActOne.WalkedAsWritten`; `ActOne.TickDiffersOnlyAtExit` proves the two differ only at the open door.
- `ActOneStory.StepInv`: the scene invariant allows act 2 only because the model runs the corrected exit. As written, no walk leaves act 1 (`ActOneStory.WalkAsWrittenStaysInAct`).
- `ActOneStory.OpenDoorLeadsToActTwo` holds for the corrected exit only. As written, the player stays at the door in act 1 (`ActOneStory.OpenDoorAsWrittenStays`).
- `ActOneWalkthrough.WalkthroughOpensDoor`: the walkthrough has Chichi click the bat rather than walk into it. Walking into it takes the same path, through `BatTrigger`.

## Findings

| source | as written | input that shows it | evidently intended | confidence | as-written member | corrected member |
|---|---|---|---|---|---|---|
| chichi/src/components/Scenes/ActOne.jsx:237-251 | The exit test `newX > 750` runs on the x already clamped to at most 750, so `nextAct` is never called from the movement loop. | Door unlocked, player at x=750, key D held. The candidate 755 is clamped to 750, and the tick sets the position to (750, y) instead of starting act 2. | Walking right through the unlocked door at the room's edge starts act 2. The test is meant for the unclamped candidate `playerPosition.x + deltaX`. | not executed | ActOne.ExitUnreachableAsWritten | ActOne.ExitThroughOpenDoor |

One more behaviour follows from the code, though it may be intended: the bat can be clicked before the opening timer fires. The phase then goes straight from opening to batTalking, and `hasWokenUp` is never set. `ActOneStory.BatClickedFollows` and `ActOneStory.HandleFollows` allow exactly this one jump.
