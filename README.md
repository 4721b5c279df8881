# Dialogue interaction and movement lock (DungeonManager)

This project models the two game behaviours that coordinate around the Yarn
Spinner dialogue runner in a 2D top-down Unity game, and proves their rules.

* **Interactable** (`Assets/_game/Scripts/Interactable.cs`). A character or
  object keeps track of whether the player stands in its trigger. On a Z
  press it starts its dialogue node. A character also snapshots its sprite's
  mirror flag and registers two one-shot completion callbacks: one puts the
  flag back, the other bumps an interaction counter in the runner's variable
  store. The "face_player" dialogue command turns the character's sprite
  toward the player.
* **Player** (`Assets/_game/Scripts/Player.cs`). A movement lock that is set
  by the runner's dialogue-start event and cleared by its dialogue-complete
  event. While it is set, each physics tick halts the player. Otherwise the
  tick moves the player, mirrors the sprite and drives the running animation
  from the input. The L key marks a quest variable.

The files:

* `rules.dfy` (module `Rules`) holds the pure decisions: the facing rule, the
  input-flip rule, velocity, the running animation, the counter bump and
  removal from a listener list.
* `scene.dfy` (module `Scene`) holds the objects. These are the runner with
  its two listener lists, its variable store and its storage kind; sprite,
  transform, rigidbody and animator reduced to the one field each that the
  behaviours touch; and the `Interactable` and `Player` classes, with one
  method per source method. Both behaviours hold the runner, and the runner's
  listener lists hold both behaviours, so they share one module. A callback
  is a datatype value naming the method and the object it is bound to
  (`Restore(o)`, `Increment(o)`, `Unlock(p)`, `Lock(p)`). This is how the
  engine identifies a delegate: by its target and its method.
* `scenarios.dfy` (module `Scenarios`) holds whole interactions run on fresh
  objects, with their outcomes proved.

Assumptions about the engine, which the source does not show:

* `AddListener` appends to the list.
* `RemoveListener` removes **every** registered occurrence of the callback
  (`Rules.Without`). Unity's invokable-call list removes every matching call.
* Invoking an event runs the callbacks in registration order, over a
  snapshot of the list taken when the event fires. A callback that removes
  itself changes the live list, not the snapshot. So every duplicate in the
  snapshot fires.
* `StartDialogue` sets the running flag and then fires the start event.
  Completion clears the running flag and then fires the complete event.
* A callback only ever sits on the runner of the object that registered it
  (`DialogueRunner.Wired`). Every method that registers callbacks preserves
  this.

## Model

| member | source | states |
|---|---|---|
| `Rules.FacingFlip` | Assets/_game/Scripts/Interactable.cs:76-81 | the sprite ends up looking left exactly when the player's x is strictly smaller than the character's own x, for both default facings; at equal x the character looks right |
| `Rules.FlipForInput` | Assets/_game/Scripts/Player.cs:97-103 | negative horizontal input mirrors the sprite, positive input unmirrors it, zero input keeps the old flag |
| `Rules.VelocityFor` | Assets/_game/Scripts/Player.cs:81-85 | the player is at rest exactly when both input axes are zero |
| `Rules.RunningFor` | Assets/_game/Scripts/Player.cs:105-108 | the running animation is on exactly when the tick sets the player moving, i.e. when x ≠ 0 or y ≠ 0 |
| `Rules.CounterValue` | Assets/_game/Scripts/Interactable.cs:91 | the value `TryGetValue` leaves in the counter: the stored number when the variable holds one, and the out-parameter's default 0 when the variable is missing or holds no number |
| `Rules.Bump` | Assets/_game/Scripts/Interactable.cs:91-92 | the counter reads one more than before (a missing value counts as 0); every other variable is kept |
| `Rules.Without` | Assets/_game/Scripts/Interactable.cs:95 | after `RemoveListener` no occurrence of the callback is left and every other callback keeps its multiplicity |
| `Rules.WithoutConcat` | Assets/_game/Scripts/Interactable.cs:95 | removal keeps the registration order of the callbacks that stay: removing from two stretches of a list one after the other is removing from the whole list |
| `Rules.WithoutAbsent` | Assets/_game/Scripts/Player.cs:30-37 | removing a callback that is not registered leaves the list as it was |
| `Rules.WithoutAppended` | Assets/_game/Scripts/Player.cs:21-37 | adding a callback that was not registered and then removing it gives back the original list in its original order |
| `Scene.DialogueRunner.AddCompleteListener` | Assets/_game/Scripts/Interactable.cs:53-54 | the callback is appended to the complete list; nothing else on the runner changes |
| `Scene.DialogueRunner.RemoveCompleteListener` | Assets/_game/Scripts/Interactable.cs:104 | the complete list loses every occurrence of the callback; nothing else changes |
| `Scene.DialogueRunner.AddStartListener` | Assets/_game/Scripts/Player.cs:25 | the callback is appended to the start list; nothing else changes |
| `Scene.DialogueRunner.RemoveStartListener` | Assets/_game/Scripts/Player.cs:34 | the start list loses every occurrence of the callback; nothing else changes |
| `Scene.DialogueRunner.StartDialogue` | Assets/_game/Scripts/Interactable.cs:61 | the runner is running, the start is recorded, and every subscribed player is locked, at rest and not animated |
| `Scene.DialogueRunner.CompleteDialogue` | Assets/_game/Scripts/Interactable.cs:84-105 | the runner is idle; the live list is the snapshot minus the callbacks that removed themselves; the store has one bump per counter callback in the snapshot; every subscribed player is unlocked; every restored sprite holds the snapshot of the last facing callback for it |
| `Scene.LastRestoredOwn` | Assets/_game/Scripts/Interactable.cs:98-101 | when every facing callback for a character's sprite belongs to that character and one fired, the sprite ends up holding the character's own saved facing |
| `Scene.RemovedCounts` | Assets/_game/Scripts/Interactable.cs:84-105 | after the complete event every facing callback, and every counter callback with a variable name, is gone; the unlock callbacks and the early-returning counter callbacks remain with their multiplicity |
| `Scene.BumpedCounter` | Assets/_game/Scripts/Interactable.cs:84-96 | the counter grows by the number of its counter callbacks in the snapshot, duplicates included, with in-memory storage, and is unchanged with any other storage |
| `Scene.BumpedElsewhere` | Assets/_game/Scripts/Interactable.cs:89-93 | the complete event changes no variable other than the counters its callbacks count into |
| `Scene.IncrementsConcat` | Assets/_game/Scripts/Interactable.cs:84-96 | the number of counter callbacks for a variable in two stretches of a list adds up to the number in the whole list |
| `Scene.RegistrationsCount` | Assets/_game/Scripts/Interactable.cs:47-55 | each interaction by a character with a runner adds exactly one counter callback for its variable |
| `Scene.Interactable.constructor` | Assets/_game/Scripts/Interactable.cs:8-26 | the serialized configuration is stored, including the public in-range flag, which a scene may store as true; no player transform is tracked and no facing is saved |
| `Scene.Interactable.Update` | Assets/_game/Scripts/Interactable.cs:37-43 | out of range, or without a Z press, nothing changes: not the object, not the runner, and not the subscribed players with their bodies and animators; otherwise the effect is exactly that of `Interact` |
| `Scene.Interactable.Interact` | Assets/_game/Scripts/Interactable.cs:45-62 | a character saves its sprite's flag (false without a sprite) and appends its two callbacks whenever it has a runner, even if the start is then refused; the dialogue starts, and the players lock, exactly when there is a runner, a non-empty start node and no dialogue running; otherwise no player changes |
| `Scene.Interactable.FacePlayerCommand` | Assets/_game/Scripts/Interactable.cs:64-69 | does what `FacePlayer` does |
| `Scene.Interactable.FacePlayer` | Assets/_game/Scripts/Interactable.cs:71-82 | a character with a sprite and a tracked player gets the flag of the facing rule; in every other case the sprite is untouched |
| `Scene.Interactable.IncrementInteractionCount` | Assets/_game/Scripts/Interactable.cs:84-96 | without a variable name it changes nothing and stays registered; with one it bumps the counter only for in-memory storage, and removes itself in both cases |
| `Scene.Interactable.RestoreOriginalFacing` | Assets/_game/Scripts/Interactable.cs:98-105 | the sprite, if any, gets the saved flag; the callback removes itself from the runner, if any; nothing else on the runner changes |
| `Scene.Interactable.OnTriggerEnter2D` | Assets/_game/Scripts/Interactable.cs:107-114 | a "Player" collider sets in-range and records its transform; any other tag changes nothing |
| `Scene.Interactable.OnTriggerExit2D` | Assets/_game/Scripts/Interactable.cs:116-123 | any "Player" collider clears in-range and the transform, whichever player entered; any other tag changes nothing |
| `Scene.Player.constructor` | Assets/_game/Scripts/Player.cs:6-14 | the collaborators are stored and movement starts unlocked |
| `Scene.Player.OnEnable` | Assets/_game/Scripts/Player.cs:21-28 | with a runner, the lock is appended to the start list and the unlock to the complete list; without one nothing happens |
| `Scene.Player.OnDisable` | Assets/_game/Scripts/Player.cs:30-37 | with a runner, both subscriptions are removed from their lists |
| `Scene.Player.Update` | Assets/_game/Scripts/Player.cs:39-42 | the frame tick has exactly the effect of `FinishQuest` |
| `Scene.Player.FinishQuest` | Assets/_game/Scripts/Player.cs:69-76 | an L press sets "$QuestComplete_BigDemon" to true in in-memory storage; without a runner or with other storage it ends in a null dereference and changes nothing; without the key press nothing changes |
| `Scene.Player.FixedUpdate` | Assets/_game/Scripts/Player.cs:44-56 | a locked tick halts the player and leaves the flip untouched, reading no input; an unlocked tick applies the velocity, flip and animation rules; after it, a set lock means zero velocity and no running animation |
| `Scene.Player.HandleMovement` | Assets/_game/Scripts/Player.cs:81-85 | the velocity follows the input |
| `Scene.Player.HaltMovement` | Assets/_game/Scripts/Player.cs:87-91 | the velocity is zero and the running animation is off |
| `Scene.Player.HandleFlip` | Assets/_game/Scripts/Player.cs:97-103 | the sprite's flag follows the flip rule |
| `Scene.Player.HandleAnimation` | Assets/_game/Scripts/Player.cs:105-108 | the animator's flag follows the running rule |
| `Scene.Player.LockMovement` | Assets/_game/Scripts/Player.cs:114-118 | the player is locked, at rest and not animated |
| `Scene.Player.UnlockMovement` | Assets/_game/Scripts/Player.cs:120-123 | the lock is cleared and nothing else changes |
| `Scenarios.VisitScenario` | Assets/_game/Scripts/Interactable.cs:37-105 | the player presses Z left of a right-facing character, which is turned toward the player, and the dialogue completes: the player is locked and still during the session and moves again after it; the facing is restored; the counter goes from 0 to 1; one session was started |
| `Scenarios.RepeatedPressScenario` | Assets/_game/Scripts/Interactable.cs:47-59 | a second Z press during the session starts nothing but registers both callbacks again: the completion counts two visits and leaves the character turned toward the player |
| `Scenarios.OutOfRangeScenario` | Assets/_game/Scripts/Interactable.cs:37-43 | a Z press before a "Player" collider entered, or after another tag entered, starts no session and registers nothing |
| `Scenarios.StoredInRangeScenario` | Assets/_game/Scripts/Interactable.cs:23-43 | a character whose scene stores the public in-range flag as true starts its session on a Z press before any collider entered, and registers both callbacks |
| `Scenarios.EnableThenDisable` | Assets/_game/Scripts/Player.cs:21-37 | enabling and then disabling a player that was not subscribed restores both listener lists exactly |
| `Scenarios.StartThenComplete` | Assets/_game/Scripts/Player.cs:114-123 | a start event followed by a complete event leaves a subscribed player unlocked, whatever its lock was before |

## Intent versus code

The model follows the code. In several places the code's shape shows an
intent that the code as written does not keep:

* The trigger pair is shaped to track one player's proximity.
  `OnTriggerExit2D` clears it for any collider tagged "Player", not only the
  one that entered (Interactable.cs:116-123).
* The completion callbacks are shaped as one-shot listeners for the session
  a press starts. `Interact` registers them before the "already running"
  check, so a press that is refused still registers them
  (Interactable.cs:47-59). `RepeatedPressScenario` shows the result: the
  counter grows by two for one session. The second press also overwrites
  the saved facing, so the character keeps the facing it was given during
  the dialogue rather than the one it had before the session.
* The counter variable is configured per object, but only characters
  register the counter callback (Interactable.cs:47-55), so a non-character
  with a counter name never counts.
* Each callback is shaped to remove itself after it fires.
  `IncrementInteractionCount` returns before `RemoveListener` when the
  variable name is empty or there is no runner (Interactable.cs:86-87 against
  :95). Such callbacks pile up, one per interaction.
* A locked tick returns before reading any input (Player.cs:46-50).

## Left out

- `Awake` in both behaviours (the component lookups and the error log, Interactable.cs:28-35, Player.cs:16-19): whether a sprite or runner is present is a constructor argument instead.
- `ReadMovementInput` and `Input.GetKeyDown` (Player.cs:62-67, Interactable.cs:41): input axes and key presses are method parameters. The physics trigger callbacks take the collider's tag and transform as parameters.
- `Rules.VelocityFor`: does not model the magnitude of `input.normalized * speed`. It records only at rest versus set from the input direction, and assumes a nonzero speed. Unity's treatment of near-zero vectors in `normalized` is not modelled either.
- `Rules.CounterValue`: the counter is stored as a float in the source; the model uses an unbounded integer. The two agree while the count stays below 2^24. A stored value that is not a number reads as 0 here, whereas the real storage rejects a type mismatch.
- Yarn Spinner internals: node execution, the dispatch of the "face_player" command (modelled as a direct call of `FacePlayerCommand`), the real in-memory storage, its variable-name checks and initial values, and `StartDialogue`'s own handling of a call while running. The runner is abstract state: a running flag, two listener lists, a variable store with a storage-kind flag, and a record of started nodes.
- UnityEvent internals beyond the assumptions listed above.
- `Scene.Player.FixedUpdate`: the player's sprite, rigidbody and animator are always present in the model. A missing one makes the source throw on first use, and that path is not modelled.
- Positions are exact reals; float comparison is not modelled.
- `Assets/YSort.cs`: a floating-point sort-order expression on render state.
- `Assets/Player.cs`: an earlier player script whose flip and animation rules are the ones modelled from `Assets/_game/Scripts/Player.cs`.
- There is no timeout if the dialogue never completes, and none is modelled. Events and ticks run on one thread, so there is no concurrency to model.
