/**
 Whole interactions, run against the behaviours in `Scene`: a player talks
 to a character and the dialogue completes, a second Z press lands while
 that dialogue runs, a press out of range, a subscription pair, and a start
 event followed by a complete event.
 */
module Scenarios {
  import opened Rules
  import opened Scene

  /** A runner with in-memory storage and an empty store, a subscribed
      player, and a right-facing character at x = 0 with a "$visits" counter
      whose trigger the player, at x = -1, has entered. */
  method Setup() returns (runner: DialogueRunner, player: Player, npc: Interactable)
    ensures fresh(runner) && fresh(player) && fresh(player.body) && fresh(player.animator) && fresh(player.sprite)
    ensures fresh(npc) && npc.sprite != null && fresh(npc.sprite) && Wiring(runner, player, npc)
    ensures runner.inMemoryStorage && runner.variables == map[] && runner.Wired()
    ensures !runner.isRunning && runner.startedNodes == []
    ensures runner.startListeners == [Lock(player)] && runner.completeListeners == [Unlock(player)]
    ensures player.runner == runner && !player.movementLocked
    ensures npc.isCharacter && npc.defaultFacing == Right && npc.runner == runner
    ensures npc.startNode == "Start" && npc.countVariable == "$visits"
    ensures !npc.sprite.flipX && npc.transform.x == 0.0
    ensures npc.playerInRange && npc.playerTransform != null && npc.playerTransform.x == -1.0
  {
    runner := new DialogueRunner(true, map[]);
    var playerSprite := new Sprite(false);
    var body := new Body();
    var animator := new Animator();
    player := new Player(runner, playerSprite, body, animator);
    player.OnEnable();
    var npcSprite := new Sprite(false);
    var npcAt := new Transform(0.0);
    npc := new Interactable(true, Right, npcSprite, runner, "Start", "$visits", npcAt, false);
    var playerAt := new Transform(-1.0);
    npc.OnTriggerEnter2D("Player", playerAt);
  }

  /** The configuration `Setup` builds, as far as it is fixed for the life
      of the scene. */
  predicate Wiring(runner: DialogueRunner, player: Player, npc: Interactable)
  {
    && runner.inMemoryStorage && player.runner == runner
    && npc.isCharacter && npc.defaultFacing == Right && npc.runner == runner
    && npc.startNode == "Start" && npc.countVariable == "$visits"
    && npc.sprite != null && npc.sprite != player.sprite
  }

  /** In the scene `Setup` builds, the player presses Z, ticks once with
      input to the right, and the dialogue runs the "face_player" command. */
  method TalkPhase(runner: DialogueRunner, player: Player, npc: Interactable)
    returns (lockedDuring: bool, stillDuring: bool, flipDuring: bool)
    requires Wiring(runner, player, npc) && runner.Wired()
    requires runner.startListeners == [Lock(player)] && runner.completeListeners == [Unlock(player)]
    requires !runner.isRunning && runner.startedNodes == []
    requires npc.sprite != null && !npc.sprite.flipX && npc.transform.x == 0.0
    requires npc.playerInRange && npc.playerTransform != null && npc.playerTransform.x == -1.0
    modifies runner, npc, npc.sprite, player, player.body, player.animator, player.sprite
    ensures lockedDuring && stillDuring && flipDuring
    ensures runner.completeListeners == [Unlock(player), Restore(npc), Increment(npc)] && runner.Wired()
    ensures runner.startedNodes == ["Start"] && runner.isRunning && runner.variables == old(runner.variables)
    ensures runner.startListeners == old(runner.startListeners)
    ensures npc.sprite != null && npc.sprite.flipX && !npc.originalFlipX && npc.playerInRange
  {
    npc.Update(true);
    lockedDuring := player.movementLocked;
    player.FixedUpdate(1.0, 0.0);
    stillDuring := player.body.velocity == Zero;
    npc.FacePlayerCommand();
    flipDuring := npc.sprite.flipX;
  }

  /** The dialogue completes with the player's unlock and the character's
      two callbacks registered, and the player ticks once more. */
  method FinishPhase(runner: DialogueRunner, player: Player, npc: Interactable)
    returns (flipAfter: bool, lockedAfter: bool, movingAfter: bool, visits: int)
    requires Wiring(runner, player, npc) && runner.Wired()
    requires runner.completeListeners == [Unlock(player), Restore(npc), Increment(npc)]
    requires runner.variables == map[] && npc.sprite != null && !npc.originalFlipX
    modifies runner, npc.sprite, player, player.body, player.animator, player.sprite
    ensures !flipAfter && !lockedAfter && movingAfter && visits == 1
    ensures runner.startedNodes == old(runner.startedNodes)
  {
    ghost var fired := runner.completeListeners;
    runner.CompleteDialogue();
    LastRestoredOwn(fired, npc);
    flipAfter := npc.sprite.flipX;
    lockedAfter := player.movementLocked;
    player.FixedUpdate(1.0, 0.0);
    movingAfter := player.body.velocity != Zero;
    IncrementsConcat([Unlock(player), Restore(npc)], [Increment(npc)], "$visits");
    IncrementsConcat([Unlock(player)], [Restore(npc)], "$visits");
    assert fired == [Unlock(player), Restore(npc)] + [Increment(npc)];
    BumpedCounter(map[], fired, true, "$visits");
    visits := CounterValue(runner.variables, "$visits");
  }

  /** The player stands left of a right-facing character with a "$visits"
      counter, presses Z, the dialogue turns the character toward the player,
      and the dialogue completes. Movement is locked only during the session,
      the facing is put back, the counter goes from 0 to 1, and one session
      was started. */
  method VisitScenario() returns (lockedDuring: bool, stillDuring: bool, flipDuring: bool,
                                  flipAfter: bool, lockedAfter: bool, movingAfter: bool,
                                  visits: int, sessions: nat)
    ensures lockedDuring && stillDuring && flipDuring
    ensures !flipAfter && !lockedAfter && movingAfter
    ensures visits == 1 && sessions == 1
  {
    var runner, player, npc := Setup();
    lockedDuring, stillDuring, flipDuring := TalkPhase(runner, player, npc);
    flipAfter, lockedAfter, movingAfter, visits := FinishPhase(runner, player, npc);
    sessions := |runner.startedNodes|;
  }

  /** A second Z press lands while the dialogue started by the first still
      runs, and then the dialogue completes. */
  method RepeatPhase(runner: DialogueRunner, player: Player, npc: Interactable)
    returns (flipAfter: bool, visits: int)
    requires Wiring(runner, player, npc) && runner.Wired()
    requires runner.completeListeners == [Unlock(player), Restore(npc), Increment(npc)]
    requires runner.isRunning && runner.variables == map[] && runner.startListeners == [Lock(player)]
    requires npc.sprite != null && npc.sprite.flipX && npc.playerInRange
    modifies runner, npc, npc.sprite, player, player.body, player.animator
    ensures flipAfter && visits == 2
    ensures runner.startedNodes == old(runner.startedNodes)
  {
    npc.Update(true);
    ghost var fired := runner.completeListeners;
    assert fired == [Unlock(player), Restore(npc), Increment(npc), Restore(npc), Increment(npc)];
    assert npc.originalFlipX;
    runner.CompleteDialogue();
    LastRestoredOwn(fired, npc);
    flipAfter := npc.sprite.flipX;
    ghost var once := [Unlock(player), Restore(npc), Increment(npc)];
    IncrementsConcat([Unlock(player), Restore(npc)], [Increment(npc)], "$visits");
    IncrementsConcat([Unlock(player)], [Restore(npc)], "$visits");
    assert once == [Unlock(player), Restore(npc)] + [Increment(npc)];
    IncrementsConcat(once, [Restore(npc), Increment(npc)], "$visits");
    IncrementsConcat([Restore(npc)], [Increment(npc)], "$visits");
    assert fired == once + [Restore(npc), Increment(npc)];
    BumpedCounter(map[], fired, true, "$visits");
    visits := CounterValue(runner.variables, "$visits");
  }

  /** As in the visit, but Z is pressed a second time after the character
      has turned and while the dialogue still runs. The second press starts
      nothing, yet registers both callbacks again and re-snapshots the
      facing: the completion counts two visits and leaves the character
      turned toward the player. */
  method RepeatedPressScenario() returns (visits: int, flipAfter: bool, sessions: nat)
    ensures visits == 2 && flipAfter && sessions == 1
  {
    var runner, player, npc := Setup();
    var _, _, _ := TalkPhase(runner, player, npc);
    flipAfter, visits := RepeatPhase(runner, player, npc);
    sessions := |runner.startedNodes|;
  }

  /** A Z press before any collider entered, and after a collider with
      another tag entered, starts no session and registers nothing. */
  method OutOfRangeScenario() returns (sessions: nat, registered: nat)
    ensures sessions == 0 && registered == 0
  {
    var runner := new DialogueRunner(true, map[]);
    var npcSprite := new Sprite(false);
    var npcAt := new Transform(0.0);
    var npc := new Interactable(true, Right, npcSprite, runner, "Start", "$visits", npcAt, false);
    npc.Update(true);
    var enemyAt := new Transform(-1.0);
    npc.OnTriggerEnter2D("Enemy", enemyAt);
    npc.Update(true);
    sessions := |runner.startedNodes|;
    registered := |runner.completeListeners|;
  }

  /** A character whose scene stores the public in-range flag as true
      reacts to a Z press before any collider entered: the session starts
      and both callbacks are registered. */
  method StoredInRangeScenario() returns (sessions: nat, registered: nat)
    ensures sessions == 1 && registered == 2
  {
    var runner := new DialogueRunner(true, map[]);
    var npcSprite := new Sprite(false);
    var npcAt := new Transform(0.0);
    var npc := new Interactable(true, Right, npcSprite, runner, "Start", "$visits", npcAt, true);
    npc.Update(true);
    sessions := |runner.startedNodes|;
    registered := |runner.completeListeners|;
  }

  /** Enabling and then disabling a player that was not subscribed gives back
      both listener lists exactly. */
  method EnableThenDisable(p: Player)
    requires p.runner != null ==> Lock(p) !in p.runner.startListeners && Unlock(p) !in p.runner.completeListeners
    modifies p.runner
    ensures p.runner != null ==>
              && p.runner.startListeners == old(p.runner.startListeners)
              && p.runner.completeListeners == old(p.runner.completeListeners)
  {
    p.OnEnable();
    p.OnDisable();
    if p.runner != null {
      WithoutAppended(old(p.runner.startListeners), Lock(p));
      WithoutAppended(old(p.runner.completeListeners), Unlock(p));
    }
  }

  /** A start event followed by a complete event leaves a subscribed player
      unlocked, whatever its lock was before. */
  method StartThenComplete(runner: DialogueRunner, p: Player, node: string)
    requires runner.Wired() && Unlock(p) in runner.completeListeners
    modifies runner, runner.StartFootprint(), runner.CompleteFootprint()
    ensures !p.movementLocked
  {
    runner.StartDialogue(node);
    runner.CompleteDialogue();
  }
}
