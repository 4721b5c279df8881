/**
 The interaction and movement-lock behaviours and the collaborators they talk
 to, as objects with mutable fields.

 The dialogue runner is the shared event source: an `Interactable` registers
 one-shot completion callbacks on it and asks it to start a dialogue; a
 `Player` subscribes to its start and complete events to lock and unlock its
 movement. The listener datatypes name the callback by its method and bind it
 to the object it was registered for, the way the engine identifies a
 delegate by its target and method. Because the listener lists on the runner
 hold both kinds of object, and both kinds of object hold the runner, all of
 them live in this one module.
 */
module Scene {
  import opened Rules

  /** The variable the player's L key writes. */
  const QuestVariable: string := "$QuestComplete_BigDemon"

  /** A sprite renderer: only its horizontal mirror flag is modelled. */
  class Sprite {
    var flipX: bool

    constructor (flipX: bool)
      ensures this.flipX == flipX
    {
      this.flipX := flipX;
    }
  }

  /** A transform: only the horizontal position matters here. */
  class Transform {
    var x: real

    constructor (x: real)
      ensures this.x == x
    {
      this.x := x;
    }
  }

  /** A rigidbody: only its velocity is modelled. */
  class Body {
    var velocity: Velocity

    constructor ()
      ensures velocity == Zero
    {
      velocity := Zero;
    }
  }

  /** An animator: only its "isRunning" parameter is modelled. */
  class Animator {
    var isRunning: bool

    constructor ()
      ensures !isRunning
    {
      isRunning := false;
    }
  }

  /** A callback registered on the runner's dialogue-start event. */
  datatype StartListener = Lock(player: Player)

  /** A callback registered on the runner's dialogue-complete event:
      `Restore(o)` is `o.RestoreOriginalFacing`, `Increment(o)` is
      `o.IncrementInteractionCount`, `Unlock(p)` is `p.UnlockMovement`. */
  datatype CompleteListener =
    | Restore(owner: Interactable)
    | Increment(owner: Interactable)
    | Unlock(player: Player)
  {
    /** The runner the callback's object is wired to. */
    function Runner(): DialogueRunner?
    {
      if Unlock? then player.runner else owner.runner
    }
  }

  /** What the player's Update tick can end in: normally, or with the null
      dereference the source runs into when the runner or its in-memory
      storage is missing. */
  datatype QuestOutcome = Done | NullReference

  /** The dialogue runner: whether a dialogue is running, the two event
      listener lists, and the variable store with its storage kind. The
      `startedNodes` field records every `StartDialogue` call, so that a model
      client can see how many sessions were started. */
  class DialogueRunner {
    var isRunning: bool
    var startListeners: seq<StartListener>
    var completeListeners: seq<CompleteListener>
    var variables: map<string, YarnValue>
    const inMemoryStorage: bool
    var startedNodes: seq<string>

    constructor (inMemoryStorage: bool, variables: map<string, YarnValue>)
      ensures this.inMemoryStorage == inMemoryStorage && this.variables == variables
      ensures !isRunning && startListeners == [] && completeListeners == [] && startedNodes == []
      ensures Wired()
    {
      this.inMemoryStorage := inMemoryStorage;
      this.variables := variables;
      isRunning := false;
      startListeners := [];
      completeListeners := [];
      startedNodes := [];
    }

    /** Every registered callback belongs to an object wired to this runner:
        the behaviours only ever register on their own runner. */
    ghost predicate Wired()
      reads this`startListeners, this`completeListeners
    {
      && (forall l :: l in startListeners ==> l.player.runner == this)
      && (forall l :: l in completeListeners ==> l.Runner() == this)
    }

    /** The objects the start event's callbacks may change. */
    ghost function StartFootprint(): set<object>
      reads this`startListeners
    {
      (set l | l in startListeners :: l.player as object)
      + (set l | l in startListeners :: l.player.body as object)
      + (set l | l in startListeners :: l.player.animator as object)
    }

    /** The objects, other than the runner, the complete event's callbacks may
        change: the sprites that get their facing restored and the players
        that get unlocked. */
    ghost function CompleteFootprint(): set<object?>
      reads this`completeListeners
    {
      CompleteFootprintOf(completeListeners)
    }

    /** The event API's `AddListener` on the start event: appends. */
    method AddStartListener(l: StartListener)
      modifies this
      ensures startListeners == old(startListeners) + [l]
      ensures completeListeners == old(completeListeners) && variables == old(variables)
      ensures isRunning == old(isRunning) && startedNodes == old(startedNodes)
    {
      startListeners := startListeners + [l];
    }

    /** The event API's `RemoveListener` on the start event: drops every
        occurrence. */
    method RemoveStartListener(l: StartListener)
      modifies this
      ensures startListeners == Without(old(startListeners), l)
      ensures completeListeners == old(completeListeners) && variables == old(variables)
      ensures isRunning == old(isRunning) && startedNodes == old(startedNodes)
    {
      startListeners := Without(startListeners, l);
    }

    /** The event API's `AddListener` on the complete event: appends. */
    method AddCompleteListener(l: CompleteListener)
      modifies this
      ensures completeListeners == old(completeListeners) + [l]
      ensures startListeners == old(startListeners) && variables == old(variables)
      ensures isRunning == old(isRunning) && startedNodes == old(startedNodes)
    {
      completeListeners := completeListeners + [l];
    }

    /** The event API's `RemoveListener` on the complete event: drops every
        occurrence. */
    method RemoveCompleteListener(l: CompleteListener)
      modifies this
      ensures completeListeners == Without(old(completeListeners), l)
      ensures startListeners == old(startListeners) && variables == old(variables)
      ensures isRunning == old(isRunning) && startedNodes == old(startedNodes)
    {
      completeListeners := Without(completeListeners, l);
    }

    /** `StartDialogue(node)`: the runner marks itself running and fires the
        start event, invoking each start callback over a snapshot of the
        list. Running the node itself is not modelled. */
    method StartDialogue(node: string)
      modifies this, StartFootprint()
      ensures isRunning && startedNodes == old(startedNodes) + [node]
      ensures startListeners == old(startListeners) && completeListeners == old(completeListeners)
      ensures variables == old(variables)
      ensures forall l :: l in startListeners ==> l.player.Halted()
    {
      isRunning := true;
      startedNodes := startedNodes + [node];
      var snapshot := startListeners;
      var i := 0;
      while i < |snapshot|
        invariant 0 <= i <= |snapshot|
        invariant startListeners == snapshot && completeListeners == old(completeListeners)
        invariant isRunning && startedNodes == old(startedNodes) + [node] && variables == old(variables)
        invariant forall j :: 0 <= j < i ==> snapshot[j].player.Halted()
      {
        snapshot[i].player.LockMovement();
        i := i + 1;
      }
    }

    /** Invokes one complete callback. */
    method Dispatch(l: CompleteListener)
      requires l.Runner() == this
      modifies this, if l.Restore? then {l.owner.sprite} else {}, if l.Unlock? then {l.player} else {}
      ensures isRunning == old(isRunning) && startListeners == old(startListeners) && startedNodes == old(startedNodes)
      ensures completeListeners == if SelfRemoves(l) then Without(old(completeListeners), l) else old(completeListeners)
      ensures variables == BumpFor(old(variables), l, inMemoryStorage)
      ensures l.Unlock? ==> !l.player.movementLocked
      ensures l.Restore? && l.owner.sprite != null ==> l.owner.sprite.flipX == l.owner.originalFlipX
    {
      match l {
        case Restore(o) => o.RestoreOriginalFacing();
        case Increment(o) => o.IncrementInteractionCount();
        case Unlock(p) => p.UnlockMovement();
      }
    }

    /** The end of a dialogue: the runner marks itself idle and fires the
        complete event, invoking each complete callback over a snapshot of
        the list taken before any of them runs; callbacks that remove
        themselves change the live list, not the snapshot. */
    method CompleteDialogue()
      requires Wired()
      modifies this, CompleteFootprint()
      ensures !isRunning && startListeners == old(startListeners) && startedNodes == old(startedNodes)
      ensures completeListeners == Removed(old(completeListeners), old(completeListeners))
      ensures variables == Bumped(old(variables), old(completeListeners), inMemoryStorage)
      ensures forall l :: l in old(completeListeners) && l.Unlock? ==> !l.player.movementLocked
      ensures forall l :: l in old(completeListeners) && l.Restore? && l.owner.sprite != null ==>
                l.owner.sprite.flipX == LastRestoredFlip(old(completeListeners), l.owner.sprite)
      ensures Wired()
    {
      isRunning := false;
      var snapshot := completeListeners;
      ghost var vars0 := variables;
      var i := 0;
      while i < |snapshot|
        invariant 0 <= i <= |snapshot|
        invariant completeListeners == Removed(snapshot, snapshot[..i])
        invariant variables == Bumped(vars0, snapshot[..i], inMemoryStorage)
        invariant !isRunning && startListeners == old(startListeners) && startedNodes == old(startedNodes)
        invariant UnlockedUpTo(snapshot, i) && RestoredUpTo(snapshot, i)
      {
        FireAt(snapshot, i, vars0);
        i := i + 1;
      }
      assert snapshot[..i] == snapshot;
      forall l | l in completeListeners
        ensures l in snapshot
      {
        RemovedCounts(snapshot, snapshot, l);
      }
    }

    /** One round of the complete event: invokes the callback at position
        `i` of the snapshot, keeping the live list, the store, the players
        and the sprites in step with the callbacks fired so far. */
    method FireAt(snapshot: seq<CompleteListener>, i: nat, ghost vars0: map<string, YarnValue>)
      requires i < |snapshot|
      requires forall l :: l in snapshot ==> l.Runner() == this
      requires completeListeners == Removed(snapshot, snapshot[..i])
      requires variables == Bumped(vars0, snapshot[..i], inMemoryStorage)
      requires UnlockedUpTo(snapshot, i) && RestoredUpTo(snapshot, i)
      modifies this, CompleteFootprintOf(snapshot)
      ensures completeListeners == Removed(snapshot, snapshot[..i + 1])
      ensures variables == Bumped(vars0, snapshot[..i + 1], inMemoryStorage)
      ensures UnlockedUpTo(snapshot, i + 1) && RestoredUpTo(snapshot, i + 1)
      ensures isRunning == old(isRunning) && startListeners == old(startListeners) && startedNodes == old(startedNodes)
    {
      var l := snapshot[i];
      assert snapshot[..i + 1] == snapshot[..i] + [l];
      RemovedStep(snapshot, snapshot[..i], l);
      BumpedStep(vars0, snapshot[..i], l, inMemoryStorage);
      Dispatch(l);
      LastRestoredStep(snapshot[..i], l);
      forall j | 0 <= j < i + 1 && snapshot[j].Restore? && snapshot[j].owner.sprite != null
        ensures snapshot[j].owner.sprite.flipX == LastRestoredFlip(snapshot[..i + 1], snapshot[j].owner.sprite)
      {
        var s := snapshot[j].owner.sprite;
        if !(l.Restore? && l.owner.sprite == s) {
          assert j < i;
          assert s.flipX == old(s.flipX);
          assert unchanged(RestoreOwners(snapshot[..i]));
          assert LastRestoredFlip(snapshot[..i], s) == old(LastRestoredFlip(snapshot[..i], s));
        }
      }
    }

    /** The unlock callbacks among the first `i` of the snapshot have run. */
    ghost predicate UnlockedUpTo(snapshot: seq<CompleteListener>, i: nat)
      requires i <= |snapshot|
      reads CompleteFootprintOf(snapshot)
    {
      forall j :: 0 <= j < i && snapshot[j].Unlock? ==> !snapshot[j].player.movementLocked
    }

    /** Every sprite a facing callback among the first `i` of the snapshot
        restored holds the snapshot of the last of them. */
    ghost predicate RestoredUpTo(snapshot: seq<CompleteListener>, i: nat)
      requires i <= |snapshot|
      reads CompleteFootprintOf(snapshot), RestoreOwners(snapshot)
    {
      assert forall l :: l in snapshot[..i] ==> l in snapshot;
      forall j :: 0 <= j < i && snapshot[j].Restore? && snapshot[j].owner.sprite != null ==>
        snapshot[j].owner.sprite.flipX == LastRestoredFlip(snapshot[..i], snapshot[j].owner.sprite)
    }
  }

  /** The objects, other than the runner, the callbacks in `ls` may change:
      the sprites that get their facing restored and the players that get
      unlocked. */
  ghost function CompleteFootprintOf(ls: seq<CompleteListener>): set<object?>
  {
    (set l | l in ls && l.Restore? :: l.owner.sprite as object?)
    + (set l | l in ls && l.Unlock? :: l.player as object?)
  }

  /** True when firing `l` makes its callback remove itself from the list:
      the facing callback always does once it has a runner, the counter
      callback only past its early return, the unlock callback never. */
  predicate SelfRemoves(l: CompleteListener)
  {
    match l
    case Restore(o) => o.runner != null
    case Increment(o) => o.countVariable != "" && o.runner != null
    case Unlock(_) => false
  }

  /** The live complete-listener list after the callbacks in `fired` have run
      against the list `ls`, in order. */
  function Removed(ls: seq<CompleteListener>, fired: seq<CompleteListener>): (live: seq<CompleteListener>)
    decreases |fired|
  {
    if fired == [] then ls
    else
      var prev := Removed(ls, fired[..|fired| - 1]);
      var last := fired[|fired| - 1];
      if SelfRemoves(last) then Without(prev, last) else prev
  }

  lemma RemovedStep(ls: seq<CompleteListener>, fired: seq<CompleteListener>, x: CompleteListener)
    ensures Removed(ls, fired + [x]) == if SelfRemoves(x) then Without(Removed(ls, fired), x) else Removed(ls, fired)
  {
    assert (fired + [x])[..|fired|] == fired;
  }

  /** The variable store after the counter callback `l` has run. */
  function BumpFor(vars: map<string, YarnValue>, l: CompleteListener, inMemory: bool): (after: map<string, YarnValue>)
  {
    match l
    case Increment(o) =>
      if o.countVariable != "" && o.runner != null && inMemory then Bump(vars, o.countVariable) else vars
    case _ => vars
  }

  /** The variable store after the callbacks in `fired` have run, in order. */
  function Bumped(vars: map<string, YarnValue>, fired: seq<CompleteListener>, inMemory: bool): (after: map<string, YarnValue>)
    decreases |fired|
  {
    if fired == [] then vars
    else BumpFor(Bumped(vars, fired[..|fired| - 1], inMemory), fired[|fired| - 1], inMemory)
  }

  lemma BumpedStep(vars: map<string, YarnValue>, fired: seq<CompleteListener>, x: CompleteListener, inMemory: bool)
    ensures Bumped(vars, fired + [x], inMemory) == BumpFor(Bumped(vars, fired, inMemory), x, inMemory)
  {
    assert (fired + [x])[..|fired|] == fired;
  }

  /** The number of counter callbacks in `fired` that count into `name`. */
  function Increments(fired: seq<CompleteListener>, name: string): (count: nat)
    decreases |fired|
  {
    if fired == [] then 0
    else
      var last := fired[|fired| - 1];
      Increments(fired[..|fired| - 1], name)
      + (if last.Increment? && last.owner.countVariable == name && last.owner.runner != null then 1 else 0)
  }

  /** Counting over two stretches of a listener list adds up. */
  lemma {:induction false} IncrementsConcat(a: seq<CompleteListener>, b: seq<CompleteListener>, name: string)
    ensures Increments(a + b, name) == Increments(a, name) + Increments(b, name)
    decreases |b|
  {
    if b != [] {
      var init := b[..|b| - 1];
      assert (a + b)[..|a + b| - 1] == a + init;
      IncrementsConcat(a, init, name);
    } else {
      assert a + b == a;
    }
  }

  /** Each interaction by a character with a runner adds exactly one counter
      callback for its variable, whether or not the dialogue then starts. */
  lemma {:induction false} RegistrationsCount(ls: seq<CompleteListener>, o: Interactable)
    requires o.isCharacter && o.runner != null
    ensures Increments(ls + o.Registrations(), o.countVariable) == Increments(ls, o.countVariable) + 1
  {
    var r := ls + o.Registrations();
    assert r[..|r| - 1] == ls + [Restore(o)];
    assert (ls + [Restore(o)])[..|ls|] == ls;
  }

  /** The facing callbacks' owners in `ls`. */
  ghost function RestoreOwners(ls: seq<CompleteListener>): set<Interactable>
  {
    set l | l in ls && l.Restore? :: l.owner
  }

  /** The snapshot that the last facing callback in `ls` for sprite `s`
      restores (false when there is none). */
  ghost function LastRestoredFlip(ls: seq<CompleteListener>, s: Sprite): (flipX: bool)
    reads RestoreOwners(ls)
    decreases |ls|
  {
    if ls == [] then false
    else
      var last := ls[|ls| - 1];
      assert forall l :: l in ls[..|ls| - 1] ==> l in ls;
      if last.Restore? && last.owner.sprite == s then last.owner.originalFlipX
      else LastRestoredFlip(ls[..|ls| - 1], s)
  }

  lemma LastRestoredStep(ls: seq<CompleteListener>, x: CompleteListener)
    ensures forall s :: LastRestoredFlip(ls + [x], s)
                        == if x.Restore? && x.owner.sprite == s then x.owner.originalFlipX else LastRestoredFlip(ls, s)
  {
    assert (ls + [x])[..|ls|] == ls;
  }

  /** When every facing callback in `ls` for `o`'s sprite belongs to `o` and
      at least one is there, the restored flag is `o`'s own snapshot. */
  lemma {:induction false} LastRestoredOwn(ls: seq<CompleteListener>, o: Interactable)
    requires o.sprite != null && Restore(o) in ls
    requires forall l :: l in ls && l.Restore? && l.owner.sprite == o.sprite ==> l.owner == o
    ensures LastRestoredFlip(ls, o.sprite) == o.originalFlipX
    decreases |ls|
  {
    var init, last := ls[..|ls| - 1], ls[|ls| - 1];
    assert ls == init + [last];
    if !(last.Restore? && last.owner.sprite == o.sprite) {
      assert Restore(o) in init;
      LastRestoredOwn(init, o);
    }
  }

  /** Each self-removing callback that fired is gone from the live list;
      every other callback keeps exactly its multiplicity. */
  lemma {:induction false} RemovedCounts(ls: seq<CompleteListener>, fired: seq<CompleteListener>, l: CompleteListener)
    ensures multiset(Removed(ls, fired))[l] == if l in fired && SelfRemoves(l) then 0 else multiset(ls)[l]
    decreases |fired|
  {
    if fired != [] {
      var init, last := fired[..|fired| - 1], fired[|fired| - 1];
      assert fired == init + [last];
      RemovedCounts(ls, init, l);
    }
  }

  /** The counter in `name` grows by one for every counter callback for
      `name` that fired, duplicates included, provided the storage is in
      memory; otherwise it is left alone. */
  lemma {:induction false} BumpedCounter(vars: map<string, YarnValue>, fired: seq<CompleteListener>, inMemory: bool, name: string)
    requires name != ""
    ensures CounterValue(Bumped(vars, fired, inMemory), name)
            == CounterValue(vars, name) + (if inMemory then Increments(fired, name) else 0)
    decreases |fired|
  {
    if fired != [] {
      BumpedCounter(vars, fired[..|fired| - 1], inMemory, name);
    }
  }

  /** The completion callbacks touch no variable except the counters they
      count into. */
  lemma {:induction false} BumpedElsewhere(vars: map<string, YarnValue>, fired: seq<CompleteListener>, inMemory: bool, k: string)
    requires !inMemory || k == "" || Increments(fired, k) == 0
    ensures k in Bumped(vars, fired, inMemory) <==> k in vars
    ensures k in vars ==> Bumped(vars, fired, inMemory)[k] == vars[k]
    decreases |fired|
  {
    if fired != [] {
      BumpedElsewhere(vars, fired[..|fired| - 1], inMemory, k);
    }
  }

  /** An interactive object in the scene. */
  class Interactable {
    const isCharacter: bool
    const defaultFacing: DefaultFacing
    const sprite: Sprite?
    const runner: DialogueRunner?
    const startNode: string
    /** The configured counter variable; the empty string stands for "none". */
    const countVariable: string
    const transform: Transform

    var playerInRange: bool
    var playerTransform: Transform?
    var originalFlipX: bool

    /** The serialized configuration, including the public in-range flag a
        scene may store as true; the source's default start node is "Start". */
    constructor (isCharacter: bool, defaultFacing: DefaultFacing, sprite: Sprite?, runner: DialogueRunner?,
                 startNode: string, countVariable: string, transform: Transform, playerInRange: bool)
      ensures this.isCharacter == isCharacter && this.defaultFacing == defaultFacing
      ensures this.sprite == sprite && this.runner == runner && this.startNode == startNode
      ensures this.countVariable == countVariable && this.transform == transform
      ensures this.playerInRange == playerInRange && playerTransform == null && !originalFlipX
    {
      this.isCharacter := isCharacter;
      this.defaultFacing := defaultFacing;
      this.sprite := sprite;
      this.runner := runner;
      this.startNode := startNode;
      this.countVariable := countVariable;
      this.transform := transform;
      this.playerInRange := playerInRange;
      playerTransform := null;
      originalFlipX := false;
    }

    /** The runner accepts a start from this object: there is a runner, a
        start node, and no dialogue running. */
    predicate CanStart()
      reads runner
    {
      runner != null && startNode != "" && !runner.isRunning
    }

    /** The callbacks one interaction registers on the complete event. */
    function Registrations(): (added: seq<CompleteListener>)
    {
      if isCharacter && runner != null then [Restore(this), Increment(this)] else []
    }

    /** The objects one interaction may change besides this one and the runner. */
    ghost function InteractFootprint(): set<object>
      reads runner
    {
      if runner != null then runner.StartFootprint() else {}
    }

    /** The effect of one `Interact` call: characters snapshot their facing
        and register both callbacks whether or not the start is then refused;
        the dialogue starts exactly when `CanStart` held. */
    twostate predicate Interacted()
      reads this, sprite, runner, InteractFootprint()
    {
      && playerInRange == old(playerInRange) && playerTransform == old(playerTransform)
      && originalFlipX == (if isCharacter then sprite != null && old(sprite.flipX) else old(originalFlipX))
      && (runner != null ==>
            && runner.completeListeners == old(runner.completeListeners) + Registrations()
            && runner.startListeners == old(runner.startListeners)
            && runner.variables == old(runner.variables)
            && runner.startedNodes == old(runner.startedNodes) + (if old(CanStart()) then [startNode] else [])
            && runner.isRunning == (old(runner.isRunning) || startNode != "")
            && (old(CanStart()) ==> forall l :: l in runner.startListeners ==> l.player.Halted())
            && (!old(CanStart()) ==> unchanged(runner.StartFootprint())))
    }

    /** The frame tick: nothing happens unless the player is in range and Z
        was pressed this frame. */
    method Update(zPressed: bool)
      modifies this, runner, InteractFootprint()
      ensures old(playerInRange) && zPressed ==> Interacted()
      ensures !(old(playerInRange) && zPressed) ==>
                unchanged(this) && (runner != null ==> unchanged(runner) && unchanged(runner.StartFootprint()))
      ensures runner != null && old(runner.Wired()) ==> runner.Wired()
    {
      if !playerInRange {
        return;
      }
      if zPressed {
        Interact();
      }
    }

    /** One interaction attempt. */
    method Interact()
      modifies this, runner, InteractFootprint()
      ensures Interacted()
      ensures runner != null && old(runner.Wired()) ==> runner.Wired()
    {
      if isCharacter {
        originalFlipX := sprite != null && sprite.flipX;
        if runner != null {
          runner.AddCompleteListener(Restore(this));
          runner.AddCompleteListener(Increment(this));
        }
      }
      if runner == null || startNode == "" {
        return;
      }
      if runner.isRunning {
        return;
      }
      runner.StartDialogue(startNode);
    }

    /** The "face_player" dialogue command. */
    method FacePlayerCommand()
      modifies sprite
      ensures sprite != null ==> sprite.flipX == if isCharacter && playerTransform != null
                                                  then FacingFlip(defaultFacing, playerTransform.x, transform.x)
                                                  else old(sprite.flipX)
    {
      FacePlayer();
    }

    /** Turns a character's sprite toward the tracked player; a no-op for a
        non-character, without a sprite or without a tracked player. */
    method FacePlayer()
      modifies sprite
      ensures sprite != null ==> sprite.flipX == if isCharacter && playerTransform != null
                                                  then FacingFlip(defaultFacing, playerTransform.x, transform.x)
                                                  else old(sprite.flipX)
    {
      if !isCharacter {
        return;
      }
      if sprite == null || playerTransform == null {
        return;
      }
      var playerIsOnLeft := playerTransform.x < transform.x;
      if defaultFacing == Right {
        sprite.flipX := playerIsOnLeft;
      } else {
        sprite.flipX := !playerIsOnLeft;
      }
    }

    /** The counter callback: without a variable name or a runner it returns
        at once and stays registered; otherwise it bumps the counter when
        the storage is in memory, and removes itself either way. */
    method IncrementInteractionCount()
      modifies runner
      ensures runner != null ==> runner.isRunning == old(runner.isRunning) && runner.startedNodes == old(runner.startedNodes)
      ensures runner != null ==> runner.startListeners == old(runner.startListeners)
      ensures runner != null && countVariable == "" ==> unchanged(runner)
      ensures runner != null && countVariable != "" ==>
                && runner.variables == (if runner.inMemoryStorage then Bump(old(runner.variables), countVariable)
                                        else old(runner.variables))
                && runner.completeListeners == Without(old(runner.completeListeners), Increment(this))
    {
      if countVariable == "" || runner == null {
        return;
      }
      if runner.inMemoryStorage {
        var currentValue := CounterValue(runner.variables, countVariable);
        runner.variables := runner.variables[countVariable := Number(currentValue + 1)];
      }
      runner.RemoveCompleteListener(Increment(this));
    }

    /** The facing callback: puts the snapshot back on the sprite and removes
        itself. */
    method RestoreOriginalFacing()
      modifies sprite, runner
      ensures sprite != null ==> sprite.flipX == originalFlipX
      ensures runner != null ==>
                && runner.completeListeners == Without(old(runner.completeListeners), Restore(this))
                && runner.startListeners == old(runner.startListeners) && runner.variables == old(runner.variables)
                && runner.isRunning == old(runner.isRunning) && runner.startedNodes == old(runner.startedNodes)
    {
      if sprite != null {
        sprite.flipX := originalFlipX;
      }
      if runner != null {
        runner.RemoveCompleteListener(Restore(this));
      }
    }

    /** A collider enters the trigger: only one tagged "Player" counts. */
    method OnTriggerEnter2D(tag: string, other: Transform)
      modifies this
      ensures tag == "Player" ==> playerInRange && playerTransform == other
      ensures tag != "Player" ==> playerInRange == old(playerInRange) && playerTransform == old(playerTransform)
      ensures originalFlipX == old(originalFlipX)
    {
      if tag == "Player" {
        playerInRange := true;
        playerTransform := other;
      }
    }

    /** A collider leaves the trigger: any collider tagged "Player" clears the
        proximity state, whether or not it is the one that entered. */
    method OnTriggerExit2D(tag: string, other: Transform)
      modifies this
      ensures tag == "Player" ==> !playerInRange && playerTransform == null
      ensures tag != "Player" ==> playerInRange == old(playerInRange) && playerTransform == old(playerTransform)
      ensures originalFlipX == old(originalFlipX)
    {
      if tag == "Player" {
        playerInRange := false;
        playerTransform := null;
      }
    }
  }

  /** The player: top-down movement that is locked while a dialogue runs. */
  class Player {
    const runner: DialogueRunner?
    const sprite: Sprite
    const body: Body
    const animator: Animator

    var movementLocked: bool

    constructor (runner: DialogueRunner?, sprite: Sprite, body: Body, animator: Animator)
      ensures this.runner == runner && this.sprite == sprite && this.body == body && this.animator == animator
      ensures !movementLocked
    {
      this.runner := runner;
      this.sprite := sprite;
      this.body := body;
      this.animator := animator;
      movementLocked := false;
    }

    /** Locked, at rest and not shown running. */
    ghost predicate Halted()
      reads this, body, animator
    {
      movementLocked && body.velocity == Zero && !animator.isRunning
    }

    /** The lock keeps the player still: whenever it is set, the velocity is
        zero and the running animation is off. */
    ghost predicate LockHolds()
      reads this, body, animator
    {
      movementLocked ==> body.velocity == Zero && !animator.isRunning
    }

    /** Subscribes the lock to the start event and the unlock to the
        complete event, when there is a runner. */
    method OnEnable()
      modifies runner
      ensures runner != null ==>
                && runner.startListeners == old(runner.startListeners) + [Lock(this)]
                && runner.completeListeners == old(runner.completeListeners) + [Unlock(this)]
                && runner.variables == old(runner.variables)
                && runner.isRunning == old(runner.isRunning) && runner.startedNodes == old(runner.startedNodes)
      ensures runner != null && old(runner.Wired()) ==> runner.Wired()
    {
      if runner != null {
        runner.AddStartListener(Lock(this));
        runner.AddCompleteListener(Unlock(this));
      }
    }

    /** Removes the same pair of subscriptions. */
    method OnDisable()
      modifies runner
      ensures runner != null ==>
                && runner.startListeners == Without(old(runner.startListeners), Lock(this))
                && runner.completeListeners == Without(old(runner.completeListeners), Unlock(this))
                && runner.variables == old(runner.variables)
                && runner.isRunning == old(runner.isRunning) && runner.startedNodes == old(runner.startedNodes)
      ensures runner != null && old(runner.Wired()) ==> runner.Wired()
    {
      if runner != null {
        runner.RemoveStartListener(Lock(this));
        runner.RemoveCompleteListener(Unlock(this));
      }
    }

    /** The frame tick. */
    method Update(lPressed: bool) returns (outcome: QuestOutcome)
      modifies runner
      ensures !lPressed ==> outcome == Done && (runner != null ==> unchanged(runner))
      ensures lPressed && (runner == null || !runner.inMemoryStorage) ==> outcome == NullReference && (runner != null ==> unchanged(runner))
      ensures lPressed && runner != null && runner.inMemoryStorage ==>
                && outcome == Done
                && runner.variables == old(runner.variables)[QuestVariable := Boolean(true)]
                && runner.startListeners == old(runner.startListeners)
                && runner.completeListeners == old(runner.completeListeners)
                && runner.isRunning == old(runner.isRunning) && runner.startedNodes == old(runner.startedNodes)
    {
      outcome := FinishQuest(lPressed);
    }

    /** The L key marks the big-demon quest complete in the in-memory store;
        without a runner or with another kind of storage the source
        dereferences null. */
    method FinishQuest(lPressed: bool) returns (outcome: QuestOutcome)
      modifies runner
      ensures !lPressed ==> outcome == Done && (runner != null ==> unchanged(runner))
      ensures lPressed && (runner == null || !runner.inMemoryStorage) ==> outcome == NullReference && (runner != null ==> unchanged(runner))
      ensures lPressed && runner != null && runner.inMemoryStorage ==>
                && outcome == Done
                && runner.variables == old(runner.variables)[QuestVariable := Boolean(true)]
                && runner.startListeners == old(runner.startListeners)
                && runner.completeListeners == old(runner.completeListeners)
                && runner.isRunning == old(runner.isRunning) && runner.startedNodes == old(runner.startedNodes)
    {
      outcome := Done;
      if lPressed {
        if runner == null || !runner.inMemoryStorage {
          outcome := NullReference;
          return;
        }
        runner.variables := runner.variables[QuestVariable := Boolean(true)];
      }
    }

    /** The physics tick: a locked player is halted without reading input;
        an unlocked one moves, flips and animates from the input. */
    method FixedUpdate(horizontal: real, vertical: real)
      modifies body, animator, sprite
      ensures movementLocked ==>
                body.velocity == Zero && !animator.isRunning && sprite.flipX == old(sprite.flipX)
      ensures !movementLocked ==>
                && body.velocity == VelocityFor(horizontal, vertical)
                && sprite.flipX == FlipForInput(old(sprite.flipX), horizontal)
                && animator.isRunning == RunningFor(horizontal, vertical)
      ensures LockHolds()
    {
      if movementLocked {
        HaltMovement();
        return;
      }
      HandleMovement(horizontal, vertical);
      HandleFlip(horizontal);
      HandleAnimation(horizontal, vertical);
    }

    /** Sets the velocity from the input direction. */
    method HandleMovement(horizontal: real, vertical: real)
      modifies body
      ensures body.velocity == VelocityFor(horizontal, vertical)
    {
      body.velocity := VelocityFor(horizontal, vertical);
    }

    /** Stops the body and the running animation. */
    method HaltMovement()
      modifies body, animator
      ensures body.velocity == Zero && !animator.isRunning
    {
      body.velocity := Zero;
      animator.isRunning := false;
    }

    /** Mirrors the sprite toward the horizontal input. */
    method HandleFlip(horizontal: real)
      modifies sprite
      ensures sprite.flipX == FlipForInput(old(sprite.flipX), horizontal)
    {
      if horizontal < 0.0 {
        sprite.flipX := true;
      } else if horizontal > 0.0 {
        sprite.flipX := false;
      }
    }

    /** Shows the running animation while there is any input. */
    method HandleAnimation(horizontal: real, vertical: real)
      modifies animator
      ensures animator.isRunning == RunningFor(horizontal, vertical)
    {
      animator.isRunning := horizontal != 0.0 || vertical != 0.0;
    }

    /** The start callback. */
    method LockMovement()
      modifies this, body, animator
      ensures Halted()
    {
      movementLocked := true;
      HaltMovement();
    }

    /** The complete callback: clears the lock and nothing else. */
    method UnlockMovement()
      modifies this
      ensures !movementLocked
    {
      movementLocked := false;
    }
  }
}
