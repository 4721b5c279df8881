/**
 The pure decisions of the interaction and movement behaviours: which way a
 character's sprite is mirrored, how player input drives the mirror flag, the
 running animation and the velocity, how the interaction counter is bumped in
 the dialogue variable store, and how a listener list loses a callback.
 */
module Rules {

  /** The side a character's artwork faces when its sprite is not mirrored. */
  datatype DefaultFacing = Right | Left

  /** Rigidbody velocity, abstracted: at rest, or set from the input direction
      (the source normalises the input and scales it by the player's speed). */
  datatype Velocity = Zero | Toward(x: real, y: real)

  /** A value in the dialogue engine's variable store. */
  datatype YarnValue = Number(n: int) | Boolean(b: bool)

  /** True when a sprite drawn with this default facing and this mirror flag
      looks to the left: a right-facing sprite looks left when mirrored, a
      left-facing one when it is not. */
  predicate LooksLeft(facing: DefaultFacing, flipX: bool)
  {
    (facing == Right && flipX) || (facing == Left && !flipX)
  }

  /** The mirror flag `FacePlayer` writes: the player counts as on the left only
      when its x is strictly smaller than the character's own x. */
  function FacingFlip(facing: DefaultFacing, playerX: real, selfX: real): (flipX: bool)
    ensures LooksLeft(facing, flipX) <==> playerX < selfX
    ensures playerX == selfX ==> !LooksLeft(facing, flipX)
  {
    var playerIsOnLeft := playerX < selfX;
    if facing == Right then playerIsOnLeft else !playerIsOnLeft
  }

  /** The player's mirror flag after a tick with this horizontal input. */
  function FlipForInput(flipX: bool, horizontal: real): (r: bool)
    ensures horizontal < 0.0 ==> r
    ensures horizontal > 0.0 ==> !r
    ensures horizontal == 0.0 ==> r == flipX
  {
    if horizontal < 0.0 then true
    else if horizontal > 0.0 then false
    else flipX
  }

  /** The velocity an unlocked tick gives the player for this input. */
  function VelocityFor(x: real, y: real): (v: Velocity)
    ensures v == Zero <==> x == 0.0 && y == 0.0
  {
    if x == 0.0 && y == 0.0 then Zero else Toward(x, y)
  }

  /** The running-animation flag an unlocked tick sets: the player is shown
      running exactly when the tick sets it moving. */
  function RunningFor(x: real, y: real): (running: bool)
    ensures running <==> VelocityFor(x, y) != Zero
  {
    x != 0.0 || y != 0.0
  }

  /** What `TryGetValue` leaves in a float out-parameter: the stored number, or
      the default 0 when the variable is missing or holds no number. */
  function CounterValue(vars: map<string, YarnValue>, name: string): (currentValue: int)
    ensures name in vars && vars[name].Number? ==> currentValue == vars[name].n
    ensures name !in vars ==> currentValue == 0
    ensures name in vars && !vars[name].Number? ==> currentValue == 0
  {
    if name in vars && vars[name].Number? then vars[name].n else 0
  }

  /** The store after `SetValue(name, currentValue + 1)`. */
  function Bump(vars: map<string, YarnValue>, name: string): (r: map<string, YarnValue>)
    ensures name in r && r[name].Number?
    ensures CounterValue(r, name) == CounterValue(vars, name) + 1
    ensures forall k :: k != name ==> (k in r <==> k in vars)
    ensures forall k :: k != name && k in vars ==> r[k] == vars[k]
  {
    vars[name := Number(CounterValue(vars, name) + 1)]
  }

  /** A listener list after `RemoveListener(x)`: every occurrence of `x` is
      gone, every other listener keeps its multiplicity. */
  function Without<T(==)>(ls: seq<T>, x: T): (r: seq<T>)
    ensures multiset(r) == multiset(ls)[x := 0]
    ensures forall i :: 0 <= i < |r| ==> r[i] in ls && r[i] != x
    ensures forall i :: 0 <= i < |ls| && ls[i] != x ==> ls[i] in r
  {
    if ls == [] then []
    else
      assert ls == [ls[0]] + ls[1..];
      if ls[0] == x then Without(ls[1..], x) else [ls[0]] + Without(ls[1..], x)
  }

  /** Removing a listener that was not there changes nothing. */
  lemma {:induction false} WithoutAbsent<T>(ls: seq<T>, x: T)
    requires x !in ls
    ensures Without(ls, x) == ls
  {
    if ls != [] {
      WithoutAbsent(ls[1..], x);
    }
  }

  /** Adding a listener that was not registered and removing it again gives
      back the original list, in its original order. */
  lemma {:induction false} WithoutAppended<T>(ls: seq<T>, x: T)
    requires x !in ls
    ensures Without(ls + [x], x) == ls
  {
    if ls == [] {
      assert Without([x], x) == Without([], x);
    } else {
      assert (ls + [x])[0] == ls[0];
      assert (ls + [x])[1..] == ls[1..] + [x];
      WithoutAppended(ls[1..], x);
      assert ls == [ls[0]] + ls[1..];
    }
  }

  /** Removal keeps the relative order of the callbacks that stay: removing
      from a concatenation is removing from each part. */
  lemma {:induction false} WithoutConcat<T>(a: seq<T>, b: seq<T>, x: T)
    ensures Without(a + b, x) == Without(a, x) + Without(b, x)
  {
    if a == [] {
      assert a + b == b;
    } else {
      assert (a + b)[0] == a[0];
      assert (a + b)[1..] == a[1..] + b;
      WithoutConcat(a[1..], b, x);
    }
  }
}
