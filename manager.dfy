/**
 * The screen registry and lifecycle manager (src/ScreenManager.ts): a map
 * from screen identifiers to screens, zero or one current screen, and the
 * stage's child list that switching detaches from and attaches to.
 */
module Manager {
  import opened Common
  import opened Enums
  import opened Components

  /** The stage's child list after `removeChild(x)`: every occurrence of `x` is gone, the rest keep their order. */
  function Without(s: seq<object>, x: object): (r: seq<object>)
    ensures forall i :: 0 <= i < |r| ==> r[i] in s && r[i] != x
    ensures forall i :: 0 <= i < |s| && s[i] != x ==> s[i] in r
    ensures Distinct(s) ==> Distinct(r)
    decreases |s|
  {
    if s == [] then []
    else (if s[0] == x then [] else [s[0]]) + Without(s[1..], x)
  }

  /** The stage's child list after `addChild(x)`: `x` moves to (or arrives at) the end, nothing else changes. */
  function AddChild(s: seq<object>, x: object): (r: seq<object>)
    ensures |r| > 0 && r[|r| - 1] == x
    ensures forall i :: 0 <= i < |r| ==> r[i] in s || r[i] == x
    ensures forall i :: 0 <= i < |s| ==> s[i] in r
    ensures Distinct(s) ==> Distinct(r)
  {
    Without(s, x) + [x]
  }

  /** The screen registered under `name`, if any (`screens[name] || null`). */
  function Lookup(screens: map<ScreenName, Screen>, name: ScreenName): Option<Screen> {
    if name in screens then Some(screens[name]) else None
  }

  /** The stage after a switch from `current` to `target`: detach the old screen, attach the new one. */
  function SwitchedStage(stage: seq<object>, current: Screen?, target: Option<Screen>): seq<object> {
    var detached := if current != null then Without(stage, current) else stage;
    match target
    case Some(t) => AddChild(detached, t)
    case None => detached
  }

  /**
   * The attachment invariant: the current screen (if any) is on the stage,
   * and no other registered screen is.
   */
  ghost predicate OnlyCurrentAttached(screens: map<ScreenName, Screen>, current: Screen?, stage: seq<object>) {
    (current != null ==> current in stage) &&
    forall n :: n in screens && screens[n] in stage ==> screens[n] == current
  }

  /** A switch keeps the attachment invariant, and afterwards the stage holds exactly the target among registered screens. */
  lemma SwitchKeepsOnlyCurrentAttached(screens: map<ScreenName, Screen>, current: Screen?, stage: seq<object>, name: ScreenName)
    requires OnlyCurrentAttached(screens, current, stage)
    ensures var target := Lookup(screens, name);
            var next := if target.Some? then target.value else null;
            OnlyCurrentAttached(screens, next, SwitchedStage(stage, current, target))
    ensures current != null && (name !in screens || screens[name] != current) ==>
              current !in SwitchedStage(stage, current, Lookup(screens, name))
  {
  }

  /** Registering a screen that is not on the stage (or is the current one) keeps the attachment invariant. */
  lemma RegisterKeepsOnlyCurrentAttached(screens: map<ScreenName, Screen>, current: Screen?, stage: seq<object>,
                                         name: ScreenName, screen: Screen)
    requires OnlyCurrentAttached(screens, current, stage)
    requires screen !in stage || screen == current
    ensures OnlyCurrentAttached(screens[name := screen], current, stage)
  {
  }

  class ScreenManager {
    var current: Screen?
    var screens: map<ScreenName, Screen>
    var stage: seq<object>

    /** The attachment invariant, over a stage that holds each child once, as the engine's child lists do. */
    ghost predicate Valid()
      reads this
    {
      Distinct(stage) && OnlyCurrentAttached(screens, current, stage)
    }

    constructor (stage: seq<object>)
      requires Distinct(stage)
      ensures current == null && screens == map[] && this.stage == stage
      ensures Valid()
    {
      current := null;
      screens := map[];
      this.stage := stage;
    }

    /** Associates `name` with `screen`, overwriting any earlier entry. */
    method RegisterScreen(name: ScreenName, screen: Screen)
      modifies this`screens
      ensures screens == old(screens)[name := screen]
      ensures forall n :: n != name && n in old(screens) ==> n in screens && screens[n] == old(screens)[n]
      ensures old(Valid()) && (screen !in stage || screen == current) ==> Valid()
    {
      screens := screens[name := screen];
      if old(Valid()) && (screen !in stage || screen == current) {
        RegisterKeepsOnlyCurrentAttached(old(screens), current, stage, name, screen);
      }
    }

    /**
     * Detaches the current screen, looks `name` up, and attaches and
     * initialises the screen registered under it; an unregistered name
     * leaves no current screen and never fails.
     */
    method SwitchScreen(name: ScreenName)
      modifies this`current, this`stage, if name in screens then {screens[name]} else {}
      ensures screens == old(screens)
      ensures current == (if name in screens then screens[name] else null)
      ensures stage == SwitchedStage(old(stage), old(current), Lookup(screens, name))
      ensures name in screens ==>
                screens[name].initCount == old(screens[name].initCount) + 1 &&
                screens[name].updateCount == old(screens[name].updateCount) &&
                screens[name].resizeCount == old(screens[name].resizeCount)
      ensures forall n :: n in screens && screens[n] != current ==> screens[n].initCount == old(screens[n].initCount)
      ensures old(current) != null && old(current) != current ==> old(current) !in stage
      ensures old(Valid()) ==> Valid()
    {
      if current != null {
        stage := Without(stage, current);
      }
      current := if name in screens then screens[name] else null;
      if current != null {
        stage := AddChild(stage, current);
        current.Init();
      }
      if old(Valid()) {
        SwitchKeepsOnlyCurrentAttached(screens, old(current), old(stage), name);
      }
    }

    /** Forwards a frame to the current screen only; does nothing without one. */
    method Update(deltaTime: real)
      modifies if current != null then {current} else {}
      ensures current != null ==>
                current.updateCount == old(current.updateCount) + 1 &&
                current.initCount == old(current.initCount) &&
                current.resizeCount == old(current.resizeCount)
      ensures forall n :: n in screens && screens[n] != current ==> screens[n].updateCount == old(screens[n].updateCount)
    {
      if current != null {
        current.Update(deltaTime);
      }
    }

    /** Forwards a resize to the current screen only; does nothing without one. */
    method OnResize()
      modifies if current != null then {current} else {}
      ensures current != null ==>
                current.resizeCount == old(current.resizeCount) + 1 &&
                current.initCount == old(current.initCount) &&
                current.updateCount == old(current.updateCount)
      ensures forall n :: n in screens && screens[n] != current ==> screens[n].resizeCount == old(screens[n].resizeCount)
    {
      if current != null {
        current.OnResize();
      }
    }
  }
}
