/**
 One tenant scope between the scope verbs and the goroutine that holds its slot: activate, block, unblock,
 reactivate, the bring-up, the drop, and the settle loop that undoes what a later verb superseded.
 */
module Lifecycle {
  import opened Types

  /** The per-scope state of the verbs. The slot carries true once its holder's work has been superseded. */
  datatype Verbs = Verbs(slot: Option<bool>, blocked: bool, failedAt: Option<int>)

  const Untouched := Verbs(None, false, None)

  predicate Cooling(v: Verbs, now: int, delay: int) { v.failedAt.Some? && now - v.failedAt.value < delay }

  predicate Starts(v: Verbs, tracked: bool, closed: bool, door: bool, now: int, delay: int) {
    !v.blocked && v.slot.None? && !closed && !tracked && !Cooling(v, now, delay) && door
  }

  /** A held slot is marked; a tracked scope nobody holds gets a holder, if the engine still takes work. */
  function Supersede(v: Verbs, tracked: bool, door: bool): Verbs {
    v.(slot := if v.slot.Some? || (tracked && door) then Some(true) else None)
  }

  function Freed(v: Verbs, up: bool, now: int): Verbs
    requires v.slot.Some?
  {
    if v.slot.value then v.(slot := Some(false))
    else v.(slot := None, failedAt := if up then None else Some(now))
  }

  /** The maps behind the verbs, for every scope; each method is one hold of activationsMu. */
  class Activations {
    var activating: map<string, bool>
    var blocked: set<string>
    var failedAt: map<string, int>
    const delay: int

    ghost function View(scope: string): Verbs
      reads this
    {
      Verbs(if scope in activating then Some(activating[scope]) else None, scope in blocked,
            if scope in failedAt then Some(failedAt[scope]) else None)
    }

    twostate predicate OthersSame(scope: string)
      reads this
    {
      forall other :: other != scope ==> View(other) == old(View(other))
    }

    constructor (delay: int)
      ensures forall scope :: View(scope) == Untouched
      ensures this.delay == delay
    {
      activating, blocked, failedAt := map[], {}, map[];
      this.delay := delay;
    }

    method Activate(scope: string, tracked: bool, closed: bool, door: bool, now: int) returns (started: bool)
      modifies this`activating
      ensures started == Starts(old(View(scope)), tracked, closed, door, now, delay)
      ensures View(scope) == if started then old(View(scope)).(slot := Some(false)) else old(View(scope))
      ensures OthersSame(scope)
    {
      if scope in blocked || scope in activating || closed || tracked { return false; }
      if scope in failedAt && now - failedAt[scope] < delay { return false; }
      started := Launch(scope, false, door);
    }

    method Launch(scope: string, rebuild: bool, door: bool) returns (launched: bool)
      modifies this`activating
      ensures launched == door
      ensures activating == if door then old(activating)[scope := rebuild] else old(activating)
    {
      if !door { return false; }
      activating := activating[scope := rebuild];
      return true;
    }

    method Block(scope: string, tracked: bool, door: bool) returns (launched: bool)
      modifies this`activating, this`blocked
      ensures View(scope) == Supersede(old(View(scope)).(blocked := true), tracked, door)
      ensures launched == (old(View(scope)).slot.None? && tracked && door)
      ensures OthersSame(scope)
    {
      blocked := blocked + {scope};
      launched := SupersedeHolder(scope, tracked, door);
    }

    method Unblock(scope: string)
      modifies this`blocked, this`failedAt
      ensures View(scope) == old(View(scope)).(blocked := false, failedAt := None)
      ensures OthersSame(scope)
    {
      blocked := blocked - {scope};
      failedAt := failedAt - {scope};
    }

    method Reactivate(scope: string, tracked: bool, door: bool) returns (launched: bool)
      modifies this`activating, this`failedAt
      ensures View(scope) ==
        if old(View(scope)).blocked then old(View(scope))
        else Supersede(old(View(scope)).(failedAt := None), tracked, door)
      ensures launched == (!old(View(scope)).blocked && old(View(scope)).slot.None? && tracked && door)
      ensures OthersSame(scope)
    {
      if scope in blocked { return false; }
      failedAt := failedAt - {scope};
      launched := SupersedeHolder(scope, tracked, door);
    }

    method SupersedeHolder(scope: string, tracked: bool, door: bool) returns (launched: bool)
      modifies this`activating
      ensures View(scope) == Supersede(old(View(scope)), tracked, door)
      ensures launched == (old(View(scope)).slot.None? && tracked && door)
      ensures OthersSame(scope)
    {
      if scope in activating {
        activating := activating[scope := true];
        return false;
      }
      if !tracked { return false; }
      launched := Launch(scope, true, door);
    }

    method Release(scope: string, up: bool, now: int) returns (released: bool)
      requires scope in activating
      modifies this`activating, this`failedAt
      ensures View(scope) == Freed(old(View(scope)), up, now)
      ensures released == !old(activating)[scope]
      ensures OthersSame(scope)
    {
      if activating[scope] {
        activating := activating[scope := false];
        return false;
      }
      activating := activating - {scope};
      if up { failedAt := failedAt - {scope}; } else { failedAt := failedAt[scope := now]; }
      return true;
    }
  }

  // ----- The scope and its holder, step by step -----

  /** A tracked state; it is named by the moment it was created. */
  datatype State = State(created: nat, subscribed: bool)

  datatype Stage =
    | Launched(rebuild: bool)
    | Resolving
    | Subscribing
    | Waiting
    | Failing
    | Stopping(state: nat, settling: bool)   // out of the map, its goroutines about to be stopped
    | Ending(up: bool)
    | Dropping
    | Deciding
    | Cleared

  datatype Sys = Sys(
    verbs: Verbs,
    tracked: Option<State>,
    holders: map<nat, Stage>,
    stopped: map<nat, nat>,     // states whose reconcileStop is closed, and when
    closed: bool,
    door: bool,
    wall: int,                  // the wall clock the cooldown is measured on
    delay: int,
    clock: nat,
    left: map<nat, nat>,        // history: when a state left the scope map
    superseded: nat,            // history: when Block or Reactivate last took effect
    marks: nat,                 // history: slots marked or taken as superseded
    settles: nat,               // history: turns of the settle loop
    starts: nat)                // history: activations started

  function Init(delay: int): Sys {
    Sys(Untouched, None, map[], map[], false, true, 0, delay, 1, map[], 0, 0, 0, 0)
  }

  datatype Action =
    | Activate(id: nat)
    | Block(id: nat)
    | Unblock
    | Reactivate(id: nat)
    | Close
    | ShutDoor
    | Run(id: nat)
    | Resolve(id: nat)
    | Subscribed(id: nat, ok: bool)
    | Reconciled(id: nat, ok: bool)
    | Interrupted(id: nat)
    | Fail(id: nat)
    | Drop(id: nat)
    | Stop(id: nat)
    | Release(id: nat)
    | Decide(id: nat)
    | Rebuild(id: nat)
    | Tick(passed: nat)

  predicate At(s: Sys, id: nat, stage: Stage) { id in s.holders && s.holders[id] == stage }

  predicate Enabled(s: Sys, a: Action) {
    match a
    case Activate(id) => id !in s.holders
    case Block(id) => id !in s.holders
    case Unblock => true
    case Reactivate(id) => id !in s.holders
    case Close => true
    case ShutDoor => s.closed    // Close shuts the door only after it has raised the flag
    case Run(id) => id in s.holders && s.holders[id].Launched?
    case Resolve(id) => At(s, id, Resolving)
    case Subscribed(id, _) => At(s, id, Subscribing)
    case Reconciled(id, _) => At(s, id, Waiting)
    case Interrupted(id) => At(s, id, Waiting) && s.closed
    case Fail(id) => At(s, id, Failing)
    case Drop(id) => At(s, id, Dropping)
    case Stop(id) => id in s.holders && s.holders[id].Stopping?
    case Release(id) => id in s.holders && s.holders[id].Ending? && s.verbs.slot.Some?
    case Decide(id) => At(s, id, Deciding)
    case Rebuild(id) => At(s, id, Cleared)
    case Tick(_) => true
  }

  function Step(s: Sys, id: nat, stage: Stage): Sys {
    s.(holders := s.holders[id := stage])
  }

  function SupersedeStep(s: Sys, verbs: Verbs, id: nat): Sys {
    var v := Supersede(verbs, s.tracked.Some?, s.door);
    s.(verbs := v, superseded := s.clock, marks := if v.slot.Some? then s.marks + 1 else s.marks,
       holders := if verbs.slot.None? && v.slot.Some? then s.holders[id := Launched(true)] else s.holders)
  }

  function ResolveStep(s: Sys, id: nat): Sys {
    match s.tracked
    case Some(state) => Step(s, id, if state.subscribed then Waiting else Subscribing)
    case None =>
      if s.closed then Step(s, id, Failing)
      else Step(s, id, Subscribing).(tracked := Some(State(s.clock, false)))
  }

  function SubscribedStep(s: Sys, id: nat, ok: bool): Sys {
    if !ok || s.closed then Step(s, id, Failing)
    else Step(s, id, Waiting).(tracked := if s.tracked.Some? then Some(s.tracked.value.(subscribed := true)) else None)
  }

  /** dropScope: out of the map first, then the teardown. */
  function Untrack(s: Sys, id: nat, settling: bool): Sys {
    Step(s, id, if s.tracked.Some? then Stopping(s.tracked.value.created, settling)
                else if settling then Deciding else Ending(false)).(
      tracked := None, left := if s.tracked.Some? then s.left[s.tracked.value.created := s.clock] else s.left)
  }

  function ReleaseStep(s: Sys, id: nat): Sys
    requires id in s.holders && s.holders[id].Ending? && s.verbs.slot.Some?
  {
    var v := Freed(s.verbs, s.holders[id].up, s.wall);
    if s.verbs.slot.value then Step(s, id, Dropping).(verbs := v, settles := s.settles + 1)
    else s.(verbs := v, holders := s.holders - {id})
  }

  function ActivateStep(s: Sys, id: nat): Sys {
    if Starts(s.verbs, s.tracked.Some?, s.closed, s.door, s.wall, s.delay)
    then Step(s, id, Launched(false)).(verbs := s.verbs.(slot := Some(false)), starts := s.starts + 1) else s
  }

  function StopStep(s: Sys, id: nat): Sys
    requires id in s.holders && s.holders[id].Stopping?
  {
    var stage := s.holders[id];
    Step(s, id, if stage.settling then Deciding else Ending(false)).(stopped := s.stopped[stage.state := s.clock])
  }

  function Next(s: Sys, a: Action): Sys
    requires Enabled(s, a)
  {
    var s' := match a
      case Activate(id) => ActivateStep(s, id)
      case Block(id) => SupersedeStep(s, s.verbs.(blocked := true), id)
      case Unblock => s.(verbs := s.verbs.(blocked := false, failedAt := None))
      case Reactivate(id) => if s.verbs.blocked then s else SupersedeStep(s, s.verbs.(failedAt := None), id)
      case Close => s.(closed := true)
      case ShutDoor => s.(door := false)
      case Run(id) => Step(s, id, if s.holders[id].rebuild then Ending(false) else Resolving)
      case Resolve(id) => ResolveStep(s, id)
      case Subscribed(id, ok) => SubscribedStep(s, id, ok)
      case Reconciled(id, ok) => Step(s, id, if ok then Ending(true) else Failing)
      case Interrupted(id) => Step(s, id, Ending(false))
      case Fail(id) => Untrack(s, id, false)
      case Drop(id) => Untrack(s, id, true)
      case Stop(id) => StopStep(s, id)
      case Release(id) => ReleaseStep(s, id)
      case Decide(id) => Step(s, id, if s.verbs.blocked then Ending(false) else Cleared)
      case Rebuild(id) => Step(s, id, if s.closed then Ending(false) else Resolving)
      case Tick(passed) => s.(wall := s.wall + passed);
    s'.(clock := s.clock + 1)
  }

  ghost predicate Possible(s: Sys, run: seq<Action>)
    decreases |run|
  {
    |run| > 0 ==> Enabled(s, run[0]) && Possible(Next(s, run[0]), run[1..])
  }

  ghost function After(s: Sys, run: seq<Action>): Sys
    requires Possible(s, run)
    decreases |run|
  {
    if |run| == 0 then s else After(Next(s, run[0]), run[1..])
  }

  // ----- What holds throughout -----

  /** One holder at most, exactly while the slot is taken. */
  predicate OneHolder(s: Sys) {
    && (s.verbs.slot.Some? <==> s.holders != map[])
    && (forall id, other :: id in s.holders && other in s.holders ==> id == other)
    && (!s.closed ==> s.door)
  }

  /** Past the drop and not building: nothing is tracked. */
  predicate Bare(s: Sys, stage: Stage) {
    stage.Deciding? || stage.Cleared? || stage.Stopping? ==> s.tracked.None?
  }

  /** With its mark clear, a holder either is about to drop, or holds nothing a verb has superseded. */
  predicate Current(s: Sys, stage: Stage) {
    && Bare(s, stage)
    && (s.verbs.slot == Some(false) && !s.closed ==>
          && !(stage == Launched(true)) && (stage == Ending(false) ==> s.tracked.None?)
          && (stage.Dropping? || (s.tracked.Some? ==> s.tracked.value.created > s.superseded))
          && (s.verbs.blocked ==>
                stage.Dropping? || (s.tracked.None? && (stage.Stopping? || stage.Deciding? || stage == Ending(false)))))
  }

  predicate Held(s: Sys) {
    && (forall id :: id in s.holders ==> Current(s, s.holders[id]))
    && (s.verbs.slot.None? && !s.closed && s.tracked.Some? ==>
         !s.verbs.blocked && s.tracked.value.created > s.superseded)
    && (s.tracked.Some? ==> s.tracked.value.created < s.clock)
    && s.superseded < s.clock
  }

  predicate Settling(s: Sys) {
    s.settles + (if s.verbs.slot == Some(true) then 1 else 0) <= s.marks
  }

  /** A state is tracked, then out of the map, then stopped: in that order, each once. */
  predicate InOrder(s: Sys) {
    && (s.tracked.Some? ==> s.tracked.value.created !in s.left)
    && (forall state :: state in s.left ==> state < s.left[state] < s.clock)
    && (forall state :: state in s.stopped ==> state in s.left && s.left[state] < s.stopped[state] < s.clock)
    && (forall id :: id in s.holders && s.holders[id].Stopping? ==>
          s.holders[id].state in s.left && s.holders[id].state !in s.stopped)
  }

  ghost predicate Inv(s: Sys) {
    OneHolder(s) && Held(s) && Settling(s) && InOrder(s)
  }

  predicate IsVerb(a: Action) {
    a.Activate? || a.Block? || a.Unblock? || a.Reactivate? || a.Close? || a.ShutDoor? || a.Tick?
  }

  predicate IsBuild(a: Action) { a.Run? || a.Resolve? || a.Subscribed? || a.Reconciled? || a.Interrupted? }

  lemma OneHolderKept(s: Sys, a: Action)
    requires OneHolder(s) && Enabled(s, a)
    ensures OneHolder(Next(s, a))
  {
    if IsVerb(a) { OneHolderByVerb(s, a); } else { OneHolderByHolder(s, a); }
  }

  lemma OneHolderByVerb(s: Sys, a: Action)
    requires OneHolder(s) && Enabled(s, a) && IsVerb(a)
    ensures OneHolder(Next(s, a))
  {
  }

  lemma OneHolderByHolder(s: Sys, a: Action)
    requires OneHolder(s) && Enabled(s, a) && !IsVerb(a)
    ensures OneHolder(Next(s, a))
  {
    if IsBuild(a) { OneHolderByBuilding(s, a); } else { OneHolderByEnding(s, a); }
  }

  lemma OneHolderByBuilding(s: Sys, a: Action)
    requires OneHolder(s) && Enabled(s, a) && IsBuild(a)
    ensures OneHolder(Next(s, a))
  {
    hide Supersede, Starts, Freed;
    var s' := Next(s, a);
    assert s'.holders.Keys == s.holders.Keys;
  }

  lemma OneHolderByEnding(s: Sys, a: Action)
    requires OneHolder(s) && Enabled(s, a) && !IsVerb(a) && !IsBuild(a)
    ensures OneHolder(Next(s, a))
  {
    if a.Release? { OneHolderByRelease(s, a.id); }
    else {
      hide Supersede, Starts, Freed;
      var s' := Next(s, a);
      assert s'.holders.Keys == s.holders.Keys;
    }
  }

  lemma OneHolderByRelease(s: Sys, id: nat)
    requires OneHolder(s) && Enabled(s, Release(id))
    ensures OneHolder(Next(s, Release(id)))
  {
    var s' := Next(s, Release(id));
    assert id in s'.holders || s'.holders == map[];
  }

  lemma HeldKept(s: Sys, a: Action)
    requires OneHolder(s) && Held(s) && Enabled(s, a)
    ensures Held(Next(s, a))
  {
    if IsVerb(a) { HeldByVerb(s, a); } else { HeldByHolder(s, a); }
  }

  lemma HeldByVerb(s: Sys, a: Action)
    requires OneHolder(s) && Held(s) && Enabled(s, a) && IsVerb(a)
    ensures Held(Next(s, a))
  {
  }

  lemma HeldByHolder(s: Sys, a: Action)
    requires OneHolder(s) && Held(s) && Enabled(s, a) && !IsVerb(a)
    ensures Held(Next(s, a))
  {
    hide OneHolder, Held, ResolveStep, SubscribedStep, Untrack, StopStep, ReleaseStep;
    match a {
      case Resolve(id) => HeldByResolve(s, id);
      case Subscribed(id, ok) => HeldBySubscribed(s, id, ok);
      case Fail(id) => HeldByUntrack(s, id, false);
      case Drop(id) => HeldByUntrack(s, id, true);
      case Stop(id) => HeldByStop(s, id);
      case Release(id) => HeldByRelease(s, id);
      case Run(id) => HeldByStage(s, id, if s.holders[id].rebuild then Ending(false) else Resolving);
      case Reconciled(id, ok) => HeldByStage(s, id, if ok then Ending(true) else Failing);
      case Interrupted(id) => HeldByStage(s, id, Ending(false));
      case Decide(id) => HeldByStage(s, id, if s.verbs.blocked then Ending(false) else Cleared);
      case Rebuild(id) => HeldByStage(s, id, if s.closed then Ending(false) else Resolving);
    }
  }

  lemma HeldByResolve(s: Sys, id: nat)
    requires OneHolder(s) && Held(s) && At(s, id, Resolving)
    ensures Held(ResolveStep(s, id).(clock := s.clock + 1))
  {
    assert Current(s, s.holders[id]);
  }

  lemma HeldBySubscribed(s: Sys, id: nat, ok: bool)
    requires OneHolder(s) && Held(s) && At(s, id, Subscribing)
    ensures Held(SubscribedStep(s, id, ok).(clock := s.clock + 1))
  {
    assert Current(s, s.holders[id]);
  }

  lemma HeldByUntrack(s: Sys, id: nat, settling: bool)
    requires OneHolder(s) && Held(s) && At(s, id, if settling then Dropping else Failing)
    ensures Held(Untrack(s, id, settling).(clock := s.clock + 1))
  {
    assert Current(s, s.holders[id]);
  }

  lemma HeldByStop(s: Sys, id: nat)
    requires OneHolder(s) && Held(s) && id in s.holders && s.holders[id].Stopping?
    ensures Held(StopStep(s, id).(clock := s.clock + 1))
  {
    assert Current(s, s.holders[id]);
  }

  lemma HeldByRelease(s: Sys, id: nat)
    requires OneHolder(s) && Held(s) && Enabled(s, Release(id))
    ensures Held(ReleaseStep(s, id).(clock := s.clock + 1))
  {
    assert Current(s, s.holders[id]);
  }

  /** The stages a holder passes without touching the scope map. */
  predicate Passes(s: Sys, from: Stage, to: Stage) {
    match from
    case Launched(rebuild) => to == if rebuild then Ending(false) else Resolving
    case Waiting => to == Ending(true) || to == Failing || (to == Ending(false) && s.closed)
    case Deciding => to == if s.verbs.blocked then Ending(false) else Cleared
    case Cleared => to == if s.closed then Ending(false) else Resolving
    case _ => false
  }

  lemma HeldByStage(s: Sys, id: nat, to: Stage)
    requires OneHolder(s) && Held(s) && id in s.holders && Passes(s, s.holders[id], to)
    ensures Held(Step(s, id, to).(clock := s.clock + 1))
  {
    assert Current(s, s.holders[id]);
  }

  lemma SettlingKept(s: Sys, a: Action)
    requires OneHolder(s) && Settling(s) && Enabled(s, a)
    ensures Settling(Next(s, a))
  {
  }

  /** A step that moves no state: nothing tracked, untracked or stopped. */
  predicate SameStates(s: Sys, s': Sys) {
    && s'.left == s.left && s'.stopped == s.stopped && s'.clock == s.clock + 1
    && (s'.tracked.Some? ==>
          s'.tracked.value.created == if s.tracked.Some? then s.tracked.value.created else s.clock)
    && (s.tracked.Some? ==> s'.tracked.Some?)
    && forall id :: id in s'.holders && s'.holders[id].Stopping? ==> id in s.holders && s.holders[id] == s'.holders[id]
  }

  lemma SameStatesKeeps(s: Sys, s': Sys)
    requires InOrder(s) && SameStates(s, s')
    ensures InOrder(s')
  {
  }

  lemma VerbsMoveNoState(s: Sys, a: Action)
    requires Enabled(s, a) && IsVerb(a)
    ensures SameStates(s, Next(s, a))
  {
    hide Starts, Freed, Cooling, SupersedeStep, SameStates;
    match a {
      case Block(id) => SupersedeMovesNoState(s, s.verbs.(blocked := true), id);
      case Reactivate(id) =>
        if s.verbs.blocked { IdleMovesNoState(s, a); }
        else { SupersedeMovesNoState(s, s.verbs.(failedAt := None), id); }
      case _ => IdleMovesNoState(s, a);
    }
  }

  lemma SupersedeMovesNoState(s: Sys, verbs: Verbs, id: nat)
    ensures SameStates(s, SupersedeStep(s, verbs, id).(clock := s.clock + 1))
  {
    hide Supersede;
  }

  lemma IdleMovesNoState(s: Sys, a: Action)
    requires Enabled(s, a) && IsVerb(a) && !a.Block? && (a.Reactivate? ==> s.verbs.blocked)
    ensures SameStates(s, Next(s, a))
  {
    hide Starts, Freed, Cooling, SupersedeStep;
  }

  lemma BuildingMovesNoState(s: Sys, a: Action)
    requires Enabled(s, a) && IsBuild(a)
    ensures SameStates(s, Next(s, a))
  {
    hide Supersede, Starts, Freed, SameStates, ResolveStep, SubscribedStep;
    match a {
      case Resolve(id) => ResolveMovesNoState(s, id);
      case Subscribed(id, ok) => SubscribedMovesNoState(s, id, ok);
      case Run(id) => StageMovesNoState(s, id, if s.holders[id].rebuild then Ending(false) else Resolving);
      case Reconciled(id, ok) => StageMovesNoState(s, id, if ok then Ending(true) else Failing);
      case Interrupted(id) => StageMovesNoState(s, id, Ending(false));
    }
  }

  lemma ResolveMovesNoState(s: Sys, id: nat)
    ensures SameStates(s, ResolveStep(s, id).(clock := s.clock + 1))
  {
  }

  lemma SubscribedMovesNoState(s: Sys, id: nat, ok: bool)
    ensures SameStates(s, SubscribedStep(s, id, ok).(clock := s.clock + 1))
  {
  }

  lemma StageMovesNoState(s: Sys, id: nat, to: Stage)
    requires !to.Stopping?
    ensures SameStates(s, Step(s, id, to).(clock := s.clock + 1))
  {
  }

  lemma SettlingMovesNoState(s: Sys, a: Action)
    requires Enabled(s, a) && (a.Release? || a.Decide? || a.Rebuild?)
    ensures SameStates(s, Next(s, a))
  {
    hide Supersede, Starts;
  }

  lemma UntrackKeepsOrder(s: Sys, id: nat, settling: bool)
    requires Held(s) && InOrder(s) && OneHolder(s) && id in s.holders
    ensures InOrder(Untrack(s, id, settling).(clock := s.clock + 1))
  {
    hide Current;
  }

  lemma StopKeepsOrder(s: Sys, id: nat)
    requires InOrder(s) && OneHolder(s) && id in s.holders && s.holders[id].Stopping?
    ensures InOrder(StopStep(s, id).(clock := s.clock + 1))
  {
  }

  lemma InOrderKept(s: Sys, a: Action)
    requires OneHolder(s) && Held(s) && InOrder(s) && Enabled(s, a)
    ensures InOrder(Next(s, a))
  {
    hide OneHolder, Held, InOrder, SameStates, Untrack, StopStep;
    match a {
      case Fail(id) => UntrackKeepsOrder(s, id, false);
      case Drop(id) => UntrackKeepsOrder(s, id, true);
      case Stop(id) => StopKeepsOrder(s, id);
      case _ =>
        if IsVerb(a) { VerbsMoveNoState(s, a); }
        else if IsBuild(a) { BuildingMovesNoState(s, a); }
        else { SettlingMovesNoState(s, a); }
        SameStatesKeeps(s, Next(s, a));
    }
  }

  /** What any step may do to the states: known ones stay known, and leave the map or stop only from now on. */
  predicate Ages(s: Sys, s': Sys) {
    && s'.clock == s.clock + 1
    && (forall state :: state in s.left ==> state in s'.left && s'.left[state] == s.left[state])
    && (forall state :: state in s'.left && state !in s.left ==>
          s'.left[state] == s.clock && s.tracked.Some? && s.tracked.value.created == state)
    && (forall state :: state in s.stopped ==> state in s'.stopped && s'.stopped[state] == s.stopped[state])
    && (forall state :: state in s'.stopped && state !in s.stopped ==> s'.stopped[state] == s.clock)
    && (s.tracked.Some? ==>
          (s'.tracked.Some? && s'.tracked.value.created == s.tracked.value.created)
          || s.tracked.value.created in s'.left)
  }

  lemma SameStatesAge(s: Sys, s': Sys)
    requires SameStates(s, s')
    ensures Ages(s, s')
  {
  }

  lemma UntrackAges(s: Sys, id: nat, settling: bool)
    requires InOrder(s)
    ensures Ages(s, Untrack(s, id, settling).(clock := s.clock + 1))
  {
  }

  lemma StopAges(s: Sys, id: nat)
    requires InOrder(s) && id in s.holders && s.holders[id].Stopping?
    ensures Ages(s, StopStep(s, id).(clock := s.clock + 1))
  {
  }

  lemma StatesAge(s: Sys, a: Action)
    requires Inv(s) && Enabled(s, a)
    ensures Ages(s, Next(s, a))
  {
    hide OneHolder, Held, Settling, InOrder, SameStates, Ages, Untrack, StopStep;
    match a {
      case Fail(id) => UntrackAges(s, id, false);
      case Drop(id) => UntrackAges(s, id, true);
      case Stop(id) => StopAges(s, id);
      case _ =>
        if IsVerb(a) { VerbsMoveNoState(s, a); }
        else if IsBuild(a) { BuildingMovesNoState(s, a); }
        else { SettlingMovesNoState(s, a); }
        SameStatesAge(s, Next(s, a));
    }
  }

  lemma {:induction false} RunKeepsInv(s: Sys, run: seq<Action>)
    requires Inv(s) && Possible(s, run)
    ensures Inv(After(s, run))
    decreases |run|
  {
    hide Next, Enabled, OneHolder, Held, Settling, InOrder;
    if |run| > 0 {
      OneHolderKept(s, run[0]);
      HeldKept(s, run[0]);
      SettlingKept(s, run[0]);
      InOrderKept(s, run[0]);
      RunKeepsInv(Next(s, run[0]), run[1..]);
    }
  }

  ghost predicate Reachable(s: Sys) {
    exists run :: Possible(Init(s.delay), run) && After(Init(s.delay), run) == s
  }

  lemma ReachableInv(s: Sys)
    requires Reachable(s)
    ensures Inv(s)
  {
    hide Next, Enabled;
    var run :| Possible(Init(s.delay), run) && After(Init(s.delay), run) == s;
    RunKeepsInv(Init(s.delay), run);
  }

  // ----- What the verbs promise -----

  /** The slot has one holder at most, and is taken exactly while it has one. */
  lemma SlotHasOneHolder(s: Sys)
    requires Reachable(s)
    ensures s.verbs.slot.Some? <==> s.holders != map[]
    ensures forall id, other :: id in s.holders && other in s.holders ==> id == other
  {
    hide Held, Settling, InOrder;
    ReachableInv(s);
  }

  /** While the engine is open, a blocked scope nobody is working on is out of service. */
  lemma BlockedIsUntracked(s: Sys)
    requires Reachable(s) && !s.closed && s.verbs.slot.None? && s.verbs.blocked
    ensures s.tracked.None?
  {
    hide OneHolder, Settling, InOrder, Current;
    ReachableInv(s);
  }

  /** Whatever is in service once the slot is free was built after the last Block or Reactivate. */
  lemma ServedStateIsCurrent(s: Sys)
    requires Reachable(s) && !s.closed && s.verbs.slot.None? && s.tracked.Some?
    ensures s.tracked.value.created > s.superseded
  {
    hide OneHolder, Settling, InOrder, Current;
    ReachableInv(s);
  }

  /** The settle loop turns at most once for every time a verb superseded somebody. */
  lemma SettleLoopIsBounded(s: Sys)
    requires Reachable(s)
    ensures s.settles <= s.marks
  {
    hide OneHolder, Held, InOrder;
    ReachableInv(s);
  }

  // ----- The cooldown -----

  /** The verbs that end a cooldown early. */
  predicate Clears(a: Action) { a.Unblock? || a.Reactivate? }

  predicate NeverCleared(run: seq<Action>) {
    forall i :: 0 <= i < |run| ==> !Clears(run[i])
  }

  /** Out of service after a failure recorded at `failed`, the window not over. */
  predicate CoolingDown(s: Sys, failed: int) {
    && s.verbs.slot.None? && s.holders == map[] && s.tracked.None?
    && s.verbs.failedAt == Some(failed) && s.wall - failed < s.delay
  }

  lemma CoolingKept(s: Sys, a: Action, failed: int)
    requires CoolingDown(s, failed) && Enabled(s, a) && !Clears(a)
    ensures Next(s, a).starts == s.starts && Next(s, a).delay == s.delay && Next(s, a).wall >= s.wall
    ensures CoolingDown(Next(s, a), failed) || Next(s, a).wall - failed >= s.delay
  {
  }

  lemma WallKept(s: Sys, a: Action)
    requires Enabled(s, a)
    ensures Next(s, a).wall >= s.wall && Next(s, a).delay == s.delay
  {
    if IsVerb(a) { WallKeptByVerb(s, a); } else { WallKeptByHolder(s, a); }
  }

  lemma WallKeptByVerb(s: Sys, a: Action)
    requires Enabled(s, a) && IsVerb(a)
    ensures Next(s, a).wall >= s.wall && Next(s, a).delay == s.delay
  {
    hide Starts, Supersede, Freed;
  }

  lemma WallKeptByHolder(s: Sys, a: Action)
    requires Enabled(s, a) && !IsVerb(a)
    ensures Next(s, a).wall >= s.wall && Next(s, a).delay == s.delay
  {
    hide Starts, Supersede, Freed;
  }

  lemma {:induction false} WallNeverTurnsBack(s: Sys, run: seq<Action>)
    requires Possible(s, run)
    ensures After(s, run).wall >= s.wall && After(s, run).delay == s.delay
    decreases |run|
  {
    hide Next, Enabled;
    if |run| > 0 {
      WallKept(s, run[0]);
      WallNeverTurnsBack(Next(s, run[0]), run[1..]);
    }
  }

  lemma {:induction false} CoolingThroughout(s: Sys, run: seq<Action>, failed: int)
    requires CoolingDown(s, failed) && Possible(s, run) && NeverCleared(run)
    requires After(s, run).wall - failed < s.delay
    ensures CoolingDown(After(s, run), failed) && After(s, run).starts == s.starts
    decreases |run|
  {
    hide CoolingDown, Next, Enabled;
    if |run| > 0 {
      CoolingKept(s, run[0], failed);
      WallNeverTurnsBack(Next(s, run[0]), run[1..]);
      CoolingThroughout(Next(s, run[0]), run[1..], failed);
    }
  }

  /**
   A tenant that cannot come up costs one attempt per window: once an attempt has failed on an open engine, no
   run starts another, and the scope stays out of service, until the window is over or a verb clears it. Then,
   and only then, the next call starts one.
   */
  lemma {:induction false} OneAttemptPerWindow(s: Sys, id: nat, run: seq<Action>)
    requires Reachable(s) && !s.closed && s.delay > 0
    requires Enabled(s, Release(id)) && s.holders[id] == Ending(false) && s.verbs.slot == Some(false)
    requires Possible(Next(s, Release(id)), run) && NeverCleared(run)
    ensures var end := After(Next(s, Release(id)), run);
      end.wall - s.wall < s.delay ==>
        && end.starts == s.starts && end.tracked.None? && end.holders == map[]
        && forall other :: Enabled(end, Activate(other)) ==> Next(end, Activate(other)).starts == end.starts
    ensures var cool := Next(s, Release(id)).(wall := s.wall + s.delay);
      forall other :: Enabled(cool, Activate(other)) ==>
        (Next(cool, Activate(other)).starts == s.starts + 1 <==> !s.verbs.blocked)
  {
    hide Settling, InOrder;
    ReachableInv(s);
    assert Current(s, s.holders[id]);
    FailedReleaseCools(s, id);
    if After(Next(s, Release(id)), run).wall - s.wall < s.delay {
      CoolingThroughout(Next(s, Release(id)), run, s.wall);
    }
  }

  lemma FailedReleaseCools(s: Sys, id: nat)
    requires OneHolder(s) && Held(s) && !s.closed && s.delay > 0
    requires Enabled(s, Release(id)) && s.holders[id] == Ending(false) && s.verbs.slot == Some(false)
    ensures CoolingDown(Next(s, Release(id)), s.wall)
  {
    assert Current(s, s.holders[id]);
  }

  // ----- What the next call starts, read off the run -----

  /** The last Block or Unblock was a Block. */
  predicate LastBlocks(run: seq<Action>, before: bool)
    decreases |run|
  {
    if |run| == 0 then before
    else LastBlocks(run[1..], if run[0].Block? then true else if run[0].Unblock? then false else before)
  }

  /** What a step does to the cooldown: an attempt that failed opens one, a success or a verb ends it. */
  datatype Cooldown = Same | Over | Opened(at: int)

  function CooldownOf(s: Sys, a: Action): Cooldown
    requires Enabled(s, a)
  {
    match a
    case Unblock => Over
    case Reactivate(_) => if s.verbs.blocked then Same else Over
    case Release(id) =>
      if s.verbs.slot == Some(true) then Same     // superseded meanwhile: the holder goes on
      else if s.holders[id].up then Over else Opened(s.wall)
    case _ => Same
  }

  ghost function Cooldowns(s: Sys, run: seq<Action>): seq<Cooldown>
    requires Possible(s, run)
    decreases |run|
  {
    if |run| == 0 then [] else [CooldownOf(s, run[0])] + Cooldowns(Next(s, run[0]), run[1..])
  }

  function LastOpened(cs: seq<Cooldown>, before: Option<int>): Option<int>
    decreases |cs|
  {
    if |cs| == 0 then before
    else LastOpened(cs[1..], match cs[0] case Same => before case Over => None case Opened(at) => Some(at))
  }

  lemma StepTells(s: Sys, a: Action)
    requires Enabled(s, a)
    ensures Next(s, a).verbs.blocked <==> if a.Block? then true else if a.Unblock? then false else s.verbs.blocked
    ensures Next(s, a).verbs.failedAt
      == match CooldownOf(s, a) case Same => s.verbs.failedAt case Over => None case Opened(at) => Some(at)
    ensures Next(s, a).closed <==> s.closed || a.Close?
  {
    hide Starts;
  }

  lemma {:induction false} RunTells(s: Sys, run: seq<Action>)
    requires Possible(s, run)
    ensures After(s, run).verbs.blocked <==> LastBlocks(run, s.verbs.blocked)
    ensures After(s, run).verbs.failedAt == LastOpened(Cooldowns(s, run), s.verbs.failedAt)
    ensures After(s, run).closed <==> s.closed || Close in run
    decreases |run|
  {
    hide Next, Enabled, CooldownOf;
    if |run| > 0 {
      var s1, c := Next(s, run[0]), CooldownOf(s, run[0]);
      StepTells(s, run[0]);
      RunTells(s1, run[1..]);
      assert ([c] + Cooldowns(s1, run[1..]))[1..] == Cooldowns(s1, run[1..]);
      assert run == [run[0]] + run[1..];
    }
  }

  /**
   When a call starts an activation, over every run: exactly if the last of Block and Unblock was not a Block, nobody
   holds the slot, the scope is not in service, Close was never called, and no failed attempt whose window is still
   open has gone uncleared. A call that starts nothing changes nothing, so a scope in service is left alone.
   */
  lemma {:induction false} ActivateStartsExactly(delay: int, run: seq<Action>, id: nat)
    requires Possible(Init(delay), run) && Enabled(After(Init(delay), run), Activate(id))
    ensures var s := After(Init(delay), run);
      var s', failed := Next(s, Activate(id)), LastOpened(Cooldowns(Init(delay), run), None);
      if !LastBlocks(run, false) && s.holders == map[] && s.tracked.None? && Close !in run
         && (failed.None? || s.wall - failed.value >= s.delay)
      then s'.starts == s.starts + 1 && s'.holders == map[id := Launched(false)] && s'.tracked.None?
      else s' == s.(clock := s.clock + 1)
  {
    hide Next, Enabled, Settling, InOrder, Held;
    var s := After(Init(delay), run);
    RunTells(Init(delay), run);
    DelayStays(Init(delay), run);
    assert Reachable(s);
    ReachableInv(s);
    ActivateStepExactly(s, id);
  }

  lemma {:induction false} DelayStays(s: Sys, run: seq<Action>)
    requires Possible(s, run)
    ensures After(s, run).delay == s.delay
  {
    hide Next, Enabled;
    WallNeverTurnsBack(s, run);
  }

  lemma ActivateStepExactly(s: Sys, id: nat)
    requires OneHolder(s) && Enabled(s, Activate(id))
    ensures var s' := Next(s, Activate(id));
      if !s.verbs.blocked && s.holders == map[] && s.tracked.None? && !s.closed
         && (s.verbs.failedAt.None? || s.wall - s.verbs.failedAt.value >= s.delay)
      then s'.starts == s.starts + 1 && s'.holders == map[id := Launched(false)] && s'.tracked.None?
      else s' == s.(clock := s.clock + 1)
  {
  }

  /** Once Close has shut the door no run adds a holder: not a call, not a verb over a scope in service. */
  lemma {:induction false} NoHolderPastTheDoor(s: Sys, run: seq<Action>)
    requires !s.door && Possible(s, run)
    ensures After(s, run).holders.Keys <= s.holders.Keys && After(s, run).starts == s.starts && !After(s, run).door
    decreases |run|
  {
    hide Next, Enabled;
    if |run| > 0 {
      DoorStaysShut(s, run[0]);
      NoHolderPastTheDoor(Next(s, run[0]), run[1..]);
    }
  }

  lemma DoorStaysShut(s: Sys, a: Action)
    requires !s.door && Enabled(s, a)
    ensures Next(s, a).holders.Keys <= s.holders.Keys && Next(s, a).starts == s.starts && !Next(s, a).door
  {
    hide Cooling, Freed;
  }
}
