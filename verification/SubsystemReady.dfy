/**
 The readiness barrier of the subsystem manager (core/src/subsystemManager.c:187-234, 620-641,
 830-861). Each notification first sets a flag and later scans all flags, one registration at
 a time; the scans of several notifications interleave with one another and with the flags.
 */
module SubsystemReady {

  datatype Name = Name(text: string)
  datatype Kind = Initialized(subsystem: Name) | DriversStarted
  /** How far a notification has come. */
  datatype Place = Idle | Flagged | Scanning(seen: nat) | Firing | Done
  datatype Task = Task(kind: Kind, at: Place)

  datatype State = State(
    names: seq<Name>,      // registered subsystems in table order
    ready: set<Name>,
    started: bool,
    tasks: seq<Task>,
    fired: nat)            // calls of the ready callback

  function Initial(names: seq<Name>, kinds: seq<Kind>): State {
    State(names, {}, false, seq(|kinds|, i requires 0 <= i < |kinds| => Task(kinds[i], Idle)), 0)
  }

  function Mark(names: seq<Name>, ready: set<Name>, kind: Kind): set<Name> {
    if kind.Initialized? && kind.subsystem in names then ready + {kind.subsystem} else ready
  }

  /** One more step of a notification; a scan stops at the first subsystem that is not ready. */
  function NextPlace(s: State, at: Place): Place {
    match at
    case Idle => Flagged
    case Flagged => Scanning(0)
    case Scanning(k) =>
      if k < |s.names| then if s.names[k] in s.ready then Scanning(k + 1) else Done
      else if s.started then Firing else Done
    case Firing => Done
    case Done => Done
  }

  function Step(s: State, i: nat): State
    requires i < |s.tasks|
  {
    var task := s.tasks[i];
    var moved := s.(tasks := s.tasks[i := task.(at := NextPlace(s, task.at))]);
    if task.at.Idle? then
      moved.(ready := Mark(s.names, s.ready, task.kind), started := s.started || task.kind.DriversStarted?)
    else if task.at.Firing? then moved.(fired := s.fired + 1)
    else moved
  }

  function Run(s: State, run: seq<nat>): State {
    if run == [] then s
    else
      var t, i := Run(s, run[..|run| - 1]), run[|run| - 1];
      if i < |t.tasks| then Step(t, i) else t
  }

  ghost predicate AllSet(s: State) {
    s.started && forall k :: 0 <= k < |s.names| ==> s.names[k] in s.ready
  }

  // ----- the manager, when notifications do not overlap

  class SubsystemManager {
    const names: seq<Name>
    var ready: set<Name>
    var allDriversStarted: bool
    var fired: nat

    constructor (names: seq<Name>)
      ensures this.names == names && ready == {} && !allDriversStarted && fired == 0
    {
      this.names := names;
      ready, allDriversStarted, fired := {}, false, 0;
    }

    ghost predicate AllReady()
      reads this
    {
      allDriversStarted && forall k :: 0 <= k < |names| ==> names[k] in ready
    }

    method IsReadyForDevices() returns (r: bool)
      ensures r <==> AllReady()
    {
      var allReady, k := true, 0;
      while k < |names|
        invariant 0 <= k <= |names| && allReady
        invariant forall j :: 0 <= j < k ==> names[j] in ready
      {
        if names[k] !in ready {
          allReady := false;
          break;
        }
        k := k + 1;
      }
      return allReady && allDriversStarted;
    }

    method OnSubsystemInitialized(subsystem: Name)
      modifies this
      ensures ready == old(ready) + if subsystem in names then {subsystem} else {}
      ensures allDriversStarted == old(allDriversStarted)
      ensures fired == old(fired) + if AllReady() then 1 else 0
    {
      if subsystem in names {
        ready := ready + {subsystem};
      }
      var r := IsReadyForDevices();
      if r {
        fired := fired + 1;
      }
    }

    method AllDriversStarted()
      modifies this
      ensures allDriversStarted && ready == old(ready)
      ensures fired == old(fired) + if AllReady() then 1 else 0
    {
      allDriversStarted := true;
      var r := IsReadyForDevices();
      if r {
        fired := fired + 1;
      }
    }
  }

  // ----- the invariant

  predicate Active(at: Place) {
    at.Flagged? || at.Scanning? || at.Firing?
  }

  ghost predicate SomeActive(s: State) {
    exists i :: 0 <= i < |s.tasks| && Active(s.tasks[i].at)
  }

  /** What a notification has seen is still so. */
  ghost predicate SeenOk(s: State, at: Place) {
    && (at.Scanning? ==> at.seen <= |s.names| && forall k :: 0 <= k < at.seen ==> s.names[k] in s.ready)
    && (at.Firing? ==> AllSet(s))
  }

  /** A notification that has begun has set its flag. */
  predicate MarkedOk(s: State, task: Task) {
    !task.at.Idle? ==>
      match task.kind
      case Initialized(n) => n in s.names ==> n in s.ready
      case DriversStarted => s.started
  }

  ghost predicate Inv(s: State) {
    && (forall i :: 0 <= i < |s.tasks| ==> SeenOk(s, s.tasks[i].at) && MarkedOk(s, s.tasks[i]))
    && (s.fired > 0 ==> AllSet(s))
    && (AllSet(s) ==> s.fired > 0 || SomeActive(s))
  }

  lemma AllSetGrows(s: State, i: nat)
    requires i < |s.tasks|
    ensures AllSet(s) ==> AllSet(Step(s, i))
    ensures !s.tasks[i].at.Idle? && AllSet(Step(s, i)) ==> AllSet(s)
  {
  }

  lemma StepTaskOk(s: State, i: nat, j: nat)
    requires Inv(s) && i < |s.tasks| && j < |s.tasks|
    ensures SeenOk(Step(s, i), Step(s, i).tasks[j].at) && MarkedOk(Step(s, i), Step(s, i).tasks[j])
  {
    assert SeenOk(s, s.tasks[j].at) && MarkedOk(s, s.tasks[j]);
    AllSetGrows(s, i);
  }

  /** Once everything is set, a notification on its way keeps going until it fires. */
  lemma StepActive(s: State, i: nat)
    requires Inv(s) && i < |s.tasks| && AllSet(Step(s, i))
    ensures Step(s, i).fired > 0 || SomeActive(Step(s, i))
  {
    var t := Step(s, i);
    assert SeenOk(s, s.tasks[i].at);
    AllSetGrows(s, i);
    if s.tasks[i].at.Idle? {
      assert Active(t.tasks[i].at);
    } else if s.fired == 0 {
      var j :| 0 <= j < |s.tasks| && Active(s.tasks[j].at);
      assert t.fired > 0 || Active(t.tasks[j].at);
    }
  }

  lemma StepKeeps(s: State, i: nat)
    requires Inv(s) && i < |s.tasks|
    ensures Inv(Step(s, i))
  {
    var t := Step(s, i);
    forall j | 0 <= j < |t.tasks|
      ensures SeenOk(t, t.tasks[j].at) && MarkedOk(t, t.tasks[j])
    {
      StepTaskOk(s, i, j);
    }
    AllSetGrows(s, i);
    assert SeenOk(s, s.tasks[i].at);
    if AllSet(t) {
      StepActive(s, i);
    }
  }

  lemma {:induction false} RunKeeps(s: State, run: seq<nat>)
    requires Inv(s)
    ensures var t := Run(s, run);
            && Inv(t) && t.names == s.names && |t.tasks| == |s.tasks|
            && forall i :: 0 <= i < |s.tasks| ==> t.tasks[i].kind == s.tasks[i].kind
  {
    if run != [] {
      var n := |run| - 1;
      RunKeeps(s, run[..n]);
      if run[n] < |s.tasks| {
        StepKeeps(Run(s, run[..n]), run[n]);
      }
    }
  }

  lemma InitialOk(names: seq<Name>, kinds: seq<Kind>)
    ensures Inv(Initial(names, kinds))
  {
  }

  // ----- flags come from notifications

  /** A notification of this kind has come in. */
  ghost predicate CameIn(s: State, kind: Kind) {
    exists i :: 0 <= i < |s.tasks| && s.tasks[i].kind == kind && !s.tasks[i].at.Idle?
  }

  ghost predicate Earned(s: State) {
    && (s.started ==> CameIn(s, DriversStarted))
    && (forall n :: n in s.ready ==> CameIn(s, Initialized(n)))
  }

  lemma StillIn(s: State, i: nat, kind: Kind)
    requires i < |s.tasks| && (CameIn(s, kind) || s.tasks[i].kind == kind)
    ensures CameIn(Step(s, i), kind)
  {
    var t := Step(s, i);
    if s.tasks[i].kind == kind {
      assert t.tasks[i].kind == kind && !t.tasks[i].at.Idle?;
    } else {
      var j :| 0 <= j < |s.tasks| && s.tasks[j].kind == kind && !s.tasks[j].at.Idle?;
      assert t.tasks[j] == s.tasks[j];
    }
  }

  lemma StepEarned(s: State, i: nat)
    requires Earned(s) && i < |s.tasks|
    ensures Earned(Step(s, i))
  {
    var t := Step(s, i);
    if t.started {
      StillIn(s, i, DriversStarted);
    }
    forall n | n in t.ready
      ensures CameIn(t, Initialized(n))
    {
      StillIn(s, i, Initialized(n));
    }
  }

  lemma {:induction false} RunEarned(s: State, run: seq<nat>)
    requires Earned(s)
    ensures Earned(Run(s, run))
  {
    if run != [] {
      var n := |run| - 1;
      RunEarned(s, run[..n]);
      if run[n] < |Run(s, run[..n]).tasks| {
        StepEarned(Run(s, run[..n]), run[n]);
      }
    }
  }

  // ----- main results

  /** The ready callback never fires before a notification has come in from every registered
      subsystem and one that all drivers have started; all flags are then set. */
  lemma NeverFiresEarly(names: seq<Name>, kinds: seq<Kind>, run: seq<nat>)
    requires Run(Initial(names, kinds), run).fired > 0
    ensures var s := Run(Initial(names, kinds), run);
            && s.started && CameIn(s, DriversStarted)
            && (forall k :: 0 <= k < |names| ==> names[k] in s.ready && CameIn(s, Initialized(names[k])))
  {
    InitialOk(names, kinds);
    RunKeeps(Initial(names, kinds), run);
    RunEarned(Initial(names, kinds), run);
  }

  /** Not even by one step: when a call of the callback begins, everything is set. */
  lemma SetWhenFiring(names: seq<Name>, kinds: seq<Kind>, run: seq<nat>, i: nat)
    requires i < |Run(Initial(names, kinds), run).tasks| && Run(Initial(names, kinds), run).tasks[i].at.Firing?
    ensures var s := Run(Initial(names, kinds), run);
            && AllSet(s) && CameIn(s, DriversStarted)
            && (forall k :: 0 <= k < |names| ==> CameIn(s, Initialized(names[k])))
  {
    InitialOk(names, kinds);
    RunKeeps(Initial(names, kinds), run);
    RunEarned(Initial(names, kinds), run);
    assert SeenOk(Run(Initial(names, kinds), run), Run(Initial(names, kinds), run).tasks[i].at);
  }

  /** When every notification has finished, and there was one for each subsystem and one for the
      drivers, the callback has fired: in no interleaving do all the scans come too early. */
  lemma FiresAtLeastOnce(names: seq<Name>, kinds: seq<Kind>, run: seq<nat>)
    requires forall k :: 0 <= k < |names| ==> Initialized(names[k]) in kinds
    requires DriversStarted in kinds
    requires forall i :: 0 <= i < |kinds| ==>
               var t := Run(Initial(names, kinds), run); i < |t.tasks| ==> t.tasks[i].at.Done?
    ensures Run(Initial(names, kinds), run).fired >= 1
  {
    var s, t := Initial(names, kinds), Run(Initial(names, kinds), run);
    InitialOk(names, kinds);
    RunKeeps(s, run);
    var d :| 0 <= d < |kinds| && kinds[d] == DriversStarted;
    assert MarkedOk(t, t.tasks[d]);
    forall k | 0 <= k < |names|
      ensures names[k] in t.ready
    {
      var i :| 0 <= i < |kinds| && kinds[i] == Initialized(names[k]);
      assert MarkedOk(t, t.tasks[i]);
    }
    assert AllSet(t);
    assert !SomeActive(t);
  }

  // ----- at most once per notification

  function DoneCount(tasks: seq<Task>): nat {
    if tasks == [] then 0
    else DoneCount(tasks[..|tasks| - 1]) + if tasks[|tasks| - 1].at.Done? then 1 else 0
  }

  lemma {:induction false} DoneCountMoves(tasks: seq<Task>, i: nat, task: Task)
    requires i < |tasks|
    ensures DoneCount(tasks[i := task]) ==
            DoneCount(tasks) + (if task.at.Done? then 1 else 0) - (if tasks[i].at.Done? then 1 else 0)
  {
    var n, moved := |tasks| - 1, tasks[i := task];
    if i == n {
      assert moved[..n] == tasks[..n];
    } else {
      DoneCountMoves(tasks[..n], i, task);
      assert moved[..n] == tasks[..n][i := task];
    }
  }

  lemma {:induction false} DoneCountAtMost(tasks: seq<Task>)
    ensures DoneCount(tasks) <= |tasks|
    ensures (forall i :: 0 <= i < |tasks| ==> tasks[i].at.Idle?) ==> DoneCount(tasks) == 0
  {
    if tasks != [] {
      DoneCountAtMost(tasks[..|tasks| - 1]);
    }
  }

  lemma {:induction false} FiredAtMostDone(s: State, run: seq<nat>)
    requires s.fired <= DoneCount(s.tasks)
    ensures var t := Run(s, run); t.fired <= DoneCount(t.tasks) && |t.tasks| == |s.tasks|
  {
    if run != [] {
      var n := |run| - 1;
      FiredAtMostDone(s, run[..n]);
      var t, i := Run(s, run[..n]), run[n];
      if i < |t.tasks| {
        DoneCountMoves(t.tasks, i, t.tasks[i].(at := NextPlace(t, t.tasks[i].at)));
      }
    }
  }

  /** It fires no more often than there are notifications. */
  lemma FiresAtMostOncePerNotification(names: seq<Name>, kinds: seq<Kind>, run: seq<nat>)
    ensures Run(Initial(names, kinds), run).fired <= |kinds|
  {
    var s := Initial(names, kinds);
    DoneCountAtMost(s.tasks);
    FiredAtMostDone(s, run);
    DoneCountAtMost(Run(s, run).tasks);
  }

  // ----- a notification that is not overlapped

  function Solo(s: State, i: nat, n: nat): State
    requires i < |s.tasks|
    decreases n
  {
    if n == 0 then s else Solo(Step(s, i), i, n - 1)
  }

  function Finished(s: State, i: nat, fires: bool): State
    requires i < |s.tasks|
  {
    s.(tasks := s.tasks[i := s.tasks[i].(at := Done)], fired := s.fired + if fires then 1 else 0)
  }

  lemma {:induction false} SoloScan(s: State, i: nat, k: nat) returns (n: nat)
    requires i < |s.tasks| && s.tasks[i].at == Scanning(k) && SeenOk(s, s.tasks[i].at)
    ensures Solo(s, i, n) == Finished(s, i, AllSet(s))
    decreases |s.names| - k
  {
    var t := Step(s, i);
    if k < |s.names| && s.names[k] in s.ready {
      n := SoloScan(t, i, k + 1);
      assert Finished(t, i, AllSet(t)) == Finished(s, i, AllSet(s));
      n := n + 1;
    } else if k == |s.names| && s.started {
      assert Solo(t, i, 1) == Solo(Step(t, i), i, 0);
      assert Step(t, i) == Finished(s, i, true);
      n := 2;
    } else {
      assert Solo(t, i, 0) == t;
      n := 1;
    }
  }

  /** Run alone, a notification does what the manager's method does: it sets its flag and calls
      back once if that made everything ready. */
  lemma SoloIsTheMethod(s: State, i: nat) returns (n: nat)
    requires i < |s.tasks| && s.tasks[i].at.Idle?
    ensures var kind := s.tasks[i].kind;
            var flagged := s.(ready := Mark(s.names, s.ready, kind), started := s.started || kind.DriversStarted?);
            Solo(s, i, n) == Finished(flagged, i, AllSet(flagged))
  {
    var t := Step(Step(s, i), i);
    n := SoloScan(t, i, 0);
    assert Solo(Step(s, i), i, n + 1) == Solo(t, i, n);
    n := n + 2;
  }
}
