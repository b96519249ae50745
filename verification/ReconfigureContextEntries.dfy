/**
 When a context keeps its entry in the pending map, and when the late write of a task handle
 is to a live context.
 */
module ReconfigureContextEntries {
  import opened Basics
  import opened ReconfigureContext
  import opened ReconfigureContextProofs

  function StateAt(run: seq<Action>, k: nat): State
    requires k <= |run|
  {
    Run(Initial(), run[..k])
  }

  predicate Sets(s: State, a: Action, c: CtxId) {
    Enabled(s, a) && a == Set(c)
  }

  /** The step is a removal, by a task or by a getter, of some context of the device. */
  predicate Removes(s: State, a: Action, u: Uuid) {
    && Enabled(s, a)
    && ((a.TaskRemove? && s.uuids[a.removedByTask] == u) || (a.GetterRemove? && s.uuids[a.removedByGetter] == u))
  }

  ghost predicate WasSet(run: seq<Action>, c: CtxId) {
    exists i :: 0 <= i < |run| && Sets(StateAt(run, i), run[i], c)
  }

  /** A removal for the device came after the context was put into the map. */
  ghost predicate RemovedSinceSet(run: seq<Action>, c: CtxId, u: Uuid) {
    exists i, j :: 0 <= i < j < |run| && Sets(StateAt(run, i), run[i], c) && Removes(StateAt(run, j), run[j], u)
  }

  lemma StatePrefix(run: seq<Action>, a: Action, k: nat)
    requires k <= |run|
    ensures StateAt(run + [a], k) == StateAt(run, k)
  {
    assert (run + [a])[..k] == run[..k];
  }

  lemma WasSetOneMore(run: seq<Action>, a: Action, c: CtxId)
    ensures WasSet(run + [a], c) <==> WasSet(run, c) || Sets(Run(Initial(), run), a, c)
  {
    var more, n := run + [a], |run|;
    StatePrefix(run, a, n);
    assert run[..n] == run;
    if i :| 0 <= i < n && Sets(StateAt(run, i), run[i], c) {
      StatePrefix(run, a, i);
      assert Sets(StateAt(more, i), more[i], c);
    }
    if i :| 0 <= i < |more| && Sets(StateAt(more, i), more[i], c) {
      StatePrefix(run, a, i);
    }
    assert Sets(Run(Initial(), run), a, c) ==> Sets(StateAt(more, n), more[n], c);
  }

  lemma RemovedStays(run: seq<Action>, a: Action, c: CtxId, u: Uuid)
    ensures RemovedSinceSet(run, c, u) ==> RemovedSinceSet(run + [a], c, u)
  {
    var more := run + [a];
    if i, j :| 0 <= i < j < |run| && Sets(StateAt(run, i), run[i], c) && Removes(StateAt(run, j), run[j], u) {
      StatePrefix(run, a, i);
      StatePrefix(run, a, j);
      assert Sets(StateAt(more, i), more[i], c) && Removes(StateAt(more, j), more[j], u);
    }
  }

  lemma RemovedNow(run: seq<Action>, a: Action, c: CtxId, u: Uuid)
    ensures WasSet(run, c) && Removes(Run(Initial(), run), a, u) ==> RemovedSinceSet(run + [a], c, u)
  {
    var more, n := run + [a], |run|;
    assert more[..n] == run;
    if i :| 0 <= i < n && Sets(StateAt(run, i), run[i], c) {
      StatePrefix(run, a, i);
      assert Sets(StateAt(more, i), more[i], c);
      assert Removes(Run(Initial(), run), a, u) ==> Removes(StateAt(more, n), more[n], u);
    }
  }

  lemma RemovedBefore(run: seq<Action>, a: Action, c: CtxId, u: Uuid)
    ensures RemovedSinceSet(run + [a], c, u) ==>
            RemovedSinceSet(run, c, u) || (WasSet(run, c) && Removes(Run(Initial(), run), a, u))
  {
    var more := run + [a];
    if i, j :| 0 <= i < j < |more| && Sets(StateAt(more, i), more[i], c) && Removes(StateAt(more, j), more[j], u) {
      assert run[..|run|] == run;
      StatePrefix(run, a, i);
      StatePrefix(run, a, j);
      assert Sets(StateAt(run, i), run[i], c);
    }
  }

  lemma RemovedOneMore(run: seq<Action>, a: Action, c: CtxId, u: Uuid)
    ensures RemovedSinceSet(run + [a], c, u) <==>
            RemovedSinceSet(run, c, u) || (WasSet(run, c) && Removes(Run(Initial(), run), a, u))
  {
    RemovedStays(run, a, c, u);
    RemovedNow(run, a, c, u);
    RemovedBefore(run, a, c, u);
  }

  // ----- one step

  /** The context has been put into the map at some time. */
  predicate Put(s: State, c: CtxId) {
    c in s.tasks && c in s.uuids && !s.tasks[c].Created?
  }

  /** Being put there happens once, by its own step; after that only a removal for its device
      takes it out, and nothing brings it back. */
  lemma StepEntry(s: State, a: Action, c: CtxId)
    requires Inv(s) && Enabled(s, a)
    ensures Put(Step(s, a), c) <==> Put(s, c) || a == Set(c)
    ensures Put(s, c) ==>
              && a != Set(c) && Step(s, a).uuids[c] == s.uuids[c]
              && (InMap(Step(s, a), c) <==> InMap(s, c) && !Removes(s, a, s.uuids[c]))
    ensures a == Set(c) ==> InMap(Step(s, a), c)
  {
    assert CtxOk(s, c) && CtxOk(s, s.nextId);
  }

  lemma {:induction false} PutWasSet(run: seq<Action>, c: CtxId)
    ensures WasSet(run, c) <==> Put(Run(Initial(), run), c)
  {
    if run != [] {
      var n := |run| - 1;
      var r, a := run[..n], run[n];
      assert run == r + [a];
      PutWasSet(r, c);
      WasSetOneMore(r, a, c);
      RunKeeps(r);
      if Enabled(Run(Initial(), r), a) {
        StepEntry(Run(Initial(), r), a, c);
      }
    }
  }

  /** Over every run, a context that was put into the pending map is still there, under its own
      device, if and only if no removal for that device came after; a waiting task in
      particular. */
  lemma {:induction false} EntryKeptIff(run: seq<Action>, c: CtxId)
    requires Put(Run(Initial(), run), c)
    ensures var s := Run(Initial(), run); InMap(s, c) <==> !RemovedSinceSet(run, c, s.uuids[c])
  {
    if run != [] {
      var n := |run| - 1;
      var r, a := run[..n], run[n];
      var t := Run(Initial(), r);
      assert run == r + [a];
      RunKeeps(r);
      var u := Run(Initial(), run).uuids[c];
      RemovedOneMore(r, a, c, u);
      PutWasSet(r, c);
      if Enabled(t, a) {
        StepEntry(t, a, c);
      }
      if Put(t, c) {
        EntryKeptIff(r, c);
      } else {
        NeverSetNeverRemoved(r, c, u);
      }
    }
  }

  lemma NeverSetNeverRemoved(run: seq<Action>, c: CtxId, u: Uuid)
    requires !WasSet(run, c)
    ensures !RemovedSinceSet(run, c, u)
  {
  }

  // ----- removers that behave

  predicate Busy(s: State, c: CtxId) {
    At(s, c, Listed) || At(s, c, Waiting) || At(s, c, Running)
  }

  /** A getter removes only after its cancel took effect, and only its own entry. */
  predicate Behaves(s: State, a: Action) {
    a.GetterRemove? && Enabled(s, a) ==>
      var e := a.removedByGetter;
      At(s, e, Cancelled) && (s.uuids[e] in s.pending ==> InMap(s, e))
  }

  ghost predicate Behaved(run: seq<Action>) {
    forall k :: 0 <= k < |run| ==> Behaves(StateAt(run, k), run[k])
  }

  ghost predicate Entries(s: State) {
    forall c :: Busy(s, c) ==> InMap(s, c)
  }

  lemma StepEntries(s: State, a: Action)
    requires Inv(s) && Entries(s) && Enabled(s, a) && Behaves(s, a)
    ensures Entries(Step(s, a))
  {
    forall c | Busy(Step(s, a), c)
      ensures InMap(Step(s, a), c)
    {
      StepEntry(s, a, c);
      if Put(s, c) {
        assert Busy(s, c);
        assert InMap(s, c);
        assert a.TaskRemove? && s.uuids[a.removedByTask] == s.uuids[c] ==> Busy(s, a.removedByTask);
      }
    }
  }

  /** With such removers every context that is listed, waiting or running has its entry, so a
      device with a task to come always reads as pending. */
  lemma {:induction false} BehavedKeepsEntries(run: seq<Action>)
    requires Behaved(run)
    ensures Entries(Run(Initial(), run))
  {
    if run != [] {
      var n := |run| - 1;
      var r := run[..n];
      assert run == r + [run[n]];
      forall k | 0 <= k < n
        ensures Behaves(StateAt(r, k), r[k])
      {
        StatePrefix(r, run[n], k);
        assert Behaves(StateAt(run, k), run[k]);
      }
      BehavedKeepsEntries(r);
      RunKeeps(r);
      assert Behaves(StateAt(run, n), run[n]);
      if Enabled(Run(Initial(), r), run[n]) {
        StepEntries(Run(Initial(), r), run[n]);
      }
    }
  }

  // ----- the late write of the handle

  ghost predicate LeftMap(s: State) {
    && (forall c :: At(s, c, Leaving) || At(s, c, Finished) ==> !InMap(s, c))
    && (forall c :: c in s.unwritten ==> Put(s, c))
  }

  lemma StepLeftMap(s: State, a: Action)
    requires Inv(s) && LeftMap(s) && Enabled(s, a)
    ensures LeftMap(Step(s, a))
  {
    var t := Step(s, a);
    forall c | At(t, c, Leaving) || At(t, c, Finished)
      ensures !InMap(t, c)
    {
      StepEntry(s, a, c);
    }
    forall c | c in t.unwritten
      ensures Put(t, c)
    {
      StepEntry(s, a, c);
    }
  }

  lemma {:induction false} RunLeftMap(run: seq<Action>)
    ensures LeftMap(Run(Initial(), run))
  {
    if run != [] {
      var r := run[..|run| - 1];
      RunLeftMap(r);
      RunKeeps(r);
      if Enabled(Run(Initial(), r), run[|run| - 1]) {
        StepLeftMap(Run(Initial(), r), run[|run| - 1]);
      }
    }
  }

  /** Whenever a handle is about to be stored, its context is live if and only if the task has
      not finished yet or some getter holds the context. */
  lemma HandleWriteIsLive(run: seq<Action>, c: CtxId)
    requires Enabled(Run(Initial(), run), WriteHandle(c))
    ensures var s := Run(Initial(), run); c in s.counts <==> !At(s, c, Finished) || c in s.getters
  {
    CountIsHolders(run, c);
    RunLeftMap(run);
  }

  // ----- a cancelled task

  lemma GotAndCancelled(u: Uuid) returns (run: seq<Action>)
    ensures Run(Initial(), run) ==
            State(1, map[0 := u], map[0 := Cancelled], map[0 := 3], map[u := 0], multiset{0}, {0})
  {
    var r := [Create(u)] + PROLOGUE;
    run := r + [Get(u)] + [Cancel(0)];
    Scheduled(u);
    RunAppend(Initial(), r, Get(u));
    RunAppend(Initial(), r + [Get(u)], Cancel(0));
  }

  /** Scheduled, got, cancelled, removed and released: nobody is left but the cancelled task,
      and its context stays. */
  lemma CancelledLeaks(u: Uuid) returns (run: seq<Action>)
    ensures Run(Initial(), run) == State(1, map[0 := u], map[0 := Cancelled], map[0 := 1], map[], multiset{}, {0})
  {
    var r := GotAndCancelled(u);
    run := r + [GetterRemove(0)] + [GetterRelease(0)];
    RunAppend(Initial(), r, GetterRemove(0));
    RunAppend(Initial(), r + [GetterRemove(0)], GetterRelease(0));
  }
}
