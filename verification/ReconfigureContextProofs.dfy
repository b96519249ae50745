/**
 Over every run, a context's count is the number of its holders, and it is destroyed exactly
 when the last of them has let go.
 */
module ReconfigureContextProofs {
  import opened ReconfigureContext
  import opened Basics

  predicate InMap(s: State, c: CtxId) {
    c in s.uuids && s.uuids[c] in s.pending && s.pending[s.uuids[c]] == c
  }

  function TaskHold(t: Task): nat {
    if t.Finished? then 0 else 1
  }

  /** The pending map, the task (its creator before it is scheduled; a cancelled one too) and
      every getter. */
  function Holders(s: State, c: CtxId): nat {
    (if InMap(s, c) then 1 else 0) + (if c in s.tasks then TaskHold(s.tasks[c]) else 0) + s.getters[c]
  }

  predicate CountOk(s: State, c: CtxId) {
    if Holders(s, c) == 0 then c !in s.counts else c in s.counts && s.counts[c] == Holders(s, c)
  }

  predicate CtxOk(s: State, c: CtxId) {
    && CountOk(s, c)
    && (c in s.tasks <==> c in s.uuids)
    && (c in s.tasks ==> c < s.nextId)
    && (c in s.getters ==> c in s.tasks)
    && (At(s, c, Created) ==> !InMap(s, c))
  }

  predicate EntryOk(s: State, u: Uuid) {
    u in s.pending ==> s.pending[u] in s.uuids && s.uuids[s.pending[u]] == u
  }

  ghost predicate Inv(s: State) {
    (forall c: CtxId :: CtxOk(s, c)) && (forall u: Uuid :: EntryOk(s, u))
  }

  lemma CreateKeeps(s: State, u: Uuid)
    requires Inv(s)
    ensures Inv(DoCreate(s, u))
  {
    var t := DoCreate(s, u);
    assert CtxOk(s, s.nextId);
    forall c: CtxId
      ensures CtxOk(t, c)
    {
      assert CtxOk(s, c);
      assert InMap(t, c) ==> EntryOk(s, t.uuids[c]);
    }
    forall v: Uuid
      ensures EntryOk(t, v)
    {
      assert EntryOk(s, v);
    }
  }

  lemma SetKeeps(s: State, c: CtxId)
    requires Inv(s) && At(s, c, Created) && s.uuids[c] !in s.pending
    ensures Inv(DoSet(s, c))
  {
    var t := DoSet(s, c);
    forall d: CtxId
      ensures CtxOk(t, d)
    {
      assert CtxOk(s, d);
      assert d != c ==> (InMap(t, d) <==> InMap(s, d));
    }
    forall v: Uuid
      ensures EntryOk(t, v)
    {
      assert EntryOk(s, v);
    }
  }

  /** A task that moves on without giving up its hold changes no count. */
  lemma MoveKeeps(s: State, c: CtxId, from: Task, to: Task, unwritten: set<CtxId>)
    requires Inv(s) && At(s, c, from) && !from.Finished? && !to.Finished? && !to.Created?
    ensures Inv(s.(tasks := s.tasks[c := to], unwritten := unwritten))
  {
    var t := s.(tasks := s.tasks[c := to], unwritten := unwritten);
    forall d: CtxId
      ensures CtxOk(t, d)
    {
      assert CtxOk(s, d);
      assert InMap(t, d) <==> InMap(s, d);
    }
    forall v: Uuid
      ensures EntryOk(t, v)
    {
      assert EntryOk(s, v);
    }
  }

  lemma GetKeeps(s: State, u: Uuid)
    requires Inv(s)
    ensures Inv(DoGet(s, u))
  {
    var t := DoGet(s, u);
    assert EntryOk(s, u);
    assert u in s.pending ==> CtxOk(s, s.pending[u]);
    forall d: CtxId
      ensures CtxOk(t, d)
    {
      assert CtxOk(s, d);
      assert InMap(t, d) <==> InMap(s, d);
    }
    forall v: Uuid
      ensures EntryOk(t, v)
    {
      assert EntryOk(s, v);
    }
  }

  lemma RemoveKeeps(s: State, c: CtxId)
    requires Inv(s) && c in s.uuids
    ensures Inv(DoRemove(s, c))
  {
    var t, u := DoRemove(s, c), s.uuids[c];
    if u in s.pending {
      var held := s.pending[u];
      assert EntryOk(s, u);
      forall d: CtxId
        ensures CtxOk(t, d)
      {
        assert CtxOk(s, d);
        if d != held {
          assert InMap(t, d) <==> InMap(s, d);
        } else {
          assert InMap(s, d) && !InMap(t, d);
        }
      }
      forall v: Uuid
        ensures EntryOk(t, v)
      {
        assert EntryOk(s, v);
      }
    }
  }

  lemma TaskRemoveKeeps(s: State, c: CtxId)
    requires Inv(s) && At(s, c, Running)
    ensures Inv(DoTaskRemove(s, c))
  {
    RemoveKeeps(s, c);
    MoveKeeps(DoRemove(s, c), c, Running, Leaving, s.unwritten);
  }

  lemma TaskReleaseKeeps(s: State, c: CtxId)
    requires Inv(s) && At(s, c, Leaving)
    ensures Inv(DoTaskRelease(s, c))
  {
    var t := DoTaskRelease(s, c);
    forall d: CtxId
      ensures CtxOk(t, d)
    {
      assert CtxOk(s, d);
      assert InMap(t, d) <==> InMap(s, d);
    }
    forall v: Uuid
      ensures EntryOk(t, v)
    {
      assert EntryOk(s, v);
    }
  }

  lemma GetterReleaseKeeps(s: State, c: CtxId)
    requires Inv(s) && c in s.getters
    ensures Inv(DoGetterRelease(s, c))
  {
    var t := DoGetterRelease(s, c);
    forall d: CtxId
      ensures CtxOk(t, d)
    {
      assert CtxOk(s, d);
      assert InMap(t, d) <==> InMap(s, d);
    }
    forall v: Uuid
      ensures EntryOk(t, v)
    {
      assert EntryOk(s, v);
    }
  }

  lemma WriteKeeps(s: State, unwritten: set<CtxId>)
    requires Inv(s)
    ensures Inv(s.(unwritten := unwritten))
  {
    var t := s.(unwritten := unwritten);
    forall d: CtxId
      ensures CtxOk(t, d)
    {
      assert CtxOk(s, d);
    }
    forall v: Uuid
      ensures EntryOk(t, v)
    {
      assert EntryOk(s, v);
    }
  }

  lemma StepKeeps(s: State, a: Action)
    requires Inv(s) && Enabled(s, a)
    ensures Inv(Step(s, a))
  {
    match a
    case Create(u) => CreateKeeps(s, u);
    case Set(c) => SetKeeps(s, c);
    case Schedule(c) => MoveKeeps(s, c, Listed, Waiting, s.unwritten + {c});
    case WriteHandle(c) => WriteKeeps(s, s.unwritten - {c});
    case TaskStart(c) => MoveKeeps(s, c, Waiting, Running, s.unwritten);
    case TaskRemove(c) => TaskRemoveKeeps(s, c);
    case TaskRelease(c) => TaskReleaseKeeps(s, c);
    case Get(u) => GetKeeps(s, u);
    case Use(_) =>
    case Cancel(c) => MoveKeeps(s, c, Waiting, Cancelled, s.unwritten);
    case GetterRemove(c) => RemoveKeeps(s, c);
    case GetterRelease(c) => GetterReleaseKeeps(s, c);
  }

  lemma {:induction false} RunKeeps(run: seq<Action>)
    ensures Inv(Run(Initial(), run))
  {
    if run != [] {
      var n := |run| - 1;
      RunKeeps(run[..n]);
      if Enabled(Run(Initial(), run[..n]), run[n]) {
        StepKeeps(Run(Initial(), run[..n]), run[n]);
      }
    }
  }

  /** The count is the number of holders, and a context that was made is destroyed exactly when
      the map, its task and every getter have let go. */
  lemma CountIsHolders(run: seq<Action>, c: CtxId)
    ensures var s := Run(Initial(), run);
            && (c in s.counts ==> s.counts[c] == Holders(s, c) > 0)
            && (c in s.uuids ==> (c !in s.counts <==> !InMap(s, c) && At(s, c, Finished) && c !in s.getters))
  {
    RunKeeps(run);
    assert CtxOk(Run(Initial(), run), c);
  }

  /** The context an enabled step reads or changes, but for the late write of its handle. */
  function Touches(a: Action): set<CtxId> {
    match a
    case Create(_) => {}
    case Set(c) => {c}
    case Schedule(c) => {c}
    case WriteHandle(_) => {}
    case TaskStart(c) => {c}
    case TaskRemove(c) => {c}
    case TaskRelease(c) => {c}
    case Get(_) => {}
    case Use(c) => {c}
    case Cancel(c) => {c}
    case GetterRemove(c) => {c}
    case GetterRelease(c) => {c}
  }

  /** No step uses a destroyed context, and every entry of the map is live. */
  lemma UsesAreLive(run: seq<Action>, a: Action)
    requires Enabled(Run(Initial(), run), a)
    ensures Touches(a) <= Run(Initial(), run).counts.Keys
    ensures forall u :: u in Run(Initial(), run).pending ==>
            Run(Initial(), run).pending[u] in Run(Initial(), run).counts
  {
    var s := Run(Initial(), run);
    RunKeeps(run);
    forall c | c in Touches(a)
      ensures c in s.counts
    {
      assert CtxOk(s, c);
    }
    forall u | u in s.pending
      ensures s.pending[u] in s.counts
    {
      assert EntryOk(s, u);
      assert CtxOk(s, s.pending[u]);
    }
  }

  /** Running each action of a list that is enabled all along. */
  lemma {:induction false} RunAppend(s: State, run: seq<Action>, a: Action)
    ensures Run(s, run + [a]) == Next(Run(s, run), a)
  {
    assert (run + [a])[..|run|] == run;
  }

  const PROLOGUE: seq<Action> := [Set(0), Schedule(0)]

  /** One context made, listed and scheduled. */
  lemma Scheduled(u: Uuid)
    ensures Run(Initial(), [Create(u)] + PROLOGUE)
            == State(1, map[0 := u], map[0 := Waiting], map[0 := 2], map[u := 0], multiset{}, {0})
  {
    RunAppend(Initial(), [], Create(u));
    RunAppend(Initial(), [Create(u)], Set(0));
    RunAppend(Initial(), [Create(u)] + [Set(0)], Schedule(0));
    assert [] + [Create(u)] == [Create(u)];
    assert [Create(u)] + [Set(0)] + [Schedule(0)] == [Create(u)] + PROLOGUE;
  }

  /** A task that starts at once can finish before its handle is stored. */
  lemma HandleWrittenLate(u: Uuid) returns (run: seq<Action>)
    ensures var s := Run(Initial(), run);
            0 in s.unwritten && 0 in s.uuids && 0 !in s.counts
  {
    var r := [Create(u)] + PROLOGUE;
    run := r + [TaskStart(0)] + [TaskRemove(0)] + [TaskRelease(0)];
    Scheduled(u);
    RunAppend(Initial(), r, TaskStart(0));
    RunAppend(Initial(), r + [TaskStart(0)], TaskRemove(0));
    RunAppend(Initial(), r + [TaskStart(0)] + [TaskRemove(0)], TaskRelease(0));
  }

  // ----- cancelling

  lemma CancelledStays(s: State, a: Action, c: CtxId)
    requires At(s, c, Cancelled) && c < s.nextId
    ensures At(Next(s, a), c, Cancelled)
  {
  }

  lemma CancelledStep(run: seq<Action>, a: Action, c: CtxId)
    requires At(Run(Initial(), run), c, Cancelled)
    ensures At(Run(Initial(), run + [a]), c, Cancelled)
  {
    RunKeeps(run);
    assert CtxOk(Run(Initial(), run), c);
    CancelledStays(Run(Initial(), run), a, c);
    RunAppend(Initial(), run, a);
  }

  lemma {:induction false} CancelledForGood(run: seq<Action>, more: seq<Action>, c: CtxId)
    requires At(Run(Initial(), run), c, Cancelled)
    ensures At(Run(Initial(), run + more), c, Cancelled)
  {
    if more == [] {
      assert run + more == run;
    } else {
      var n := |more| - 1;
      CancelledForGood(run, more[..n], c);
      CancelledStep(run + more[..n], more[n], c);
      assert run + more == run + more[..n] + [more[n]];
    }
  }

  /** A cancelled task keeps its hold for good: the context is never destroyed. */
  lemma CancelledIsNeverDestroyed(run: seq<Action>, more: seq<Action>, c: CtxId)
    requires At(Run(Initial(), run), c, Cancelled)
    ensures c in Run(Initial(), run + more).counts
  {
    CancelledForGood(run, more, c);
    CountIsHolders(run + more, c);
  }

  // ----- removing goes by device, not by context

  /** A device can have a waiting task and no pending entry: a canceller that comes too late
      removes the running task's entry, a new one is scheduled, and the old task then removes
      that one. */
  lemma WaitingButNotPending(u: Uuid) returns (run: seq<Action>)
    ensures var s := Run(Initial(), run);
            At(s, 1, Waiting) && s.uuids[1] == u && u !in s.pending
  {
    var r := LateCancel(u);
    run := r + [Create(u)] + [Set(1)] + [Schedule(1)] + [TaskRemove(0)];
    RunAppend(Initial(), r, Create(u));
    RunAppend(Initial(), r + [Create(u)], Set(1));
    RunAppend(Initial(), r + [Create(u)] + [Set(1)], Schedule(1));
    RunAppend(Initial(), r + [Create(u)] + [Set(1)] + [Schedule(1)], TaskRemove(0));
  }

  lemma LateCancel(u: Uuid) returns (run: seq<Action>)
    ensures Run(Initial(), run) == State(1, map[0 := u], map[0 := Running], map[0 := 2], map[], multiset{0}, {0})
  {
    var r := [Create(u)] + PROLOGUE;
    run := r + [Get(u)] + [TaskStart(0)] + [GetterRemove(0)];
    Scheduled(u);
    RunAppend(Initial(), r, Get(u));
    RunAppend(Initial(), r + [Get(u)], TaskStart(0));
    RunAppend(Initial(), r + [Get(u)] + [TaskStart(0)], GetterRemove(0));
  }
}
