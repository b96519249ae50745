/**
 Reference-counted reconfiguration contexts (core/src/deviceService.c:3649-3659, 3772-3780,
 4723-4799, 4868-5045): who holds a context, and when it is destroyed, under every
 interleaving of scheduling, getting, cancelling, removing and task completion.
 */
module ReconfigureContext {
  import opened Basics

  type CtxId = nat

  /** Where the hold that the context was created with is: with its creator, with its task while
      that waits, runs or leaves, lost with a cancelled task, or given up. */
  datatype Task = Created | Listed | Waiting | Running | Leaving | Cancelled | Finished

  datatype State = State(
    nextId: CtxId,
    uuids: map<CtxId, Uuid>,        // every context ever made
    tasks: map<CtxId, Task>,
    counts: map<CtxId, nat>,        // live contexts only
    pending: map<Uuid, CtxId>,
    getters: multiset<CtxId>,       // one per caller that got a context and has not released it
    unwritten: set<CtxId>)          // scheduled, handle not yet stored

  function Initial(): State {
    State(0, map[], map[], map[], map[], multiset{}, {})
  }

  function Acquire(counts: map<CtxId, nat>, c: CtxId): map<CtxId, nat> {
    if c in counts then counts[c := counts[c] + 1] else counts
  }

  /** Gives up one hold; the last one destroys the context. */
  function Release(counts: map<CtxId, nat>, c: CtxId): map<CtxId, nat> {
    if c !in counts then counts else if counts[c] <= 1 then counts - {c} else counts[c := counts[c] - 1]
  }

  predicate At(s: State, c: CtxId, t: Task) {
    c in s.tasks && s.tasks[c] == t && c in s.uuids
  }

  function DoCreate(s: State, u: Uuid): State {
    s.(nextId := s.nextId + 1, uuids := s.uuids[s.nextId := u], tasks := s.tasks[s.nextId := Created],
       counts := s.counts[s.nextId := 1])
  }

  function DoSet(s: State, c: CtxId): State
    requires At(s, c, Created)
  {
    s.(tasks := s.tasks[c := Listed], pending := s.pending[s.uuids[c] := c], counts := Acquire(s.counts, c))
  }

  /** The creator's hold passes to the task; the handle is stored afterwards. */
  function DoSchedule(s: State, c: CtxId): State {
    s.(tasks := s.tasks[c := Waiting], unwritten := s.unwritten + {c})
  }

  function DoGet(s: State, u: Uuid): State {
    if u in s.pending then
      s.(getters := s.getters + multiset{s.pending[u]}, counts := Acquire(s.counts, s.pending[u]))
    else s
  }

  /** Deletes the map's entry for the context's device, whichever context that entry holds. */
  function DoRemove(s: State, c: CtxId): State
    requires c in s.uuids
  {
    var u := s.uuids[c];
    if u in s.pending then s.(pending := s.pending - {u}, counts := Release(s.counts, s.pending[u])) else s
  }

  function DoTaskRemove(s: State, c: CtxId): State
    requires c in s.uuids
  {
    DoRemove(s, c).(tasks := s.tasks[c := Leaving])
  }

  function DoTaskRelease(s: State, c: CtxId): State {
    s.(tasks := s.tasks[c := Finished], counts := Release(s.counts, c))
  }

  function DoGetterRelease(s: State, c: CtxId): State {
    s.(getters := s.getters - multiset{c}, counts := Release(s.counts, c))
  }

  datatype Action =
    | Create(uuid: Uuid)
    | Set(listed: CtxId)
    | Schedule(scheduled: CtxId)
    | WriteHandle(written: CtxId)
    | TaskStart(started: CtxId)
    | TaskRemove(removedByTask: CtxId)
    | TaskRelease(finished: CtxId)
    | Get(wanted: Uuid)
    | Use(used: CtxId)                 // signal, wait, or read the handle
    | Cancel(cancelled: CtxId)
    | GetterRemove(removedByGetter: CtxId)
    | GetterRelease(released: CtxId)

  predicate Enabled(s: State, a: Action) {
    match a
    case Create(_) => true
    case Set(c) => At(s, c, Created) && s.uuids[c] !in s.pending
    case Schedule(c) => At(s, c, Listed)
    case WriteHandle(c) => c in s.unwritten
    case TaskStart(c) => At(s, c, Waiting)
    case TaskRemove(c) => At(s, c, Running)
    case TaskRelease(c) => At(s, c, Leaving)
    case Get(_) => true
    case Use(c) => c in s.getters
    case Cancel(c) => c in s.getters && At(s, c, Waiting)
    case GetterRemove(c) => c in s.getters && c in s.uuids
    case GetterRelease(c) => c in s.getters
  }

  function Step(s: State, a: Action): State
    requires Enabled(s, a)
  {
    match a
    case Create(u) => DoCreate(s, u)
    case Set(c) => DoSet(s, c)
    case Schedule(c) => DoSchedule(s, c)
    case WriteHandle(c) => s.(unwritten := s.unwritten - {c})
    case TaskStart(c) => s.(tasks := s.tasks[c := Running])
    case TaskRemove(c) => DoTaskRemove(s, c)
    case TaskRelease(c) => DoTaskRelease(s, c)
    case Get(u) => DoGet(s, u)
    case Use(_) => s
    case Cancel(c) => s.(tasks := s.tasks[c := Cancelled])
    case GetterRemove(c) => DoRemove(s, c)
    case GetterRelease(c) => DoGetterRelease(s, c)
  }

  function Next(s: State, a: Action): State {
    if Enabled(s, a) then Step(s, a) else s
  }

  function Run(s: State, run: seq<Action>): State {
    if run == [] then s else Next(Run(s, run[..|run| - 1]), run[|run| - 1])
  }

  // ----- the module's own state, as its critical sections change it

  class PendingReconfigurations {
    var nextId: CtxId
    var uuids: map<CtxId, Uuid>
    var tasks: map<CtxId, Task>
    var counts: map<CtxId, nat>
    var pending: map<Uuid, CtxId>
    ghost var getters: multiset<CtxId>
    var unwritten: set<CtxId>

    ghost function View(): State
      reads this
    {
      State(nextId, uuids, tasks, counts, pending, getters, unwritten)
    }

    constructor ()
      ensures View() == Initial()
    {
      nextId, uuids, tasks, counts, pending, getters, unwritten := 0, map[], map[], map[], map[], multiset{}, {};
    }

    method AcquireContext(c: CtxId)
      modifies this`counts
      ensures counts == Acquire(old(counts), c)
    {
      if c in counts {
        counts := counts[c := counts[c] + 1];
      }
    }

    method ReleaseContext(c: CtxId)
      modifies this`counts
      ensures counts == Release(old(counts), c)
    {
      if c in counts {
        counts := if counts[c] <= 1 then counts - {c} else counts[c := counts[c] - 1];
      }
    }

    method CreateContext(u: Uuid) returns (c: CtxId)
      modifies this
      ensures View() == DoCreate(old(View()), u) && c == old(nextId)
    {
      c := nextId;
      uuids, tasks, counts := uuids[c := u], tasks[c := Created], counts[c := 1];
      nextId := nextId + 1;
    }

    method SetContext(c: CtxId)
      requires At(View(), c, Created)
      modifies this
      ensures View() == DoSet(old(View()), c)
    {
      AcquireContext(c);
      pending := pending[uuids[c] := c];
      tasks := tasks[c := Listed];
    }

    /** A caller that gets a context holds it until it releases it. */
    method GetContext(u: Uuid) returns (found: bool, c: CtxId)
      modifies this`counts, this`getters
      ensures View() == DoGet(old(View()), u)
      ensures found <==> u in pending
      ensures found ==> c == pending[u] && c in getters
    {
      found := u in pending;
      c := 0;
      if found {
        c := pending[u];
        AcquireContext(c);
        getters := getters + multiset{c};
      }
    }

    method RemoveContext(c: CtxId) returns (removed: bool)
      requires c in uuids
      modifies this`pending, this`counts
      ensures View() == DoRemove(old(View()), c)
      ensures removed <==> uuids[c] in old(pending)
    {
      var u := uuids[c];
      removed := u in pending;
      if removed {
        var held := pending[u];
        pending := pending - {u};
        ReleaseContext(held);
      }
    }

    /** Gets the context and lets go again: nothing is left changed. */
    method IsReconfigurationPending(u: Uuid) returns (r: bool)
      requires u in pending ==> pending[u] in counts && counts[pending[u]] >= 1
      modifies this`counts, this`getters
      ensures View() == old(View())
      ensures r <==> u in pending
    {
      var c;
      r, c := GetContext(u);
      if r {
        ReleaseContext(c);
        getters := getters - multiset{c};
      }
    }

    /** The end of the reconfiguration task. */
    method TaskEnds(c: CtxId)
      requires At(View(), c, Running)
      modifies this
      ensures View() == DoTaskRelease(DoTaskRemove(old(View()), c), c)
    {
      var _ := RemoveContext(c);
      ReleaseContext(c);
      tasks := tasks[c := Finished];
    }
  }
}
