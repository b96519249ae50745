/**
 Removals that overlap. A removal works on a clone of the device read at its beginning and holds
 no lock until it commits (core/src/deviceService.c:1016-1058, 1489-1555), so another removal
 may commit in between.
 */
module RemovalOverlap {
  import opened Basics
  import opened Removal

  /** A removal that has read its device and not yet committed. */
  datatype Call =
    | EndpointCall(device: Uuid, endpoint: EndpointId, clone: Device)
    | DeviceCall(device: Uuid, clone: Device)

  datatype Shared = Shared(base: State, calls: map<nat, Call>)

  datatype Move =
    | ReadEndpoint(call: nat, device: Uuid, endpoint: EndpointId)
    | ReadDevice(call: nat, device: Uuid)
    | Commit(call: nat)

  function Disabled(db: Database, u: Uuid, id: EndpointId): Database {
    if u in db && Place(db[u], id) < |db[u]| then db[u := Off(db[u], Place(db[u], id))] else db
  }

  /** Saves the endpoint as disabled, then decides by the clone whether it was the last one. */
  function CommitEndpoint(s: State, u: Uuid, id: EndpointId, clone: Device): State {
    var more := OtherEnabled(clone, id);
    var off := s.(db := Disabled(s.db, u, id), log := s.log + [EndpointRemoved(Key(u, id), !more)]);
    if more then off else DoRemoveDevice(off, u)
  }

  /** Removes what is stored, then tells by the clone; a device already gone is an error. */
  function CommitDevice(s: State, u: Uuid, clone: Device): State {
    if u in s.db then s.(db := s.db - {u}, log := s.log + RemovedEvents(u, clone) + [DeviceRemoved(u)]) else s
  }

  function CommitCall(s: State, call: Call): State {
    match call
    case EndpointCall(u, id, clone) => CommitEndpoint(s, u, id, clone)
    case DeviceCall(u, clone) => CommitDevice(s, u, clone)
  }

  function Next(x: Shared, m: Move): Shared {
    match m
    case ReadEndpoint(n, u, id) =>
      if n !in x.calls && u in x.base.db && Has(x.base.db[u], id) then
        x.(calls := x.calls[n := EndpointCall(u, id, x.base.db[u])])
      else x
    case ReadDevice(n, u) =>
      if n in x.calls then x
      else if u in x.base.db then x.(calls := x.calls[n := DeviceCall(u, x.base.db[u])])
      else x.(base := DoRemoveDevice(x.base, u))
    case Commit(n) =>
      if n in x.calls then Shared(CommitCall(x.base, x.calls[n]), x.calls - {n}) else x
  }

  function Run(x: Shared, run: seq<Move>): Shared {
    if run == [] then x else Next(Run(x, run[..|run| - 1]), run[|run| - 1])
  }

  // ----- one commit

  lemma PlaceHas(d: Device, id: EndpointId)
    requires DistinctIds(d)
    ensures Has(d, id) <==> Place(d, id) < |d| && d[Place(d, id)].enabled
  {
    if i :| 0 <= i < |d| && d[i] == Endpoint(id, true) {
      assert Place(d, id) <= i;
    }
    var p := Place(d, id);
    if p < |d| && d[p].enabled {
      assert d[p] == Endpoint(id, true);
    }
  }

  /** A removal that nothing came in on is the atomic one. */
  lemma UndisturbedIsAtomic(s: State, u: Uuid, id: EndpointId)
    requires WellFormed(s.db) && u in s.db && Has(s.db[u], id)
    ensures CommitEndpoint(s, u, id, s.db[u]) == DoRemoveEndpoint(s, u, id, false)
    ensures CommitDevice(s, u, s.db[u]) == DoRemoveDevice(s, u)
  {
    PlaceHas(s.db[u], id);
  }

  lemma DisabledKeepsOthers(s: State, u: Uuid, id: EndpointId)
    requires WellFormed(s.db)
    ensures WellFormed(Disabled(s.db, u, id))
    ensures !IsEnabled(s.db, Key(u, id)) ==> forall k :: IsEnabled(Disabled(s.db, u, id), k) <==> IsEnabled(s.db, k)
  {
    if u in s.db {
      var d := s.db[u];
      var p := Place(d, id);
      PlaceHas(d, id);
      if p < |d| && !d[p].enabled {
        assert Off(d, p) == d;
      } else if p < |d| {
        OffHas(d, p, id);
      }
    }
  }

  /** The endpoint's commit before the device may follow it. */
  function Told(s: State, u: Uuid, id: EndpointId, last: bool): State {
    s.(db := Disabled(s.db, u, id), log := s.log + [EndpointRemoved(Key(u, id), last)])
  }

  lemma ToldConserves(s: State, u: Uuid, id: EndpointId, last: bool, k: Key)
    requires WellFormed(s.db)
    ensures IsEnabled(s.db, Key(u, id)) ==> Conserved(s, Told(s, u, id, last), k)
    ensures !IsEnabled(s.db, Key(u, id)) && k == Key(u, id) ==> !Conserved(s, Told(s, u, id, last), k)
  {
    TimesOneMore(s.log, EndpointRemoved(Key(u, id), last), k);
    if IsEnabled(s.db, Key(u, id)) {
      PlaceHas(s.db[u], id);
      SwitchedOffConserves(s, u, Place(s.db[u], id), last, k);
    } else {
      DisabledKeepsOthers(s, u, id);
    }
  }

  ghost predicate AllConserved(s: State, t: State) {
    forall k :: Conserved(s, t, k)
  }

  /** The commit still finds its endpoint enabled, or its device with the same endpoints. */
  ghost predicate Fresh(s: State, call: Call) {
    match call
    case EndpointCall(u, id, _) => IsEnabled(s.db, Key(u, id))
    case DeviceCall(u, clone) => u in s.db ==> forall id :: Has(clone, id) <==> Has(s.db[u], id)
  }

  lemma CommitEndpointIff(s: State, u: Uuid, id: EndpointId, clone: Device)
    requires WellFormed(s.db)
    ensures AllConserved(s, CommitEndpoint(s, u, id, clone)) <==> IsEnabled(s.db, Key(u, id))
  {
    var more := OtherEnabled(clone, id);
    var told := Told(s, u, id, !more);
    DisabledKeepsOthers(s, u, id);
    forall k
      ensures IsEnabled(s.db, Key(u, id)) ==> Conserved(s, CommitEndpoint(s, u, id, clone), k)
      ensures !IsEnabled(s.db, Key(u, id)) && k == Key(u, id) ==> !Conserved(s, CommitEndpoint(s, u, id, clone), k)
    {
      ToldConserves(s, u, id, !more, k);
      RemoveDeviceConserves(told, u, k);
    }
    assert !IsEnabled(s.db, Key(u, id)) ==> !Conserved(s, CommitEndpoint(s, u, id, clone), Key(u, id));
  }

  lemma CommitDeviceCount(s: State, u: Uuid, clone: Device, k: Key)
    requires WellFormed(s.db) && DistinctIds(clone) && u in s.db
    ensures Conserved(s, CommitDevice(s, u, clone), k) <==>
            k.device != u || (Has(clone, k.endpoint) <==> Has(s.db[u], k.endpoint))
  {
    RemovedEventsCount(s.log, u, clone, k);
    TimesOneMore(s.log + RemovedEvents(u, clone), DeviceRemoved(u), k);
    assert k.device != u ==> (IsEnabled(s.db, k) <==> IsEnabled(s.db - {u}, k));
  }

  lemma CommitDeviceIff(s: State, u: Uuid, clone: Device)
    requires WellFormed(s.db) && DistinctIds(clone)
    ensures AllConserved(s, CommitDevice(s, u, clone)) <==> Fresh(s, DeviceCall(u, clone))
  {
    if u in s.db {
      forall k
        ensures Conserved(s, CommitDevice(s, u, clone), k) <==>
                k.device != u || (Has(clone, k.endpoint) <==> Has(s.db[u], k.endpoint))
      {
        CommitDeviceCount(s, u, clone, k);
      }
      if !Fresh(s, DeviceCall(u, clone)) {
        var id :| Has(clone, id) != Has(s.db[u], id);
        assert !Conserved(s, CommitDevice(s, u, clone), Key(u, id));
      }
    }
  }

  /** One commit accounts for every endpoint exactly when it is fresh. */
  lemma CommitConservesIff(s: State, call: Call)
    requires WellFormed(s.db) && DistinctIds(call.clone)
    ensures AllConserved(s, CommitCall(s, call)) <==> Fresh(s, call)
  {
    match call
    case EndpointCall(u, id, clone) => CommitEndpointIff(s, u, id, clone);
    case DeviceCall(u, clone) => CommitDeviceIff(s, u, clone);
  }

  // ----- an enabled endpoint is left

  lemma DisabledHasEnabled(d: Device, id: EndpointId)
    requires DistinctIds(d)
    ensures var p := Place(d, id);
            (if p < |d| then HasEnabled(Off(d, p)) else HasEnabled(d)) <==> OtherEnabled(d, id)
  {
    var p := Place(d, id);
    if p < |d| {
      var off := Off(d, p);
      assert forall j :: 0 <= j < |d| && j != p ==> off[j] == d[j];
      if j :| 0 <= j < |off| && off[j].enabled {
        assert d[j].enabled && d[j].id != id;
      }
      if j :| 0 <= j < |d| && d[j].enabled && d[j].id != id {
        assert off[j].enabled;
      }
    }
  }

  /** What the clone says about other enabled endpoints is still so. */
  predicate Seen(s: State, call: Call) {
    call.EndpointCall? && call.device in s.db && OtherEnabled(call.clone, call.endpoint) ==>
      OtherEnabled(s.db[call.device], call.endpoint)
  }

  /** One commit leaves every stored device with an enabled endpoint exactly when another one
      that its clone counted on is still enabled. */
  lemma CommitScrubbedIff(s: State, call: Call)
    requires WellFormed(s.db) && Scrubbed(s.db)
    ensures Scrubbed(CommitCall(s, call).db) <==> Seen(s, call)
  {
    if call.EndpointCall? && call.device in s.db {
      DisabledHasEnabled(s.db[call.device], call.endpoint);
      var t := CommitCall(s, call);
      assert OtherEnabled(call.clone, call.endpoint) ==> call.device in t.db;
    }
  }

  // ----- every interleaving

  function StateAt(db: Database, run: seq<Move>, k: nat): Shared
    requires k <= |run|
  {
    Run(Shared(State(db, [], {}), map[]), run[..k])
  }

  lemma StateNext(db: Database, run: seq<Move>, k: nat)
    requires k < |run|
    ensures StateAt(db, run, k + 1) == Next(StateAt(db, run, k), run[k])
  {
    assert run[..k + 1][..k] == run[..k];
  }

  ghost predicate Sound(x: Shared) {
    WellFormed(x.base.db) && forall n :: n in x.calls ==> DistinctIds(x.calls[n].clone)
  }

  lemma NextSound(x: Shared, m: Move)
    requires Sound(x)
    ensures Sound(Next(x, m))
  {
    if m.Commit? && m.call in x.calls {
      var call := x.calls[m.call];
      DisabledKeepsOthers(x.base, call.device, if call.EndpointCall? then call.endpoint else EndpointId(""));
    }
  }

  lemma {:induction false} SoundAt(db: Database, run: seq<Move>, k: nat)
    requires WellFormed(db) && k <= |run|
    ensures Sound(StateAt(db, run, k))
  {
    if k > 0 {
      SoundAt(db, run, k - 1);
      StateNext(db, run, k - 1);
      NextSound(StateAt(db, run, k - 1), run[k - 1]);
    }
  }

  ghost predicate FreshMove(x: Shared, m: Move) {
    m.Commit? && m.call in x.calls ==> Fresh(x.base, x.calls[m.call])
  }

  predicate SeenMove(x: Shared, m: Move) {
    m.Commit? && m.call in x.calls ==> Seen(x.base, x.calls[m.call])
  }

  lemma NextConservesIff(x: Shared, m: Move)
    requires Sound(x)
    ensures AllConserved(x.base, Next(x, m).base) <==> FreshMove(x, m)
  {
    if m.Commit? && m.call in x.calls {
      CommitConservesIff(x.base, x.calls[m.call]);
    }
  }

  lemma NextScrubbedIff(x: Shared, m: Move)
    requires Sound(x) && Scrubbed(x.base.db)
    ensures Scrubbed(Next(x, m).base.db) <==> SeenMove(x, m)
  {
    if m.Commit? && m.call in x.calls {
      CommitScrubbedIff(x.base, x.calls[m.call]);
    }
  }

  ghost predicate FreshAt(db: Database, run: seq<Move>, k: nat)
    requires k < |run|
  {
    FreshMove(StateAt(db, run, k), run[k])
  }

  ghost predicate FreshUpTo(db: Database, run: seq<Move>, k: nat)
    requires k <= |run|
  {
    forall i :: 0 <= i < k ==> FreshAt(db, run, i)
  }

  ghost predicate ConservedAt(db: Database, run: seq<Move>, k: nat)
    requires k <= |run|
  {
    AllConserved(State(db, [], {}), StateAt(db, run, k).base)
  }

  ghost predicate ConservedUpTo(db: Database, run: seq<Move>, k: nat)
    requires k <= |run|
  {
    forall i :: 0 <= i <= k ==> ConservedAt(db, run, i)
  }

  lemma ConservedNext(db: Database, run: seq<Move>, k: nat)
    requires WellFormed(db) && k < |run| && ConservedAt(db, run, k)
    ensures ConservedAt(db, run, k + 1) <==> FreshAt(db, run, k)
  {
    var x, y := StateAt(db, run, k), StateAt(db, run, k + 1);
    SoundAt(db, run, k);
    StateNext(db, run, k);
    NextConservesIff(x, run[k]);
    Chained(State(db, [], {}), x.base, y.base);
  }

  lemma Chained(s: State, t: State, u: State)
    requires AllConserved(s, t)
    ensures AllConserved(s, u) <==> AllConserved(t, u)
  {
    forall k
      ensures Conserved(s, u, k) <==> Conserved(t, u, k)
    {
      assert Conserved(s, t, k);
    }
  }

  /** Along every interleaving of removals, each endpoint that is no longer enabled has exactly
      one removed event, if and only if every commit still finds its endpoint enabled, or its
      device with the endpoints it read. */
  lemma OverlapConservedIff(db: Database, run: seq<Move>)
    requires WellFormed(db)
    ensures ConservedUpTo(db, run, |run|) <==> FreshUpTo(db, run, |run|)
  {
    var n := |run|;
    var p := seq(n + 1, i requires 0 <= i <= n => ConservedAt(db, run, i));
    var q := seq(n, i requires 0 <= i < n => FreshAt(db, run, i));
    assert StateAt(db, run, 0).base == State(db, [], {});
    forall i | 0 <= i < n && p[i]
      ensures p[i + 1] <==> q[i]
    {
      ConservedNext(db, run, i);
    }
    FirstBreak(p, q);
    assert forall i :: 0 <= i <= n ==> p[i] == ConservedAt(db, run, i);
    assert forall i :: 0 <= i < n ==> q[i] == FreshAt(db, run, i);
  }

  predicate SeenAt(db: Database, run: seq<Move>, k: nat)
    requires k < |run|
  {
    SeenMove(StateAt(db, run, k), run[k])
  }

  ghost predicate SeenUpTo(db: Database, run: seq<Move>, k: nat)
    requires k <= |run|
  {
    forall i :: 0 <= i < k ==> SeenAt(db, run, i)
  }

  ghost predicate ScrubbedAt(db: Database, run: seq<Move>, k: nat)
    requires k <= |run|
  {
    Scrubbed(StateAt(db, run, k).base.db)
  }

  ghost predicate ScrubbedUpTo(db: Database, run: seq<Move>, k: nat)
    requires k <= |run|
  {
    forall i :: 0 <= i <= k ==> ScrubbedAt(db, run, i)
  }

  lemma ScrubbedNext(db: Database, run: seq<Move>, k: nat)
    requires WellFormed(db) && k < |run| && ScrubbedAt(db, run, k)
    ensures ScrubbedAt(db, run, k + 1) <==> SeenAt(db, run, k)
  {
    SoundAt(db, run, k);
    StateNext(db, run, k);
    NextScrubbedIff(StateAt(db, run, k), run[k]);
  }

  /** Along every interleaving from a scrubbed database, every stored device keeps an enabled
      endpoint if and only if no commit spares a device for an endpoint that is gone by then. */
  lemma OverlapScrubbedIff(db: Database, run: seq<Move>)
    requires WellFormed(db) && Scrubbed(db)
    ensures ScrubbedUpTo(db, run, |run|) <==> SeenUpTo(db, run, |run|)
  {
    var n := |run|;
    var p := seq(n + 1, i requires 0 <= i <= n => ScrubbedAt(db, run, i));
    var q := seq(n, i requires 0 <= i < n => SeenAt(db, run, i));
    assert StateAt(db, run, 0).base == State(db, [], {});
    forall i | 0 <= i < n && p[i]
      ensures p[i + 1] <==> q[i]
    {
      ScrubbedNext(db, run, i);
    }
    FirstBreak(p, q);
    assert forall i :: 0 <= i <= n ==> p[i] == ScrubbedAt(db, run, i);
    assert forall i :: 0 <= i < n ==> q[i] == SeenAt(db, run, i);
  }

  // ----- instances

  lemma PairSees(a: EndpointId, b: EndpointId)
    requires a != b
    ensures var d := [Endpoint(a, true), Endpoint(b, true)];
            && OtherEnabled(d, a) && OtherEnabled(d, b) && Has(d, a) && Has(d, b) && DistinctIds(d)
            && Place(d, a) == 0
  {
    var d := [Endpoint(a, true), Endpoint(b, true)];
    assert d[0] == Endpoint(a, true) && d[1] == Endpoint(b, true);
  }

  lemma OffFirst(u: Uuid, a: EndpointId, b: EndpointId)
    requires a != b
    ensures var d := [Endpoint(a, true), Endpoint(b, true)];
            CommitEndpoint(State(map[u := d], [], {}), u, a, d)
            == State(map[u := [Endpoint(a, false), Endpoint(b, true)]], [EndpointRemoved(Key(u, a), false)], {})
  {
    PairSees(a, b);
    var d := [Endpoint(a, true), Endpoint(b, true)];
    assert Off(d, 0) == [Endpoint(a, false), Endpoint(b, true)];
    assert map[u := d][u := Off(d, 0)] == map[u := Off(d, 0)];
  }

  /** Both reads come before both commits. */
  lemma ReadReadCommitCommit(s: State, u: Uuid, a: EndpointId, b: EndpointId)
    requires u in s.db && Has(s.db[u], a) && Has(s.db[u], b)
    ensures var run := [ReadEndpoint(0, u, a), ReadEndpoint(1, u, b), Commit(0), Commit(1)];
            Run(Shared(s, map[]), run).base == CommitEndpoint(CommitEndpoint(s, u, a, s.db[u]), u, b, s.db[u])
  {
    var x, d := Shared(s, map[]), s.db[u];
    var run := [ReadEndpoint(0, u, a), ReadEndpoint(1, u, b), Commit(0), Commit(1)];
    assert run[..3][..2] == run[..2] && run[..2][..1] == run[..1] && run[..1][..0] == [];
    assert Run(x, []) == x;
    assert Run(x, run[..1]) == Shared(s, map[0 := EndpointCall(u, a, d)]);
    assert Run(x, run[..2]) == Shared(s, map[0 := EndpointCall(u, a, d), 1 := EndpointCall(u, b, d)]);
    var t := CommitEndpoint(s, u, a, d);
    assert Run(x, run[..3]) == Shared(t, map[1 := EndpointCall(u, b, d)]);
  }

  /** Two endpoints of one device removed at a time: each removal sees the other endpoint
      enabled, and the device is left with none. */
  lemma TwoAtATime(u: Uuid, a: EndpointId, b: EndpointId)
    requires a != b
    ensures var d := [Endpoint(a, true), Endpoint(b, true)];
            var run := [ReadEndpoint(0, u, a), ReadEndpoint(1, u, b), Commit(0), Commit(1)];
            var t := Run(Shared(State(map[u := d], [], {}), map[]), run).base;
            u in t.db && !HasEnabled(t.db[u])
  {
    var d := [Endpoint(a, true), Endpoint(b, true)];
    PairSees(a, b);
    OffFirst(u, a, b);
    ReadReadCommitCommit(State(map[u := d], [], {}), u, a, b);
    var e := [Endpoint(a, false), Endpoint(b, true)];
    assert e[1..][0].id == b;
    assert Place(e, b) == 1;
  }

  /** One endpoint removed twice at a time is told twice. */
  lemma TwiceTold(u: Uuid, a: EndpointId, b: EndpointId)
    requires a != b
    ensures var d := [Endpoint(a, true), Endpoint(b, true)];
            var run := [ReadEndpoint(0, u, a), ReadEndpoint(1, u, a), Commit(0), Commit(1)];
            Times(Run(Shared(State(map[u := d], [], {}), map[]), run).base.log, Key(u, a)) == 2
  {
    var d := [Endpoint(a, true), Endpoint(b, true)];
    PairSees(a, b);
    OffFirst(u, a, b);
    ReadReadCommitCommit(State(map[u := d], [], {}), u, a, a);
    var event := EndpointRemoved(Key(u, a), false);
    TimesOneMore([], event, Key(u, a));
    TimesOneMore([event], event, Key(u, a));
    assert [] + [event] == [event];
  }
}
