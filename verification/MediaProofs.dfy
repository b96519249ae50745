/**
 Proofs about every interleaving of the media server's threads (MediaRun).
 */
module MediaProofs {
  import opened Basics
  import opened MediaServer
  import opened MediaRun

  // ----- the byte streams

  lemma FlatOne(bufs: seq<Bytes>, d: Bytes)
    ensures Flat(bufs + [d]) == Flat(bufs) + d
  {
    assert (bufs + [d])[..|bufs|] == bufs;
  }

  /** One more fragment extends what a viewer is meant to see by exactly that buffer. */
  lemma StreamExtends(f: Feed, i: nat, j: nat)
    requires i <= j < |f.frags|
    ensures Stream(f, i, j + 1) == Stream(f, i, j) + f.frags[j]
  {
    assert f.frags[i..j + 1] == f.frags[i..j] + [f.frags[j]];
    FlatOne(f.frags[i..j], f.frags[j]);
  }

  lemma StreamStart(f: Feed, i: nat, j: nat)
    requires i <= j <= |f.frags|
    ensures f.greeting <= Stream(f, i, j) && f.greeting + f.init <= Stream(f, i, j)
    ensures i == j ==> Stream(f, i, j) == f.greeting + f.init
  {
    assert i == j ==> f.frags[i..j] == [];
  }

  /** A partial write of the init segment after the header stays inside the stream. */
  lemma PartialInit(f: Feed, i: nat, k: nat)
    requires i <= |f.frags| && k <= |f.init|
    ensures f.greeting + f.init[..k] <= Stream(f, i, |f.frags|)
  {
    assert Stream(f, i, |f.frags|)[..|f.greeting| + k] == f.greeting + f.init[..k];
  }

  // ----- frames

  /** A step that leaves the streams alone and moves at most one viewer needs a look at that
      viewer only. */
  lemma OthersKeep(s: State, t: State, c: Conn)
    requires Viewers(s) && FeedOf(t) == FeedOf(s)
    requires c in t.viewers && t.viewers == s.viewers[c := t.viewers[c]]
    requires forall d :: d in s.viewers && d != c ==> PlaceOf(t, d) == PlaceOf(s, d)
    requires ViewerOk(FeedOf(t), PlaceOf(t, c), t.viewers[c])
    ensures Viewers(t)
  {
  }

  lemma AllKeep(s: State, t: State)
    requires Viewers(s) && FeedOf(t) == FeedOf(s) && t.viewers == s.viewers
    requires forall d :: d in s.viewers ==> PlaceOf(t, d) == PlaceOf(s, d)
    ensures Viewers(t)
  {
  }

  /** A step that changes one viewer and nothing else. */
  lemma OneViewerKeeps(s: State, c: Conn, v: Viewer)
    requires Inv(s) && c in s.viewers
    requires ViewerOk(FeedOf(s), PlaceOf(s, c), v)
    ensures Inv(s.(viewers := s.viewers[c := v]))
  {
    var t := s.(viewers := s.viewers[c := v]);
    assert forall d :: PlaceOf(t, d) == PlaceOf(s, d);
    OthersKeep(s, t, c);
  }

  lemma DropRef(refs: multiset<Conn>, a: multiset<Conn>, b: multiset<Conn>, x: multiset<Conn>, y: multiset<Conn>,
                c: Conn)
    requires refs == a + b + x + y && c in b
    ensures refs - multiset{c} == a + (b - multiset{c}) + x + y
  {
  }

  // ----- handler steps

  lemma AcceptKeeps(s: State, c: Conn)
    requires Inv(s) && Enabled(s, Accept(c))
    ensures Inv(DoAccept(s, c))
  {
    var t := DoAccept(s, c);
    assert forall d :: PlaceOf(t, d) == PlaceOf(s, d);
    assert c !in Waiting(s.pusher) by {
      assert Subset(Waiting(s.pusher), Taken(s.pusher));
    }
    OthersKeep(s, t, c);
  }

  lemma WriteHeaderKeeps(s: State, c: Conn, o: Outcome)
    requires Inv(s) && Enabled(s, WriteHeader(c, o))
    ensures Inv(DoWriteHeader(s, c, o))
  {
    OneViewerKeeps(s, c, DoWriteHeader(s, c, o).viewers[c]);
  }

  lemma DeferBooks(s: State, c: Conn)
    requires Books(s) && c in s.viewers && !s.core.initComplete && c !in s.core.pending
    ensures Books(s.(core := Lookup(s.core, c)))
  {
    var t := s.(core := Lookup(s.core, c));
    assert multiset(t.core.pending) == multiset{c} + multiset(s.core.pending);
  }

  lemma LookupKeeps(s: State, c: Conn)
    requires Inv(s) && Enabled(s, LookupStep(c))
    ensures Inv(DoLookup(s, c))
  {
    var t := DoLookup(s, c);
    var was := PlaceOf(s, c);
    assert !was.client && !was.pending && !was.waiting;
    if s.core.initComplete {
      OneViewerKeeps(s, c, t.viewers[c]);
    } else {
      DeferBooks(s, c);
      assert Books(t);
      OthersKeep(s, t, c);
    }
  }

  lemma WithdrawBooks(s: State, c: Conn)
    requires Books(s) && c in s.viewers && c in s.core.pending
    ensures Books(s.(core := Withdraw(s.core, c)))
  {
    var t := s.(core := Withdraw(s.core, c));
    RemoveOneDistinct(s.core.pending, c);
    DropRef(s.core.refs, multiset(s.core.clients), multiset(s.core.pending),
            multiset(Taken(s.pusher)), multiset(Snapshot(s.pusher)), c);
    assert References(t);
    assert Lists(t);
  }

  lemma WithdrawKeeps(s: State, c: Conn)
    requires Inv(s) && Enabled(s, WithdrawStep(c))
    ensures Inv(DoWithdraw(s, c))
  {
    var t := DoWithdraw(s, c);
    if c in s.core.pending {
      WithdrawBooks(s, c);
      RemoveOneDistinct(s.core.pending, c);
      assert Books(t);
      OthersKeep(s, t, c);
    } else {
      OneViewerKeeps(s, c, t.viewers[c]);
    }
  }

  /** Writing the init segment to a viewer that has the header and no more. */
  lemma WriteInitViewer(f: Feed, v: Viewer, o: Outcome)
    requires f.complete && v.joined <= |f.frags|
    requires v.got <= f.greeting && (v.open ==> v.got == f.greeting)
    ensures var (w, ok) := Write(v, f.init, o);
            && w.joined == v.joined && w.handler == v.handler
            && (if ok then w.open && w.got == f.greeting + f.init
                else !w.open && w.got <= Stream(f, w.joined, |f.frags|))
  {
    StreamStart(f, v.joined, |f.frags|);
    if o.Broken? {
      PartialInit(f, v.joined, if o.sent < |f.init| then o.sent else |f.init|);
    }
  }

  lemma WriteInitKeeps(s: State, c: Conn, o: Outcome)
    requires Inv(s) && Enabled(s, WriteInit(c, o))
    ensures Inv(DoWriteInit(s, c, o))
  {
    var v := s.viewers[c];
    assert OtherViewer(FeedOf(s), v);
    WriteInitViewer(FeedOf(s), v, o);
    StreamStart(FeedOf(s), v.joined, |s.frags|);
    OneViewerKeeps(s, c, DoWriteInit(s, c, o).viewers[c]);
  }

  lemma RegisterBooks(s: State, c: Conn)
    requires Books(s) && c in s.viewers && s.core.initComplete
    requires c !in s.core.clients && c !in s.core.pending && c !in Waiting(s.pusher)
    ensures Books(s.(core := Register(s.core, c)))
  {
    var t := s.(core := Register(s.core, c));
    assert multiset(t.core.clients) == multiset{c} + multiset(s.core.clients);
  }

  lemma RegisterViewers(s: State, c: Conn)
    requires Viewers(s) && c in s.viewers && s.viewers[c].handler.CaughtUp?
    requires PlaceOf(s, c) == Place(false, false, false, false, false, false)
    ensures Viewers(DoRegister(s, c))
  {
    var t := DoRegister(s, c);
    StreamStart(FeedOf(s), |s.frags|, |s.frags|);
    assert OtherViewer(FeedOf(s), s.viewers[c]);
    OthersKeep(s, t, c);
  }

  lemma RegisterKeeps(s: State, c: Conn)
    requires Inv(s) && Enabled(s, RegisterStep(c))
    ensures Inv(DoRegister(s, c))
  {
    var was := PlaceOf(s, c);
    assert !was.client && !was.pending && !was.waiting;
    RegisterBooks(s, c);
    assert Subset(Unwritten(s.pusher), Snapshot(s.pusher)) && Subset(Failed(s.pusher), Snapshot(s.pusher));
    RegisterViewers(s, c);
  }

  // ----- a new buffer

  lemma HeaderBufferKeeps(s: State, data: Bytes)
    requires Inv(s) && s.pusher.Idle? && data != [] && !s.core.initComplete && !IsFragmentStart(data)
    ensures Inv(DoPush(s, data))
  {
    var t := DoPush(s, data);
    FlatOne(s.headers, data);
    assert forall d :: PlaceOf(t, d) == PlaceOf(s, d);
    assert Viewers(t);
  }

  lemma LiveBufferBooks(s: State, data: Bytes)
    requires Books(s) && s.pusher.Idle? && data != [] && (s.core.initComplete || IsFragmentStart(data))
    ensures Books(DoPush(s, data))
    ensures forall d :: PlaceOf(DoPush(s, data), d) ==
                        Place(d in s.core.clients, false, d in s.core.pending, false, d in s.core.clients, false)
  {
    var t := DoPush(s, data);
    assert Snapshot(t.pusher) == s.core.clients == Unwritten(t.pusher);
    assert Taken(t.pusher) == s.core.pending == Waiting(t.pusher) && t.core.pending == [];
  }

  lemma LiveBufferViewer(f: Feed, g: Feed, p: Place, v: Viewer, data: Bytes)
    requires g == f.(complete := true, frags := f.frags + [data])
    requires !f.complete ==> !p.client
    requires !p.waiting && !p.landed && !p.unwritten && !p.failed
    requires ViewerOk(f, p, v)
    ensures ViewerOk(g, Place(p.client, false, p.pending, false, p.client, false), v)
  {
    var n := |f.frags|;
    assert g.frags[v.joined..n] == f.frags[v.joined..n];
    assert g.frags[n] == data;
    StreamExtends(g, v.joined, n);
    StreamStart(g, v.joined, n + 1);
  }

  lemma PushKeeps(s: State, data: Bytes)
    requires Inv(s) && Enabled(s, Push(data))
    ensures Inv(DoPush(s, data))
  {
    if data == [] {
    } else if !s.core.initComplete && !IsFragmentStart(data) {
      HeaderBufferKeeps(s, data);
    } else {
      var t := DoPush(s, data);
      LiveBufferBooks(s, data);
      forall d | d in s.viewers
        ensures ViewerOk(FeedOf(t), PlaceOf(t, d), t.viewers[d])
      {
        LiveBufferViewer(FeedOf(s), FeedOf(t), PlaceOf(s, d), s.viewers[d], data);
      }
    }
  }

  // ----- promotion of deferred viewers

  lemma {:induction false} TurnLeaves(queue: seq<Conn>, turn: nat)
    requires turn < |queue| && Distinct(queue)
    ensures queue[turn] in queue[turn..] && queue[turn] !in queue[turn + 1..] && queue[turn] !in queue[..turn]
    ensures forall d :: d in queue[turn + 1..] <==> d in queue[turn..] && d != queue[turn]
  {
    assert queue[turn..] == [queue[turn]] + queue[turn + 1..];
  }

  lemma PromoteWriteBooks(s: State, o: Outcome)
    requires Books(s) && Enabled(s, PromoteWrite(o))
    ensures Books(DoPromoteWrite(s, o))
  {
    var p := s.pusher;
    var t := DoPromoteWrite(s, o);
    TurnLeaves(p.queue, p.turn);
    assert t.core == s.core && t.viewers.Keys == s.viewers.Keys;
    assert Taken(t.pusher) == Taken(p) && Snapshot(t.pusher) == Snapshot(p);
    assert Subset(Waiting(t.pusher), Waiting(p));
  }

  lemma PromoteWritePlaces(s: State, o: Outcome)
    requires Enabled(s, PromoteWrite(o)) && Distinct(s.pusher.queue)
    ensures var t, c := DoPromoteWrite(s, o), s.pusher.queue[s.pusher.turn];
            && (forall d :: d != c ==> PlaceOf(t, d) == PlaceOf(s, d))
            && PlaceOf(s, c).waiting && !PlaceOf(s, c).landed
            && PlaceOf(t, c) == PlaceOf(s, c).(waiting := t.pusher.landed, landed := t.pusher.landed)
  {
    var p := s.pusher;
    TurnLeaves(p.queue, p.turn);
    var q := DoPromoteWrite(s, o).pusher;
    assert q == p.(landed := true) || q == p.(turn := p.turn + 1);
    assert Unwritten(q) == Unwritten(p) && Failed(q) == Failed(p);
    assert Waiting(q) == p.queue[p.turn..] || Waiting(q) == p.queue[p.turn + 1..];
  }

  lemma PromoteWriteViewers(s: State, o: Outcome)
    requires Viewers(s) && Enabled(s, PromoteWrite(o)) && Distinct(s.pusher.queue)
    requires !PlaceOf(s, s.pusher.queue[s.pusher.turn]).client && !PlaceOf(s, s.pusher.queue[s.pusher.turn]).pending
    ensures Viewers(DoPromoteWrite(s, o))
  {
    var c := s.pusher.queue[s.pusher.turn];
    PromoteWritePlaces(s, o);
    assert WaitingViewer(FeedOf(s), PlaceOf(s, c), s.viewers[c]);
    WriteInitViewer(FeedOf(s), s.viewers[c], o);
    StreamStart(FeedOf(s), s.viewers[c].joined, |s.frags|);
    OthersKeep(s, DoPromoteWrite(s, o), c);
  }

  lemma PromoteWriteKeeps(s: State, o: Outcome)
    requires Inv(s) && Enabled(s, PromoteWrite(o))
    ensures Inv(DoPromoteWrite(s, o))
  {
    PromoteWriteBooks(s, o);
    TurnLeaves(s.pusher.queue, s.pusher.turn);
    PromoteWriteViewers(s, o);
  }

  lemma AddRefs(refs: multiset<Conn>, a: multiset<Conn>, b: multiset<Conn>, x: multiset<Conn>, y: multiset<Conn>,
                c: Conn)
    requires refs == a + b + x + y
    ensures refs + multiset{c, c} == (multiset{c} + a) + b + x + (multiset{c} + y)
  {
  }

  lemma PromoteAddLists(s: State)
    requires Books(s) && Enabled(s, PromoteAdd)
    ensures Lists(DoPromoteAdd(s))
  {
    var p := s.pusher;
    var c := p.queue[p.turn];
    TurnLeaves(p.queue, p.turn);
    var t := DoPromoteAdd(s);
    assert c in Waiting(p) && c !in s.core.clients && c !in p.snapshot;
    assert Distinct(t.core.clients) && Distinct(Snapshot(t.pusher));
    assert c in Taken(p);
  }

  lemma PromoteAddBooks(s: State)
    requires Books(s) && Enabled(s, PromoteAdd)
    ensures Books(DoPromoteAdd(s))
  {
    var p := s.pusher;
    var c := p.queue[p.turn];
    var t := DoPromoteAdd(s);
    PromoteAddLists(s);
    assert multiset(t.core.clients) == multiset{c} + multiset(s.core.clients);
    assert multiset(Snapshot(t.pusher)) == multiset{c} + multiset(Snapshot(p));
    AddRefs(s.core.refs, multiset(s.core.clients), multiset(s.core.pending),
            multiset(Taken(p)), multiset(Snapshot(p)), c);
  }

  lemma PromoteAddPlaces(s: State)
    requires Books(s) && Enabled(s, PromoteAdd)
    ensures var t, c := DoPromoteAdd(s), s.pusher.queue[s.pusher.turn];
            && (forall d :: d != c ==> PlaceOf(t, d) == PlaceOf(s, d))
            && PlaceOf(s, c).waiting && PlaceOf(s, c).landed && !PlaceOf(s, c).client && !PlaceOf(s, c).pending
            && PlaceOf(t, c) == Place(true, false, false, false, true, false)
  {
    TurnLeaves(s.pusher.queue, s.pusher.turn);
  }

  lemma PromoteAddKeeps(s: State)
    requires Inv(s) && Enabled(s, PromoteAdd)
    ensures Inv(DoPromoteAdd(s))
  {
    var c := s.pusher.queue[s.pusher.turn];
    PromoteAddBooks(s);
    PromoteAddPlaces(s);
    assert WaitingViewer(FeedOf(s), PlaceOf(s, c), s.viewers[c]);
    StreamStart(FeedOf(s), |s.frags| - 1, |s.frags| - 1);
    OthersKeep(s, DoPromoteAdd(s), c);
  }

  lemma PromoteEndKeeps(s: State)
    requires Inv(s) && Enabled(s, PromoteEnd)
    ensures Inv(DoPromoteEnd(s))
  {
    var t := DoPromoteEnd(s);
    assert s.pusher.queue[s.pusher.turn..] == [];
    assert t.pusher.snapshot[0..] == s.pusher.snapshot;
    assert Books(t);
    AllKeep(s, t);
  }

  // ----- writing the buffer to the snapshot

  lemma FanWriteBooks(s: State, o: Outcome)
    requires Books(s) && Enabled(s, FanWrite(o))
    ensures Books(DoFanWrite(s, o))
  {
    var p := s.pusher;
    var t := DoFanWrite(s, o);
    assert p.snapshot[..p.done + 1] == p.snapshot[..p.done] + [p.snapshot[p.done]];
    assert t.core == s.core && t.viewers.Keys == s.viewers.Keys;
    assert Taken(t.pusher) == Taken(p) && Snapshot(t.pusher) == Snapshot(p) && Waiting(t.pusher) == Waiting(p);
  }

  lemma FanWritePlaces(s: State, o: Outcome)
    requires Enabled(s, FanWrite(o)) && Distinct(s.pusher.snapshot)
    requires Subset(s.pusher.failed, s.pusher.snapshot[..s.pusher.done])
    ensures var t, c := DoFanWrite(s, o), s.pusher.snapshot[s.pusher.done];
            && (forall d :: d != c ==> PlaceOf(t, d) == PlaceOf(s, d))
            && PlaceOf(s, c).unwritten && !PlaceOf(s, c).failed
            && PlaceOf(t, c) == PlaceOf(s, c).(unwritten := false, failed := |t.pusher.failed| > |s.pusher.failed|)
  {
    TurnLeaves(s.pusher.snapshot, s.pusher.done);
  }

  /** The last fragment is written to an active viewer that lacks only it. */
  lemma FanWriteViewer(f: Feed, p: Place, v: Viewer, o: Outcome)
    requires f.frags != [] && p.client && p.unwritten && !p.failed && ViewerOk(f, p, v)
    ensures var (w, ok) := Write(v, f.frags[|f.frags| - 1], o);
            ViewerOk(f, p.(unwritten := false, failed := !ok), w)
  {
    var data := f.frags[|f.frags| - 1];
    StreamExtends(f, v.joined, |f.frags| - 1);
    if o.Broken? {
      var k := if o.sent < |data| then o.sent else |data|;
      assert v.got + data[..k] <= v.got + data;
    }
  }

  /** The write leaves its own viewer in order, and every other one in its place. */
  lemma FanWriteOne(s: State, o: Outcome)
    requires Enabled(s, FanWrite(o)) && Distinct(s.pusher.snapshot)
    requires Subset(s.pusher.failed, s.pusher.snapshot[..s.pusher.done])
    requires s.frags != [] && s.pusher.data == s.frags[|s.frags| - 1]
    requires var c := s.pusher.snapshot[s.pusher.done];
             PlaceOf(s, c).client && ViewerOk(FeedOf(s), PlaceOf(s, c), s.viewers[c])
    ensures var t, c := DoFanWrite(s, o), s.pusher.snapshot[s.pusher.done];
            && FeedOf(t) == FeedOf(s) && c in t.viewers && t.viewers == s.viewers[c := t.viewers[c]]
            && ViewerOk(FeedOf(t), PlaceOf(t, c), t.viewers[c])
            && (forall d :: d != c ==> PlaceOf(t, d) == PlaceOf(s, d))
  {
    var c := s.pusher.snapshot[s.pusher.done];
    FanWritePlaces(s, o);
    FanWriteViewer(FeedOf(s), PlaceOf(s, c), s.viewers[c], o);
  }

  lemma FanWriteViewers(s: State, o: Outcome)
    requires Viewers(s) && PusherShape(s) && Enabled(s, FanWrite(o)) && Distinct(s.pusher.snapshot)
    requires PlaceOf(s, s.pusher.snapshot[s.pusher.done]).client
    ensures Viewers(DoFanWrite(s, o))
  {
    FanWriteOne(s, o);
    OthersKeep(s, DoFanWrite(s, o), s.pusher.snapshot[s.pusher.done]);
  }

  lemma FanWriteKeeps(s: State, o: Outcome)
    requires Inv(s) && Enabled(s, FanWrite(o))
    ensures Inv(DoFanWrite(s, o))
  {
    FanWriteBooks(s, o);
    assert s.pusher.snapshot[s.pusher.done] in Snapshot(s.pusher);
    FanWriteViewers(s, o);
  }

  lemma FanEndBooks(s: State)
    requires s.pusher.Fanning? && Books(s) && Enabled(s, FanEnd)
    ensures Books(DoFanEnd(s))
    ensures var t := DoFanEnd(s);
            && (forall d :: d in t.core.clients <==> d in s.core.clients && d !in s.pusher.failed)
            && FeedOf(t) == FeedOf(s) && t.core.pending == s.core.pending == []
  {
    DropFailedExact(s.core, s.pusher.failed, multiset(s.core.pending) + multiset(s.pusher.snapshot));
    assert References(DoFanEnd(s));
  }

  lemma FanEndViewers(s: State, t: State)
    requires Viewers(s) && FeedOf(t) == FeedOf(s) && t.viewers == s.viewers
    requires s.pusher.Fanning? && s.pusher.done == |s.pusher.snapshot| && t.pusher.Idle?
    requires s.core.pending == [] == t.core.pending
    requires forall d :: d in t.core.clients <==> d in s.core.clients && d !in s.pusher.failed
    ensures Viewers(t)
  {
    assert Unwritten(s.pusher) == [];
    forall d | d in t.viewers
      ensures ViewerOk(FeedOf(t), PlaceOf(t, d), t.viewers[d])
    {
      assert ViewerOk(FeedOf(s), PlaceOf(s, d), s.viewers[d]);
    }
  }

  lemma FanEndKeeps(s: State)
    requires Inv(s) && Enabled(s, FanEnd)
    ensures Inv(DoFanEnd(s))
  {
    FanEndBooks(s);
    FanEndViewers(s, DoFanEnd(s));
  }

  // ----- whole runs

  lemma StepKeeps(s: State, a: Action)
    requires Inv(s) && Enabled(s, a)
    ensures Inv(Step(s, a))
  {
    match a
    case Accept(c) => AcceptKeeps(s, c);
    case WriteHeader(c, o) => WriteHeaderKeeps(s, c, o);
    case LookupStep(c) => LookupKeeps(s, c);
    case WithdrawStep(c) => WithdrawKeeps(s, c);
    case WriteInit(c, o) => WriteInitKeeps(s, c, o);
    case RegisterStep(c) => RegisterKeeps(s, c);
    case Push(data) => PushKeeps(s, data);
    case PromoteWrite(o) => PromoteWriteKeeps(s, o);
    case PromoteAdd => PromoteAddKeeps(s);
    case PromoteEnd => PromoteEndKeeps(s);
    case FanWrite(o) => FanWriteKeeps(s, o);
    case FanEnd => FanEndKeeps(s);
  }

  lemma NextKeeps(s: State, a: Action)
    requires Inv(s)
    ensures Inv(Next(s, a)) && Next(s, a).greeting == s.greeting
  {
    if Enabled(s, a) {
      StepKeeps(s, a);
    }
  }

  lemma {:induction false} RunKeeps(s: State, run: seq<Action>)
    requires Inv(s)
    ensures Inv(Run(s, run)) && Run(s, run).greeting == s.greeting
    decreases |run|
  {
    if run != [] {
      NextKeeps(s, run[0]);
      RunKeeps(Next(s, run[0]), run[1..]);
    }
  }

  // ----- what was pushed, read off the run

  function PushedBy(s: State, a: Action): seq<Bytes> {
    if a.Push? && Enabled(s, a) && a.data != [] then [a.data] else []
  }

  /** The buffers the pusher handed over in a run. */
  function Pushed(s: State, run: seq<Action>): seq<Bytes>
    decreases |run|
  {
    if run == [] then [] else PushedBy(s, run[0]) + Pushed(Next(s, run[0]), run[1..])
  }

  function Buffers(s: State): seq<Bytes> {
    s.headers + s.frags
  }

  lemma NextPushed(s: State, a: Action)
    requires History(s)
    ensures Buffers(Next(s, a)) == Buffers(s) + PushedBy(s, a)
  {
    if PushedBy(s, a) != [] {
      var t := DoPush(s, a.data);
      assert t.headers + t.frags == s.headers + s.frags + [a.data];
    } else if a.Push? || !Enabled(s, a) {
      assert Next(s, a) == s;
    }
  }

  lemma Appended(all: seq<Bytes>, one: seq<Bytes>, more: seq<Bytes>)
    ensures all + one + more == all + (one + more)
  {
  }

  /** Headers and fragments together are everything pushed, in order. */
  lemma {:induction false} RunPushed(s: State, run: seq<Action>)
    requires Inv(s)
    ensures Buffers(Run(s, run)) == Buffers(s) + Pushed(s, run)
    decreases |run|
  {
    if run != [] {
      var t, rest := Next(s, run[0]), run[1..];
      NextKeeps(s, run[0]);
      NextPushed(s, run[0]);
      RunPushed(t, rest);
      Appended(Buffers(s), PushedBy(s, run[0]), Pushed(t, rest));
    }
  }

  /** Whatever its place, a viewer has received a prefix of its stream. */
  lemma ViewerPrefix(f: Feed, p: Place, v: Viewer)
    requires ViewerOk(f, p, v) && (f.complete <==> f.frags != [])
    ensures v.got <= Stream(f, v.joined, |f.frags|)
    ensures !f.complete ==> v.got <= f.greeting
  {
    var n := |f.frags|;
    StreamStart(f, v.joined, n);
    if v.joined < n {
      StreamExtends(f, v.joined, n - 1);
    }
  }

  /** c has received a prefix of: the HTTP header, all buffers pushed before the first
      fragment, then the fragment buffers from index i on. */
  ghost predicate SeesPrefixFrom(s: State, c: Conn, i: nat)
    requires c in s.viewers
  {
    i <= |s.frags| && s.viewers[c].got <= s.greeting + Flat(s.headers) + Flat(s.frags[i..])
  }

  /** c has received all of it. */
  ghost predicate SeesAllFrom(s: State, c: Conn, i: nat)
    requires c in s.viewers
  {
    i <= |s.frags| && s.viewers[c].got == s.greeting + Flat(s.headers) + Flat(s.frags[i..])
  }

  lemma InvSees(s: State, c: Conn)
    requires Inv(s) && c in s.viewers
    ensures SeesPrefixFrom(s, c, s.viewers[c].joined)
    ensures s.frags == [] ==> s.viewers[c].got <= s.greeting
    ensures s.pusher.Idle? && c in s.core.clients ==> s.viewers[c].open && SeesAllFrom(s, c, s.viewers[c].joined)
  {
    var i := s.viewers[c].joined;
    ViewerPrefix(FeedOf(s), PlaceOf(s, c), s.viewers[c]);
    assert s.frags[i..|s.frags|] == s.frags[i..];
  }

  /** In every interleaving, what a viewer has received is a prefix of the HTTP header, then
      the init segment (all buffers pushed before the first fragment start), then the fragment
      buffers from some index on without a gap; before the first fragment is pushed, of the
      header alone. So no viewer gets a cut init segment followed by fragments. */
  lemma EveryViewerSeesAStream(greeting: Bytes, run: seq<Action>, c: Conn)
    requires c in Run(Init(greeting), run).viewers
    ensures var s := Run(Init(greeting), run);
            && s.greeting == greeting && Buffers(s) == Pushed(Init(greeting), run)
            && (forall i :: 0 <= i < |s.headers| ==> !IsFragmentStart(s.headers[i]))
            && (s.frags != [] ==> IsFragmentStart(s.frags[0]))
            && (s.frags == [] ==> s.viewers[c].got <= greeting)
            && exists i: nat :: SeesPrefixFrom(s, c, i)
  {
    RunKeeps(Init(greeting), run);
    RunPushed(Init(greeting), run);
    InvSees(Run(Init(greeting), run), c);
  }

  /** Between pushes every active viewer is connected and has its stream exactly: nothing
      lost, cut or doubled. */
  lemma ActiveViewersAreCurrent(greeting: Bytes, run: seq<Action>, c: Conn)
    requires Run(Init(greeting), run).pusher.Idle?
    requires c in Run(Init(greeting), run).core.clients
    ensures var s := Run(Init(greeting), run);
            c in s.viewers && s.viewers[c].open && exists i: nat :: SeesAllFrom(s, c, i)
  {
    RunKeeps(Init(greeting), run);
    InvSees(Run(Init(greeting), run), c);
  }

  /** Between pushes the server holds exactly one reference per pending or active viewer, no
      viewer is listed twice, and destroying the server releases every reference. */
  lemma ReferencesConserved(greeting: Bytes, run: seq<Action>)
    requires Run(Init(greeting), run).pusher.Idle?
    ensures var core := Run(Init(greeting), run).core;
            && (forall c :: core.refs[c] == if c in core.clients || c in core.pending then 1 else 0)
            && Distinct(core.clients) && Distinct(core.pending)
            && (forall c :: c in core.clients ==> c !in core.pending)
            && Destroyed(core).refs == multiset{} && Destroyed(core).clients == [] == Destroyed(core).pending
  {
    RunKeeps(Init(greeting), run);
    var core := Run(Init(greeting), run).core;
    DistinctCounts(core.clients);
    DistinctCounts(core.pending);
    assert core.refs == multiset(core.clients) + multiset(core.pending);
    assert core.refs - multiset(core.clients) == multiset(core.pending);
  }
}
