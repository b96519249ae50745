/**
 Who is served: every viewer that stays connected and has done its part becomes active, the
 early ones with the first fragment (reference/src/cameraMediaServer.c:184-238, 388-466).
 */
module MediaServed {
  import opened Basics
  import opened MediaServer
  import opened MediaRun
  import opened MediaProofs

  /** A connected viewer that was deferred waits its turn, and is then a client if there is an
      init segment to give it; one that registered is a client. */
  ghost predicate Seated(f: Feed, p: Place, v: Viewer) {
    && (v.handler.Deferred? && v.open ==>
        if !f.complete then p.pending else p.waiting || (p.client <==> f.init != []))
    && (v.handler.Deferred? && p.client ==> v.joined == 0)
    && (v.handler.Left? && v.open ==> p.client)
    && (v.handler.Withdrawing? ==> !v.open)
  }

  ghost predicate AllSeated(s: State) {
    forall c :: c in s.viewers ==> Seated(FeedOf(s), PlaceOf(s, c), s.viewers[c])
  }

  /** Deferred viewers are promoted with the very first fragment; header buffers have content. */
  ghost predicate FirstOnly(s: State) {
    && (s.pusher.Promoting? ==> |s.frags| == 1)
    && (forall i :: 0 <= i < |s.headers| ==> s.headers[i] != [])
  }

  ghost predicate Served(s: State) {
    AllSeated(s) && FirstOnly(s)
  }

  // ----- frames

  lemma OthersSeated(s: State, t: State, c: Conn)
    requires AllSeated(s) && FeedOf(t) == FeedOf(s)
    requires c in t.viewers && t.viewers == s.viewers[c := t.viewers[c]]
    requires forall d :: d in s.viewers && d != c ==> PlaceOf(t, d) == PlaceOf(s, d)
    requires Seated(FeedOf(t), PlaceOf(t, c), t.viewers[c])
    ensures AllSeated(t)
  {
  }

  lemma OneSeated(s: State, c: Conn, v: Viewer)
    requires AllSeated(s) && Seated(FeedOf(s), PlaceOf(s, c), v)
    ensures AllSeated(s.(viewers := s.viewers[c := v]))
  {
    var t := s.(viewers := s.viewers[c := v]);
    assert forall d :: PlaceOf(t, d) == PlaceOf(s, d);
    OthersSeated(s, t, c);
  }

  lemma SamePlaces(s: State, t: State)
    requires AllSeated(s) && FeedOf(t) == FeedOf(s) && t.viewers == s.viewers
    requires forall d :: d in s.viewers ==> PlaceOf(t, d) == PlaceOf(s, d)
    ensures AllSeated(t)
  {
  }

  // ----- handler steps

  lemma HeaderSeated(s: State, c: Conn, o: Outcome)
    requires AllSeated(s) && Enabled(s, WriteHeader(c, o))
    ensures AllSeated(DoWriteHeader(s, c, o))
  {
    OneSeated(s, c, DoWriteHeader(s, c, o).viewers[c]);
  }

  lemma LookupSeated(s: State, c: Conn)
    requires AllSeated(s) && Inv(s) && Enabled(s, LookupStep(c))
    ensures AllSeated(DoLookup(s, c))
  {
    var t := DoLookup(s, c);
    assert ViewerOk(FeedOf(s), PlaceOf(s, c), s.viewers[c]);
    assert OtherViewer(FeedOf(s), s.viewers[c]);
    if s.core.initComplete {
      OneSeated(s, c, t.viewers[c]);
    } else {
      OthersSeated(s, t, c);
    }
  }

  lemma WithdrawSeated(s: State, c: Conn)
    requires AllSeated(s) && Distinct(s.core.pending) && Enabled(s, WithdrawStep(c))
    ensures AllSeated(DoWithdraw(s, c))
  {
    var t := DoWithdraw(s, c);
    assert !s.viewers[c].open;
    RemoveOneDistinct(s.core.pending, c);
    OthersSeated(s, t, c);
  }

  lemma WriteInitSeated(s: State, c: Conn, o: Outcome)
    requires AllSeated(s) && Inv(s) && Enabled(s, WriteInit(c, o))
    ensures AllSeated(DoWriteInit(s, c, o))
  {
    assert ViewerOk(FeedOf(s), PlaceOf(s, c), s.viewers[c]);
    assert OtherViewer(FeedOf(s), s.viewers[c]);
    OneSeated(s, c, DoWriteInit(s, c, o).viewers[c]);
  }

  lemma RegisterSeated(s: State, c: Conn)
    requires AllSeated(s) && Enabled(s, RegisterStep(c))
    ensures AllSeated(DoRegister(s, c))
  {
    OthersSeated(s, DoRegister(s, c), c);
  }

  // ----- pusher steps

  lemma HeaderBufferSeated(s: State, data: Bytes)
    requires AllSeated(s) && data != [] && !s.core.initComplete && !IsFragmentStart(data)
    ensures AllSeated(DoPush(s, data))
  {
    var t := DoPush(s, data);
    assert forall d :: PlaceOf(t, d) == PlaceOf(s, d);
  }

  lemma LiveBufferSeated(s: State, data: Bytes)
    requires AllSeated(s) && Books(s) && s.pusher.Idle? && data != []
    requires s.core.initComplete || IsFragmentStart(data)
    ensures AllSeated(DoPush(s, data))
  {
    var t := DoPush(s, data);
    LiveBufferBooks(s, data);
    forall d | d in t.viewers
      ensures Seated(FeedOf(t), PlaceOf(t, d), t.viewers[d])
    {
      assert Seated(FeedOf(s), PlaceOf(s, d), s.viewers[d]);
    }
  }

  lemma PromoteWriteSeated(s: State, o: Outcome)
    requires AllSeated(s) && Lists(s) && Enabled(s, PromoteWrite(o))
    ensures AllSeated(DoPromoteWrite(s, o))
  {
    var t, c := DoPromoteWrite(s, o), s.pusher.queue[s.pusher.turn];
    PromoteWritePlaces(s, o);
    TurnLeaves(s.pusher.queue, s.pusher.turn);
    assert !PlaceOf(s, c).client;
    OthersSeated(s, t, c);
  }

  lemma PromoteAddSeated(s: State)
    requires Served(s) && Books(s) && Enabled(s, PromoteAdd)
    ensures AllSeated(DoPromoteAdd(s))
  {
    PromoteAddPlaces(s);
    assert s.core.initSegment != [];
    OthersSeated(s, DoPromoteAdd(s), s.pusher.queue[s.pusher.turn]);
  }

  lemma PromoteEndSeated(s: State)
    requires AllSeated(s) && Enabled(s, PromoteEnd)
    ensures AllSeated(DoPromoteEnd(s))
  {
    var t := DoPromoteEnd(s);
    assert s.pusher.queue[s.pusher.turn..] == [];
    assert t.pusher.snapshot[0..] == s.pusher.snapshot;
    SamePlaces(s, t);
  }

  lemma FanWriteSeated(s: State, o: Outcome)
    requires AllSeated(s) && Books(s) && Enabled(s, FanWrite(o))
    ensures AllSeated(DoFanWrite(s, o))
  {
    FanWritePlaces(s, o);
    OthersSeated(s, DoFanWrite(s, o), s.pusher.snapshot[s.pusher.done]);
  }

  lemma FanEndSeated(s: State)
    requires AllSeated(s) && Inv(s) && Enabled(s, FanEnd)
    ensures AllSeated(DoFanEnd(s))
  {
    var t := DoFanEnd(s);
    FanEndBooks(s);
    forall d | d in t.viewers
      ensures Seated(FeedOf(t), PlaceOf(t, d), t.viewers[d])
    {
      assert Seated(FeedOf(s), PlaceOf(s, d), s.viewers[d]);
      assert ViewerOk(FeedOf(s), PlaceOf(s, d), s.viewers[d]);
    }
  }

  lemma StepSeated(s: State, a: Action)
    requires Served(s) && Inv(s) && Enabled(s, a)
    ensures AllSeated(Step(s, a))
  {
    match a
    case Accept(c) => OneSeated(s, c, Viewer(Greeting, true, [], 0));
    case WriteHeader(c, o) => HeaderSeated(s, c, o);
    case LookupStep(c) => LookupSeated(s, c);
    case WithdrawStep(c) => WithdrawSeated(s, c);
    case WriteInit(c, o) => WriteInitSeated(s, c, o);
    case RegisterStep(c) => RegisterSeated(s, c);
    case Push(data) =>
      if data == [] {
      } else if !s.core.initComplete && !IsFragmentStart(data) {
        HeaderBufferSeated(s, data);
      } else {
        LiveBufferSeated(s, data);
      }
    case PromoteWrite(o) => PromoteWriteSeated(s, o);
    case PromoteAdd => PromoteAddSeated(s);
    case PromoteEnd => PromoteEndSeated(s);
    case FanWrite(o) => FanWriteSeated(s, o);
    case FanEnd => FanEndSeated(s);
  }

  lemma StepFirstOnly(s: State, a: Action)
    requires FirstOnly(s) && History(s) && Enabled(s, a)
    ensures FirstOnly(Step(s, a))
  {
  }

  lemma {:induction false} RunServed(s: State, run: seq<Action>)
    requires Inv(s) && Served(s)
    ensures Served(Run(s, run))
    decreases |run|
  {
    if run != [] {
      NextKeeps(s, run[0]);
      if Enabled(s, run[0]) {
        StepSeated(s, run[0]);
        StepFirstOnly(s, run[0]);
      }
      RunServed(Next(s, run[0]), run[1..]);
    }
  }

  // ----- main results

  lemma {:induction false} FlatEmpty(bufs: seq<Bytes>)
    requires forall i :: 0 <= i < |bufs| ==> bufs[i] != []
    ensures Flat(bufs) == [] <==> bufs == []
  {
  }

  /** With the pusher idle after the first fragment, a connected viewer that had been deferred is
      active if and only if something was pushed before that fragment; it then has the header,
      the whole init segment and every fragment from the first on. */
  lemma EarlyViewersJoin(greeting: Bytes, run: seq<Action>, c: Conn)
    requires var s := Run(Init(greeting), run);
             && s.pusher.Idle? && s.frags != []
             && c in s.viewers && s.viewers[c].handler.Deferred? && s.viewers[c].open
    ensures var s := Run(Init(greeting), run);
            && (c in s.core.clients <==> s.headers != [])
            && (c in s.core.clients ==> SeesAllFrom(s, c, 0))
  {
    var s := Run(Init(greeting), run);
    RunKeeps(Init(greeting), run);
    RunServed(Init(greeting), run);
    assert Seated(FeedOf(s), PlaceOf(s, c), s.viewers[c]);
    FlatEmpty(s.headers);
    InvSees(s, c);
  }

  /** A connected viewer that registered is active, in every state. */
  lemma RegisteredViewersStay(greeting: Bytes, run: seq<Action>, c: Conn)
    requires var s := Run(Init(greeting), run);
             c in s.viewers && s.viewers[c].handler.Left? && s.viewers[c].open
    ensures c in Run(Init(greeting), run).core.clients
  {
    RunKeeps(Init(greeting), run);
    RunServed(Init(greeting), run);
    var s := Run(Init(greeting), run);
    assert Seated(FeedOf(s), PlaceOf(s, c), s.viewers[c]);
  }

  // ----- when every write is accepted

  predicate WritesWell(a: Action) {
    match a
    case WriteHeader(_, o) => o.Accepted?
    case WriteInit(_, o) => o.Accepted?
    case PromoteWrite(o) => o.Accepted?
    case FanWrite(o) => o.Accepted?
    case _ => true
  }

  ghost predicate AllOpen(s: State) {
    forall c :: c in s.viewers ==>
      && s.viewers[c].open && (s.viewers[c].handler.Greeted? ==> s.viewers[c].handler.ok)
      && (s.viewers[c].handler.Catching? ==> s.viewers[c].handler.ok) && !s.viewers[c].handler.Withdrawing?
  }

  lemma StepOpen(s: State, a: Action)
    requires AllOpen(s) && WritesWell(a)
    ensures AllOpen(Next(s, a))
  {
  }

  lemma {:induction false} RunOpen(s: State, run: seq<Action>)
    requires AllOpen(s) && forall i :: 0 <= i < |run| ==> WritesWell(run[i])
    ensures AllOpen(Run(s, run))
    decreases |run|
  {
    if run != [] {
      StepOpen(s, run[0]);
      RunOpen(Next(s, run[0]), run[1..]);
    }
  }

  /** The handler has returned. */
  predicate HandlerDone(h: Handler) {
    h.Deferred? || h.Left?
  }

  /** Where every write is accepted, every viewer whose handler has returned is active between
      pushes from the first fragment on, but for one deferred with no init segment to wait for. */
  lemma EveryoneIsServed(greeting: Bytes, run: seq<Action>, c: Conn)
    requires forall i :: 0 <= i < |run| ==> WritesWell(run[i])
    requires var s := Run(Init(greeting), run);
             s.pusher.Idle? && s.frags != [] && c in s.viewers && HandlerDone(s.viewers[c].handler)
    ensures var s := Run(Init(greeting), run);
            c in s.core.clients <==> s.viewers[c].handler.Left? || s.headers != []
  {
    RunOpen(Init(greeting), run);
    var s := Run(Init(greeting), run);
    if s.viewers[c].handler.Deferred? {
      EarlyViewersJoin(greeting, run, c);
    } else {
      RegisteredViewersStay(greeting, run, c);
    }
  }

  // ----- which buffers open a fragment

  function Ascii(text: string): Bytes
    requires forall i :: 0 <= i < |text| ==> text[i] < '\U{0080}'
  {
    seq(|text|, i requires 0 <= i < |text| => (text[i] as int) as byte)
  }

  /** A buffer opens a fragment exactly when the four bytes after its first four are "moof" or
      "styp". */
  lemma FragmentStartIff(size: Bytes, name: Bytes, rest: Bytes)
    requires |size| == 4 && |name| == 4
    ensures IsFragmentStart(size + name + rest) <==> name == Ascii("moof") || name == Ascii("styp")
  {
    var data := size + name + rest;
    assert data[4..8] == name;
    assert Ascii("moof") == MOOF && Ascii("styp") == STYP;
  }

  /** A shorter one never does. */
  lemma ShortIsNoFragment(data: Bytes)
    requires |data| < 8
    ensures !IsFragmentStart(data)
  {
  }
}
