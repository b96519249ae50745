/**
 Where a viewer's live stream begins. A viewer registers between two pushes
 (reference/src/cameraMediaServer.c:231-238), so its first live buffer is whatever is pushed
 next, which need not open a fragment.
 */
module MediaJoin {
  import opened Basics
  import opened MediaServer
  import opened MediaRun
  import opened MediaProofs

  /** The viewer's first live buffer, if there is one yet, opens a fragment. */
  predicate StartsWell(s: State, c: Conn) {
    c in s.viewers && s.viewers[c].joined < |s.frags| ==> IsFragmentStart(s.frags[s.viewers[c].joined])
  }

  ghost predicate AllStartWell(s: State) {
    forall c :: c in s.viewers ==> StartsWell(s, c)
  }

  /** From the first buffer that opens a fragment on, every buffer does. */
  ghost predicate WholeFragments(bufs: seq<Bytes>) {
    forall i, j :: 0 <= i < j < |bufs| && IsFragmentStart(bufs[i]) ==> IsFragmentStart(bufs[j])
  }

  lemma WholeStartWell(s: State, bufs: seq<Bytes>)
    requires Inv(s) && Buffers(s) <= bufs && WholeFragments(bufs)
    ensures AllStartWell(s)
  {
    var n := |s.headers|;
    forall c | c in s.viewers && s.viewers[c].joined < |s.frags|
      ensures IsFragmentStart(s.frags[s.viewers[c].joined])
    {
      var k := s.viewers[c].joined;
      assert Buffers(s)[n] == s.frags[0] && Buffers(s)[n + k] == s.frags[k];
      assert bufs[n] == s.frags[0] && bufs[n + k] == s.frags[k];
    }
  }

  // ----- joining in the middle

  lemma {:induction false} RunConcat(s: State, a: seq<Action>, b: seq<Action>)
    ensures Run(s, a + b) == Run(Run(s, a), b)
    decreases |a|
  {
    if a == [] {
      assert a + b == b;
    } else {
      assert (a + b)[1..] == a[1..] + b;
      RunConcat(Next(s, a[0]), a[1..], b);
    }
  }

  /** Nobody is connected. */
  predicate Alone(s: State) {
    s.viewers == map[] && s.pusher.Idle? && s.core.clients == [] && s.core.pending == []
  }

  /** The pusher pushes each buffer and is done with it. */
  function PushRun(bufs: seq<Bytes>): seq<Action> {
    if bufs == [] then [] else [Push(bufs[0]), FanEnd] + PushRun(bufs[1..])
  }

  /** Fragments are kept apart from the init segment. */
  predicate Phased(s: State) {
    s.core.initComplete <==> s.frags != []
  }

  lemma PushAlone(s: State, d: Bytes)
    requires Alone(s) && Phased(s) && d != []
    ensures var t := Next(Next(s, Push(d)), FanEnd); Alone(t) && Phased(t) && Buffers(t) == Buffers(s) + [d]
  {
    var u := DoPush(s, d);
    assert Next(s, Push(d)) == u;
    assert Buffers(u) == Buffers(s) + [d];
    if u.pusher.Fanning? {
      assert u.pusher == Fanning(d, [], 0, []);
      assert Next(u, FanEnd) == DoFanEnd(u);
    }
  }

  lemma RunTwo(s: State, a: Action, b: Action, rest: seq<Action>)
    ensures Run(s, [a, b] + rest) == Run(Next(Next(s, a), b), rest)
  {
    assert ([a, b] + rest)[1..] == [b] + rest && ([b] + rest)[1..] == rest;
  }

  lemma {:induction false} PushAllAlone(s: State, bufs: seq<Bytes>)
    requires Alone(s) && Phased(s) && forall i :: 0 <= i < |bufs| ==> bufs[i] != []
    ensures var t := Run(s, PushRun(bufs)); Alone(t) && Buffers(t) == Buffers(s) + bufs
    decreases |bufs|
  {
    if bufs != [] {
      var d := bufs[0];
      PushAlone(s, d);
      RunTwo(s, Push(d), FanEnd, PushRun(bufs[1..]));
      PushAllAlone(Next(Next(s, Push(d)), FanEnd), bufs[1..]);
      assert Buffers(s) + [d] + bufs[1..] == Buffers(s) + bufs;
    }
  }

  /** A viewer connects, takes header and init segment, and registers. */
  function JoinRun(): seq<Action> {
    [Accept(0), WriteHeader(0, Accepted), LookupStep(0), WriteInit(0, Accepted), RegisterStep(0)]
  }

  lemma Greets(s: State)
    requires Alone(s)
    ensures Run(s, [Accept(0), WriteHeader(0, Accepted)]) ==
            s.(viewers := map[0 := Viewer(Greeted(true), true, s.greeting, 0)])
  {
    var a, b := Accept(0), WriteHeader(0, Accepted);
    var s1 := Next(s, a);
    assert s1 == s.(viewers := map[0 := Viewer(Greeting, true, [], 0)]);
    var s2 := Next(s1, b);
    assert [] + s.greeting == s.greeting;
    assert [a, b][1..] == [b] && [b][1..] == [];
    assert Run(s1, [b]) == s2;
  }

  lemma CatchesUp(s: State)
    requires s.core.initComplete && s.viewers == map[0 := Viewer(Greeted(true), true, s.greeting, 0)]
    ensures var t := Run(s, [LookupStep(0), WriteInit(0, Accepted)]);
            0 in t.viewers && t.viewers[0].handler.CaughtUp? && t == s.(viewers := t.viewers)
  {
    var a, b := LookupStep(0), WriteInit(0, Accepted);
    var s1 := Next(s, a);
    assert s1 == s.(viewers := map[0 := Viewer(Catching(s.core.initSegment, true), true, s.greeting, 0)]);
    var s2 := Next(s1, b);
    assert s2.viewers[0].handler.CaughtUp?;
    assert [a, b][1..] == [b] && [b][1..] == [];
    assert Run(s1, [b]) == s2;
  }

  lemma Joins(s: State)
    requires Alone(s) && s.core.initComplete
    ensures var t := Run(s, JoinRun());
            && 0 in t.viewers && t.viewers[0].joined == |s.frags|
            && t.frags == s.frags && t.headers == s.headers && t.pusher.Idle? && t.core.initComplete
  {
    var a, b := [Accept(0), WriteHeader(0, Accepted)], [LookupStep(0), WriteInit(0, Accepted)];
    assert JoinRun() == a + b + [RegisterStep(0)];
    RunConcat(s, a + b, [RegisterStep(0)]);
    RunConcat(s, a, b);
    Greets(s);
    CatchesUp(Run(s, a));
    var t := Run(s, a + b);
    assert [RegisterStep(0)][1..] == [];
    assert Run(t, [RegisterStep(0)]) == Next(t, RegisterStep(0));
  }

  lemma PushLive(t: State, d: Bytes)
    requires t.core.initComplete && t.pusher.Idle? && d != []
    ensures var u := Run(t, [Push(d)]); u.headers == t.headers && u.frags == t.frags + [d] && u.viewers == t.viewers
  {
    assert [Push(d)][1..] == [];
    assert Run(Next(t, Push(d)), []) == Next(t, Push(d));
  }

  /** Once a buffer that opens a fragment was pushed, the init segment is complete. */
  lemma CompleteAfterStart(s: State, i: nat)
    requires History(s) && i < |Buffers(s)| && IsFragmentStart(Buffers(s)[i])
    ensures s.core.initComplete
  {
  }

  lemma JoinBefore(s: State, d: Bytes)
    requires Alone(s) && s.core.initComplete && d != [] && !IsFragmentStart(d)
    ensures var u := Run(s, JoinRun() + [Push(d)]); Buffers(u) == Buffers(s) + [d] && !AllStartWell(u)
  {
    var t := Run(s, JoinRun());
    Joins(s);
    PushLive(t, d);
    RunConcat(s, JoinRun(), [Push(d)]);
    var u := Run(t, [Push(d)]);
    assert u.frags[u.viewers[0].joined] == d;
    assert !StartsWell(u, 0);
  }

  lemma PushedComplete(greeting: Bytes, bufs: seq<Bytes>, i: nat)
    requires i < |bufs| && IsFragmentStart(bufs[i]) && forall k :: 0 <= k < |bufs| ==> bufs[k] != []
    ensures var s := Run(Init(greeting), PushRun(bufs)); Alone(s) && s.core.initComplete && Buffers(s) == bufs
  {
    PushAllAlone(Init(greeting), bufs);
    RunKeeps(Init(greeting), PushRun(bufs));
    assert Buffers(Init(greeting)) == [];
    assert Buffers(Run(Init(greeting), PushRun(bufs))) == bufs;
    CompleteAfterStart(Run(Init(greeting), PushRun(bufs)), i);
  }

  /** A viewer that registers just before a buffer in the middle of a fragment starts there. */
  lemma JoinsMidFragment(greeting: Bytes, bufs: seq<Bytes>, i: nat, j: nat) returns (run: seq<Action>)
    requires i < j < |bufs| && IsFragmentStart(bufs[i]) && !IsFragmentStart(bufs[j])
    requires forall k :: 0 <= k < |bufs| ==> bufs[k] != []
    ensures Buffers(Run(Init(greeting), run)) <= bufs && !AllStartWell(Run(Init(greeting), run))
  {
    var pushes, join := PushRun(bufs[..j]), JoinRun() + [Push(bufs[j])];
    PushedComplete(greeting, bufs[..j], i);
    JoinBefore(Run(Init(greeting), pushes), bufs[j]);
    run := pushes + join;
    RunConcat(Init(greeting), pushes, join);
    assert bufs[..j] + [bufs[j]] == bufs[..j + 1];
  }

  /** What is pushed, in every interleaving. */
  ghost predicate PushesOf(greeting: Bytes, run: seq<Action>, bufs: seq<Bytes>) {
    Buffers(Run(Init(greeting), run)) <= bufs
  }

  /** Whatever viewers do while these buffers are pushed, each one's first live buffer opens a
      fragment, if and only if every buffer from the first fragment on does. */
  lemma StartWellIff(greeting: Bytes, bufs: seq<Bytes>)
    requires forall k :: 0 <= k < |bufs| ==> bufs[k] != []
    ensures (forall run :: PushesOf(greeting, run, bufs) ==> AllStartWell(Run(Init(greeting), run))) <==>
            WholeFragments(bufs)
  {
    if WholeFragments(bufs) {
      forall run | PushesOf(greeting, run, bufs)
        ensures AllStartWell(Run(Init(greeting), run))
      {
        RunKeeps(Init(greeting), run);
        WholeStartWell(Run(Init(greeting), run), bufs);
      }
    } else {
      var i, j :| 0 <= i < j < |bufs| && IsFragmentStart(bufs[i]) && !IsFragmentStart(bufs[j]);
      var run := JoinsMidFragment(greeting, bufs, i, j);
      assert PushesOf(greeting, run, bufs);
    }
  }
}
