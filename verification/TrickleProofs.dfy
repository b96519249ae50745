/**
 Over every interleaving of callbacks and the signaling thread, trickle ICE loses and
 duplicates nothing, and no candidate crosses before the descriptions are exchanged.
 */
module TrickleProofs {
  import opened Basics
  import opened TrickleIce

  // ----- one direction

  /** Everything that arrived is queued, under way or delivered. */
  ghost predicate Conserved<M(!new)>(l: Lane<M>) {
    multiset(l.arrived) == multiset(l.queue) + l.live + multiset(l.hand) + multiset(l.delivered)
  }

  /** What was buffered is flushed in the order it came. */
  ghost predicate InOrder<M(!new)>(l: Lane<M>) {
    l.buffered == l.flushed + l.hand + l.queue && |l.hand| <= 1
  }

  ghost predicate LaneInv<M(!new)>(l: Lane<M>) {
    && Conserved(l) && InOrder(l)
    && (!l.enabled ==> l.live == multiset{} && l.hand == [] && l.delivered == [])
  }

  lemma OneMore<M>(s: seq<M>, m: M)
    ensures multiset(s + [m]) == multiset(s) + multiset{m}
  {
  }

  lemma ArriveKeeps<M(!new)>(l: Lane<M>, m: M)
    requires LaneInv(l)
    ensures LaneInv(Arrive(l, m))
  {
    OneMore(l.arrived, m);
    OneMore(l.queue, m);
  }

  lemma LandLiveKeeps<M(!new)>(l: Lane<M>, m: M)
    requires LaneInv(l) && m in l.live
    ensures LaneInv(LandLive(l, m))
  {
    OneMore(l.delivered, m);
  }

  lemma PopKeeps<M(!new)>(l: Lane<M>)
    requires LaneInv(l) && l.enabled && l.queue != [] && l.hand == []
    ensures LaneInv(Pop(l))
  {
    assert l.queue == [l.queue[0]] + l.queue[1..];
  }

  lemma LandHandKeeps<M(!new)>(l: Lane<M>)
    requires LaneInv(l) && l.enabled
    ensures LaneInv(LandHand(l))
  {
  }

  lemma EnableKeeps<M(!new)>(l: Lane<M>)
    requires LaneInv(l)
    ensures LaneInv(l.(enabled := true))
  {
  }

  // ----- the log

  function SentIn(log: seq<Event>): seq<string> {
    if log == [] then []
    else SentIn(log[..|log| - 1]) + if log[|log| - 1].Sent? then [log[|log| - 1].candidate] else []
  }

  function FedIn(log: seq<Event>): seq<Message> {
    if log == [] then []
    else FedIn(log[..|log| - 1]) + if log[|log| - 1].Fed? then [log[|log| - 1].message] else []
  }

  ghost predicate LocalPosted(log: seq<Event>) {
    exists i :: 0 <= i < |log| && log[i].LocalSdpSent?
  }

  ghost predicate RemoteSet(log: seq<Event>) {
    exists i :: 0 <= i < |log| && log[i].RemoteSdpSet?
  }

  predicate Crosses(e: Event) {
    e.Sent? || e.Fed?
  }

  /** Every candidate that crosses comes after both descriptions. */
  ghost predicate Ordered(log: seq<Event>) {
    forall k :: 0 <= k < |log| && Crosses(log[k]) ==> LocalPosted(log[..k]) && RemoteSet(log[..k])
  }

  lemma LogOneMore(log: seq<Event>, e: Event)
    ensures SentIn(log + [e]) == SentIn(log) + if e.Sent? then [e.candidate] else []
    ensures FedIn(log + [e]) == FedIn(log) + if e.Fed? then [e.message] else []
    ensures LocalPosted(log + [e]) <==> LocalPosted(log) || e.LocalSdpSent?
    ensures RemoteSet(log + [e]) <==> RemoteSet(log) || e.RemoteSdpSet?
  {
    var more := log + [e];
    assert more[..|log|] == log;
    assert more[|log|] == e;
    assert forall i :: 0 <= i < |log| ==> more[i] == log[i];
  }

  lemma OrderedOneMore(log: seq<Event>, e: Event)
    requires Ordered(log)
    requires Crosses(e) ==> LocalPosted(log) && RemoteSet(log)
    ensures Ordered(log + [e])
  {
    var more := log + [e];
    forall k | 0 <= k < |more| && Crosses(more[k])
      ensures LocalPosted(more[..k]) && RemoteSet(more[..k])
    {
      assert more[..k] == log[..k];
      assert k == |log| ==> log[..k] == log;
    }
  }

  // ----- the phases

  predicate Trickles(p: Phase) {
    p.FlushLocal? || p.FlushRemote? || p.Streaming? || p.Severed?
  }

  /** The phases in which the local description has been posted, or the remote one set. */
  predicate PastLocal(s: State) {
    s.phase.Enable? || Trickles(s.phase) || (!s.answerer && (s.phase.AwaitRemote? || s.phase.SetRemote?))
  }

  predicate PastRemote(s: State) {
    s.phase.Enable? || Trickles(s.phase) || (s.answerer && (s.phase.AwaitLocal? || s.phase.PostLocal?))
  }

  ghost predicate PhaseInv(s: State) {
    && s.local.enabled == s.remote.enabled == Trickles(s.phase)
    && (s.phase.RequestOffer? ==> s.answerer)
    && (PastLocal(s) ==> LocalPosted(s.log))
    && (PastRemote(s) ==> RemoteSet(s.log))
  }

  ghost predicate FlushInv(s: State) {
    && (s.local.hand != [] ==> s.phase.FlushLocal?)
    && (s.remote.hand != [] ==> s.phase.FlushRemote?)
    && (s.phase.FlushRemote? || s.phase.Streaming? || s.phase.Severed? ==> s.local.queue == [])
    && (s.phase.Streaming? || s.phase.Severed? ==> s.remote.queue == [])
  }

  ghost predicate LogInv(s: State) {
    SentIn(s.log) == s.local.delivered && FedIn(s.log) == s.remote.delivered && Ordered(s.log)
  }

  ghost predicate Inv(s: State) {
    LaneInv(s.local) && LaneInv(s.remote) && PhaseInv(s) && FlushInv(s) && LogInv(s)
  }

  lemma FlushLocalKeeps(s: State)
    requires Inv(s) && s.phase.FlushLocal?
    ensures Inv(FlushLocalStep(s))
  {
    if |s.local.hand| == 1 {
      var c := s.local.hand[0];
      assert s.local.hand == [c];
      LandHandKeeps(s.local);
      LogOneMore(s.log, Sent(c));
      OrderedOneMore(s.log, Sent(c));
    } else if s.local.queue != [] {
      PopKeeps(s.local);
    }
  }

  lemma FlushRemoteKeeps(s: State)
    requires Inv(s) && s.phase.FlushRemote?
    ensures Inv(FlushRemoteStep(s))
  {
    if |s.remote.hand| == 1 {
      var m := s.remote.hand[0];
      assert s.remote.hand == [m];
      LandHandKeeps(s.remote);
      LogOneMore(s.log, Fed(m));
      OrderedOneMore(s.log, Fed(m));
    } else if s.remote.queue != [] {
      PopKeeps(s.remote);
    }
  }

  lemma SaidKeeps(s: State, e: Event)
    requires LogInv(s) && !Crosses(e)
    ensures LogInv(s.(log := s.log + [e]))
  {
    LogOneMore(s.log, e);
    OrderedOneMore(s.log, e);
  }

  lemma SignalSays(s: State, ok: bool)
    ensures var es := SignalEvents(s, ok);
            && (es == [] || (es == [es[0]] && !Crosses(es[0])))
            && ((es != [] && es[0].LocalSdpSent?) <==> (ok && s.phase.PostLocal? && s.localSdp.Some?))
            && ((es != [] && es[0].RemoteSdpSet?) <==> (ok && s.phase.SetRemote? && s.remoteSdp.Some?))
  {
  }

  lemma SaidAdds(s: State, es: seq<Event>)
    requires LogInv(s) && (es == [] || (es == [es[0]] && !Crosses(es[0])))
    ensures LogInv(s.(log := s.log + es))
    ensures LocalPosted(s.log + es) <==> LocalPosted(s.log) || (es != [] && es[0].LocalSdpSent?)
    ensures RemoteSet(s.log + es) <==> RemoteSet(s.log) || (es != [] && es[0].RemoteSdpSet?)
  {
    if es == [] {
      assert s.log + es == s.log;
      assert s.(log := s.log + es) == s;
    } else {
      SaidKeeps(s, es[0]);
      LogOneMore(s.log, es[0]);
    }
  }

  lemma SignalLogs(s: State, ok: bool)
    requires LogInv(s)
    ensures LogInv(s.(log := s.log + SignalEvents(s, ok)))
    ensures LocalPosted(s.log + SignalEvents(s, ok)) <==>
            LocalPosted(s.log) || (ok && s.phase.PostLocal? && s.localSdp.Some?)
    ensures RemoteSet(s.log + SignalEvents(s, ok)) <==>
            RemoteSet(s.log) || (ok && s.phase.SetRemote? && s.remoteSdp.Some?)
  {
    SignalSays(s, ok);
    SaidAdds(s, SignalEvents(s, ok));
  }

  lemma SignalPhases(s: State, ok: bool)
    requires PhaseInv(s) && FlushInv(s) && Signals(s.phase)
    requires var log := SignalStep(s, ok).log;
             && (LocalPosted(log) <==> LocalPosted(s.log) || (ok && s.phase.PostLocal? && s.localSdp.Some?))
             && (RemoteSet(log) <==> RemoteSet(s.log) || (ok && s.phase.SetRemote? && s.remoteSdp.Some?))
    ensures PhaseInv(SignalStep(s, ok)) && FlushInv(SignalStep(s, ok))
  {
  }

  lemma SignalKeeps(s: State, ok: bool)
    requires Inv(s) && Signals(s.phase)
    ensures Inv(SignalStep(s, ok))
  {
    SignalLogs(s, ok);
    SignalPhases(s, ok);
  }

  lemma TricklingKeeps(s: State)
    requires Inv(s) && s.phase.Enable?
    ensures Inv(Trickling(s))
  {
    EnableKeeps(s.local);
    EnableKeeps(s.remote);
  }

  lemma SeverKeeps(s: State)
    requires Inv(s) && s.phase.Streaming?
    ensures Inv(s.(phase := Severed))
  {
  }

  lemma MainKeeps(s: State, ok: bool)
    requires Inv(s)
    ensures Inv(MainStep(s, ok))
  {
    if Signals(s.phase) {
      SignalKeeps(s, ok);
    } else if s.phase.Enable? {
      TricklingKeeps(s);
    } else if s.phase.FlushLocal? {
      FlushLocalKeeps(s);
    } else if s.phase.FlushRemote? {
      FlushRemoteKeeps(s);
    } else if s.phase.Streaming? {
      SeverKeeps(s);
    }
  }

  lemma SentLiveKeeps(s: State, c: string)
    requires Inv(s) && c in s.local.live
    ensures Inv(SentLive(s, c))
  {
    LandLiveKeeps(s.local, c);
    LogOneMore(s.log, Sent(c));
    OrderedOneMore(s.log, Sent(c));
  }

  lemma FedLiveKeeps(s: State, m: Message)
    requires Inv(s) && m in s.remote.live
    ensures Inv(FedLive(s, m))
  {
    LandLiveKeeps(s.remote, m);
    LogOneMore(s.log, Fed(m));
    OrderedOneMore(s.log, Fed(m));
  }

  lemma StepKeeps(s: State, a: Action)
    requires Inv(s) && Enabled(s, a)
    ensures Inv(Step(s, a))
  {
    match a
    case OfferReady(_) =>
    case AnswerArrives(_) =>
    case Ends =>
    case LocalArrives(c) => ArriveKeeps(s.local, c);
    case RemoteArrives(m) => ArriveKeeps(s.remote, m);
    case LocalLands(c) => SentLiveKeeps(s, c);
    case RemoteLands(m) => FedLiveKeeps(s, m);
    case Main(ok) => MainKeeps(s, ok);
  }

  lemma {:induction false} RunKeeps(answerer: bool, run: seq<Action>)
    ensures Inv(Run(Initial(answerer), run))
  {
    if run != [] {
      var n := |run| - 1;
      RunKeeps(answerer, run[..n]);
      var s := Run(Initial(answerer), run[..n]);
      if !s.phase.Severed? && Enabled(s, run[n]) {
        StepKeeps(s, run[n]);
      }
    }
  }

  // ----- what arrived, read off the run

  function LocalArrivals(run: seq<Action>): seq<string> {
    if run == [] then []
    else LocalArrivals(run[..|run| - 1]) + if run[|run| - 1].LocalArrives? then [run[|run| - 1].cand] else []
  }

  function RemoteArrivals(run: seq<Action>): seq<Message> {
    if run == [] then []
    else RemoteArrivals(run[..|run| - 1]) + if run[|run| - 1].RemoteArrives? then [run[|run| - 1].msg] else []
  }

  lemma MainArrivals(s: State, ok: bool)
    ensures MainStep(s, ok).local.arrived == s.local.arrived && MainStep(s, ok).remote.arrived == s.remote.arrived
  {
  }

  lemma StepArrivals(s: State, a: Action)
    ensures Step(s, a).local.arrived == s.local.arrived + if a.LocalArrives? then [a.cand] else []
    ensures Step(s, a).remote.arrived == s.remote.arrived + if a.RemoteArrives? then [a.msg] else []
  {
    if a.Main? {
      MainArrivals(s, a.ok);
    }
  }

  lemma {:induction false} ArrivedIsTheRun(answerer: bool, run: seq<Action>)
    requires !Run(Initial(answerer), run).phase.Severed?
    ensures Run(Initial(answerer), run).local.arrived == LocalArrivals(run)
    ensures Run(Initial(answerer), run).remote.arrived == RemoteArrivals(run)
  {
    if run != [] {
      var n := |run| - 1;
      var s := Run(Initial(answerer), run[..n]);
      assert !s.phase.Severed?;
      ArrivedIsTheRun(answerer, run[..n]);
      StepArrivals(s, run[n]);
    }
  }

  // ----- main results

  /** At every step up to teardown the candidates that callbacks have brought are, as a
      multiset, those queued, in flight and passed on, in both directions. */
  lemma NothingLostOrDuplicated(answerer: bool, run: seq<Action>)
    requires !Run(Initial(answerer), run).phase.Severed?
    ensures var s := Run(Initial(answerer), run);
            && multiset(LocalArrivals(run)) ==
               multiset(s.local.queue) + s.local.live + multiset(s.local.hand) + multiset(SentIn(s.log))
            && multiset(RemoteArrivals(run)) ==
               multiset(s.remote.queue) + s.remote.live + multiset(s.remote.hand) + multiset(FedIn(s.log))
  {
    RunKeeps(answerer, run);
    ArrivedIsTheRun(answerer, run);
  }

  /** Once a direction is switched on and flushed its queue is empty, and stays so whatever runs
      on. */
  lemma FlushedStaysEmpty(answerer: bool, run: seq<Action>)
    ensures var s := Run(Initial(answerer), run);
            && (s.phase.FlushRemote? || s.phase.Streaming? || s.phase.Severed? ==>
                s.local.enabled && s.local.queue == [] && s.local.hand == [])
            && (s.phase.Streaming? || s.phase.Severed? ==>
                s.remote.enabled && s.remote.queue == [] && s.remote.hand == [])
  {
    RunKeeps(answerer, run);
  }

  /** No candidate is sent or fed before the local description was posted and the remote one
      set, whichever side offers. */
  lemma NoneBeforeDescriptions(answerer: bool, run: seq<Action>, k: nat)
    requires k < |Run(Initial(answerer), run).log|
    requires Crosses(Run(Initial(answerer), run).log[k])
    ensures exists i :: 0 <= i < k && Run(Initial(answerer), run).log[i].LocalSdpSent?
    ensures exists i :: 0 <= i < k && Run(Initial(answerer), run).log[i].RemoteSdpSet?
  {
    RunKeeps(answerer, run);
    var log := Run(Initial(answerer), run).log;
    var before := log[..k];
    assert LocalPosted(before) && RemoteSet(before);
    var i :| 0 <= i < |before| && before[i].LocalSdpSent?;
    var j :| 0 <= j < |before| && before[j].RemoteSdpSet?;
    assert log[i].LocalSdpSent? && log[j].RemoteSdpSet?;
  }

  /** Candidates that were buffered are passed on in the order they came, whatever overtakes
      them live. */
  lemma BufferedKeepOrder(answerer: bool, run: seq<Action>)
    ensures var s := Run(Initial(answerer), run);
            && s.local.flushed <= s.local.buffered && s.remote.flushed <= s.remote.buffered
            && (s.phase.Streaming? ==> s.local.flushed == s.local.buffered && s.remote.flushed == s.remote.buffered)
  {
    RunKeeps(answerer, run);
  }

  // ----- the candidates inside the messages

  lemma Without<T>(s: seq<T>, i: nat)
    requires i < |s|
    ensures multiset(s) == multiset(s[..i] + s[i + 1..]) + multiset{s[i]}
  {
    assert s == s[..i] + [s[i]] + s[i + 1..];
  }

  lemma SameRest<T>(a: multiset<T>, b: multiset<T>, x: T)
    requires a + multiset{x} == b + multiset{x}
    ensures a == b
  {
    assert a == a + multiset{x} - multiset{x};
    assert b == b + multiset{x} - multiset{x};
  }

  /** The union of what each element of a sequence gives. */
  function Gather<M, T>(ms: seq<M>, f: M -> multiset<T>): multiset<T> {
    if ms == [] then multiset{} else Gather(ms[..|ms| - 1], f) + f(ms[|ms| - 1])
  }

  lemma {:induction false} GatherConcat<M, T>(a: seq<M>, b: seq<M>, f: M -> multiset<T>)
    ensures Gather(a + b, f) == Gather(a, f) + Gather(b, f)
  {
    if b == [] {
      assert a + b == a;
    } else {
      var n, ab := |b| - 1, a + b;
      assert ab[..|ab| - 1] == a + b[..n] && ab[|ab| - 1] == b[n];
      GatherConcat(a, b[..n], f);
    }
  }

  lemma GatherOneMore<M, T>(ms: seq<M>, i: nat, f: M -> multiset<T>)
    requires i < |ms|
    ensures Gather(ms[..i + 1], f) == Gather(ms[..i], f) + f(ms[i])
  {
    assert ms[..i + 1][..i] == ms[..i];
  }

  lemma Swap<T>(x: multiset<T>, y: multiset<T>, z: multiset<T>)
    ensures x + y + z == x + z + y
  {
  }

  lemma GatherSplit<M, T>(ms: seq<M>, i: nat, f: M -> multiset<T>)
    requires i < |ms|
    ensures Gather(ms, f) == Gather(ms[..i] + ms[i + 1..], f) + f(ms[i])
  {
    var l, r := ms[..i], ms[i + 1..];
    var x, y, z := Gather(l, f), f(ms[i]), Gather(r, f);
    assert Gather(ms, f) == Gather(ms[..i + 1], f) + z by {
      GatherConcat(ms[..i + 1], r, f);
      assert ms[..i + 1] + r == ms;
    }
    assert Gather(ms[..i + 1], f) == x + y by {
      GatherOneMore(ms, i, f);
    }
    assert Gather(l + r, f) == x + z by {
      GatherConcat(l, r, f);
    }
    Swap(x, y, z);
  }

  /** It depends on the sequence only as a multiset. */
  lemma {:induction false} GatherPermute<M, T>(a: seq<M>, b: seq<M>, f: M -> multiset<T>)
    requires multiset(a) == multiset(b)
    ensures Gather(a, f) == Gather(b, f)
    decreases |a|
  {
    if a == [] {
      assert |b| == |multiset(b)| == |multiset(a)| == 0;
    } else {
      var n := |a| - 1;
      assert a[n] in multiset(b);
      var i :| 0 <= i < |b| && b[i] == a[n];
      Without(b, i);
      Without(a, n);
      assert a[..n] + a[n + 1..] == a[..n];
      SameRest(multiset(a[..n]), multiset(b[..i] + b[i + 1..]), a[n]);
      GatherPermute(a[..n], b[..i] + b[i + 1..], f);
      GatherSplit(b, i, f);
    }
  }

  lemma {:induction false} CandidatesGathered(ms: seq<Message>)
    ensures multiset(CandidatesOf(ms)) == Gather(ms, m => multiset(Candidates(m)))
  {
    if ms != [] {
      CandidatesGathered(ms[..|ms| - 1]);
    }
  }

  /** What is fed depends on the messages only as a multiset. */
  lemma CandidatesPermute(a: seq<Message>, b: seq<Message>)
    requires multiset(a) == multiset(b)
    ensures multiset(CandidatesOf(a)) == multiset(CandidatesOf(b))
  {
    CandidatesGathered(a);
    CandidatesGathered(b);
    GatherPermute(a, b, m => multiset(Candidates(m)));
  }

  /** While streaming, with no callback under way, the camera has been sent every local
      candidate and the client fed every candidate of every message, each exactly once. */
  lemma StreamingHasDeliveredAll(answerer: bool, run: seq<Action>)
    requires var s := Run(Initial(answerer), run);
             s.phase.Streaming? && s.local.live == multiset{} && s.remote.live == multiset{}
    ensures var s := Run(Initial(answerer), run);
            && multiset(SentIn(s.log)) == multiset(LocalArrivals(run))
            && multiset(CandidatesOf(FedIn(s.log))) == multiset(CandidatesOf(RemoteArrivals(run)))
  {
    NothingLostOrDuplicated(answerer, run);
    FlushedStaysEmpty(answerer, run);
    CandidatesPermute(FedIn(Run(Initial(answerer), run).log), RemoteArrivals(run));
  }

  // ----- the flush loops and their steps under the lock

  /** n flush steps of the signaling thread. */
  function LocalFlushRun(s: State, n: nat): State {
    if n == 0 then s else FlushLocalStep(LocalFlushRun(s, n - 1))
  }

  function RemoteFlushRun(s: State, n: nat): State {
    if n == 0 then s else FlushRemoteStep(RemoteFlushRun(s, n - 1))
  }

  function PartlySent(s: State, k: nat): State
    requires k <= |s.local.queue|
  {
    s.(local := Drained(s.local, k), log := s.log + Sents(s.local.queue[..k]))
  }

  function PartlyFed(s: State, k: nat): State
    requires k <= |s.remote.queue|
  {
    s.(remote := Drained(s.remote, k), log := s.log + Feds(s.remote.queue[..k]))
  }

  lemma PopAndSend(s: State, k: nat)
    requires s.local.hand == [] && k < |s.local.queue|
    ensures FlushLocalStep(FlushLocalStep(PartlySent(s, k))) == PartlySent(s, k + 1)
  {
    DrainOneMore(s.local, k);
    SentsOneMore(s.local.queue, k);
  }

  lemma PopAndFeed(s: State, k: nat)
    requires s.remote.hand == [] && k < |s.remote.queue|
    ensures FlushRemoteStep(FlushRemoteStep(PartlyFed(s, k))) == PartlyFed(s, k + 1)
  {
    DrainOneMore(s.remote, k);
    FedsOneMore(s.remote.queue, k);
  }

  lemma {:induction false} LocalFlushDrains(s: State, k: nat)
    requires s.local.hand == [] && k <= |s.local.queue|
    ensures LocalFlushRun(s, 2 * k) == PartlySent(s, k)
  {
    if k > 0 {
      LocalFlushDrains(s, k - 1);
      PopAndSend(s, k - 1);
      assert LocalFlushRun(s, 2 * k - 1) == FlushLocalStep(LocalFlushRun(s, 2 * k - 2));
    }
  }

  lemma {:induction false} RemoteFlushDrains(s: State, k: nat)
    requires s.remote.hand == [] && k <= |s.remote.queue|
    ensures RemoteFlushRun(s, 2 * k) == PartlyFed(s, k)
  {
    if k > 0 {
      RemoteFlushDrains(s, k - 1);
      PopAndFeed(s, k - 1);
      assert RemoteFlushRun(s, 2 * k - 1) == FlushRemoteStep(RemoteFlushRun(s, 2 * k - 2));
    }
  }

  /** Flushing step by step under the lock comes to the same as the whole loop, in both
      directions. */
  lemma FlushStepsAreTheLoop(s: State)
    ensures s.local.hand == [] ==> LocalFlushRun(s, 2 * |s.local.queue| + 1) == LocalFlushed(s)
    ensures s.remote.hand == [] ==> RemoteFlushRun(s, 2 * |s.remote.queue| + 1) == RemoteFlushed(s)
  {
    if s.local.hand == [] {
      LocalFlushDrains(s, |s.local.queue|);
      assert s.local.queue[..|s.local.queue|] == s.local.queue;
    }
    if s.remote.hand == [] {
      RemoteFlushDrains(s, |s.remote.queue|);
      assert s.remote.queue[..|s.remote.queue|] == s.remote.queue;
    }
  }
}
