/**
 The order in which one direction of trickle ICE passes candidates on. Live ones can overtake
 buffered ones and one another; this says exactly when the order of arrival is kept.
 */
module TrickleOrder {
  import opened Basics
  import opened TrickleIce
  import opened TrickleProofs

  /** Passed on in the order of arrival, so far. */
  predicate InTurn<M(==)>(l: Lane<M>) {
    l.delivered <= l.arrived
  }

  /** What is passed on, if anything, is the earliest that has not been. */
  predicate Due<M(==)>(l: Lane<M>, passed: seq<M>) {
    passed == [] || (|l.delivered| < |l.arrived| && passed == [l.arrived[|l.delivered|]])
  }

  /** What a step sends to the camera. */
  function SentBy(s: State, a: Action): seq<string> {
    if s.phase.Severed? then []
    else if a.LocalLands? && Enabled(s, a) then [a.landedCand]
    else if a.Main? && s.phase.FlushLocal? && |s.local.hand| == 1 then s.local.hand
    else []
  }

  /** The messages a step feeds to the client. */
  function FedBy(s: State, a: Action): seq<Message> {
    if s.phase.Severed? then []
    else if a.RemoteLands? && Enabled(s, a) then [a.landedMsg]
    else if a.Main? && s.phase.FlushRemote? && |s.remote.hand| == 1 then s.remote.hand
    else []
  }

  // ----- exactly when the order is kept

  /** One step of a direction, seen from outside. */
  predicate Moves<M(==)>(l: Lane<M>, t: Lane<M>, passed: seq<M>) {
    && t.delivered == l.delivered + passed && l.arrived <= t.arrived
    && (passed != [] ==> |passed| == 1 && t.arrived == l.arrived)
  }

  lemma InTurnIff<M>(l: Lane<M>, t: Lane<M>, passed: seq<M>)
    requires InTurn(l) && Moves(l, t, passed)
    ensures InTurn(t) <==> Due(l, passed)
  {
    if passed != [] {
      var n := |l.delivered|;
      assert t.delivered[n] == passed[0];
      if Due(l, passed) {
        assert t.arrived[..n + 1] == l.delivered + [l.arrived[n]];
      }
    }
  }

  lemma LocalFlushMoves(s: State)
    ensures Moves(s.local, FlushLocalStep(s).local, if |s.local.hand| == 1 then s.local.hand else [])
    ensures FlushLocalStep(s).remote == s.remote
  {
  }

  lemma RemoteFlushMoves(s: State)
    ensures Moves(s.remote, FlushRemoteStep(s).remote, if |s.remote.hand| == 1 then s.remote.hand else [])
    ensures FlushRemoteStep(s).local == s.local
  {
  }

  lemma MainMoves(s: State, ok: bool)
    requires !s.phase.Severed?
    ensures Moves(s.local, MainStep(s, ok).local, SentBy(s, Main(ok)))
    ensures Moves(s.remote, MainStep(s, ok).remote, FedBy(s, Main(ok)))
  {
    if s.phase.FlushLocal? {
      LocalFlushMoves(s);
    } else if s.phase.FlushRemote? {
      RemoteFlushMoves(s);
    } else if !s.phase.Enable? {
      OtherwiseSame(s, ok);
    }
  }

  lemma CallbackMoves(s: State, a: Action)
    requires !a.Main?
    ensures Moves(s.local, Next(s, a).local, SentBy(s, a))
    ensures Moves(s.remote, Next(s, a).remote, FedBy(s, a))
  {
  }

  lemma NextMoves(s: State, a: Action)
    ensures Moves(s.local, Next(s, a).local, SentBy(s, a))
    ensures Moves(s.remote, Next(s, a).remote, FedBy(s, a))
  {
    if !a.Main? {
      CallbackMoves(s, a);
    } else if !s.phase.Severed? {
      MainMoves(s, a.ok);
    }
  }

  function StateAt(s: State, run: seq<Action>, k: nat): State
    requires k <= |run|
  {
    Run(s, run[..k])
  }

  lemma StateNext(s: State, run: seq<Action>, k: nat)
    requires k < |run|
    ensures StateAt(s, run, k + 1) == Next(StateAt(s, run, k), run[k])
  {
    assert run[..k + 1][..k] == run[..k];
  }

  predicate LocalInTurnAt(s: State, run: seq<Action>, k: nat)
    requires k <= |run|
  {
    InTurn(StateAt(s, run, k).local)
  }

  predicate LocalDueAt(s: State, run: seq<Action>, k: nat)
    requires k < |run|
  {
    Due(StateAt(s, run, k).local, SentBy(StateAt(s, run, k), run[k]))
  }

  predicate RemoteInTurnAt(s: State, run: seq<Action>, k: nat)
    requires k <= |run|
  {
    InTurn(StateAt(s, run, k).remote)
  }

  predicate RemoteDueAt(s: State, run: seq<Action>, k: nat)
    requires k < |run|
  {
    Due(StateAt(s, run, k).remote, FedBy(StateAt(s, run, k), run[k]))
  }

  /** Local candidates are sent in the order they were gathered, along a run, if and only if each
      one sent, live or from the buffer, is the earliest not yet sent. */
  lemma SendOrderKeptIff(answerer: bool, run: seq<Action>)
    ensures var s := Initial(answerer);
            (forall k :: 0 <= k <= |run| ==> LocalInTurnAt(s, run, k)) <==>
            (forall k :: 0 <= k < |run| ==> LocalDueAt(s, run, k))
  {
    var s, n := Initial(answerer), |run|;
    var p := seq(n + 1, k requires 0 <= k <= n => LocalInTurnAt(s, run, k));
    var q := seq(n, k requires 0 <= k < n => LocalDueAt(s, run, k));
    assert StateAt(s, run, 0) == s;
    forall k | 0 <= k < n && p[k]
      ensures p[k + 1] <==> q[k]
    {
      var t := StateAt(s, run, k);
      StateNext(s, run, k);
      NextMoves(t, run[k]);
      InTurnIff(t.local, Next(t, run[k]).local, SentBy(t, run[k]));
    }
    FirstBreak(p, q);
    assert forall k :: 0 <= k <= n ==> p[k] == LocalInTurnAt(s, run, k);
    assert forall k :: 0 <= k < n ==> q[k] == LocalDueAt(s, run, k);
  }

  /** The same for the camera's messages. */
  lemma FeedOrderKeptIff(answerer: bool, run: seq<Action>)
    ensures var s := Initial(answerer);
            (forall k :: 0 <= k <= |run| ==> RemoteInTurnAt(s, run, k)) <==>
            (forall k :: 0 <= k < |run| ==> RemoteDueAt(s, run, k))
  {
    var s, n := Initial(answerer), |run|;
    var p := seq(n + 1, k requires 0 <= k <= n => RemoteInTurnAt(s, run, k));
    var q := seq(n, k requires 0 <= k < n => RemoteDueAt(s, run, k));
    assert StateAt(s, run, 0) == s;
    forall k | 0 <= k < n && p[k]
      ensures p[k + 1] <==> q[k]
    {
      var t := StateAt(s, run, k);
      StateNext(s, run, k);
      NextMoves(t, run[k]);
      InTurnIff(t.remote, Next(t, run[k]).remote, FedBy(t, run[k]));
    }
    FirstBreak(p, q);
    assert forall k :: 0 <= k <= n ==> p[k] == RemoteInTurnAt(s, run, k);
    assert forall k :: 0 <= k < n ==> q[k] == RemoteDueAt(s, run, k);
  }

  // ----- patient callbacks

  /** A live candidate lands only after the flush and only when it is the earliest left. */
  predicate Patient<M(==)>(l: Lane<M>, m: M) {
    l.queue == [] && l.hand == [] && Due(l, [m])
  }

  predicate PatientStep(s: State, a: Action) {
    && (a.LocalLands? ==> Patient(s.local, a.landedCand))
    && (a.RemoteLands? ==> Patient(s.remote, a.landedMsg))
  }

  /** Until the flush is over only the flush has passed anything on, and what it has left is what
      arrived next. */
  predicate Orderly<M(==)>(l: Lane<M>) {
    && InTurn(l) && l.buffered <= l.arrived && (!l.enabled ==> l.buffered == l.arrived)
    && (l.queue != [] || l.hand != [] || !l.enabled ==> l.delivered == l.flushed)
  }

  lemma ArriveOrderly<M(!new)>(l: Lane<M>, m: M)
    requires LaneInv(l) && Orderly(l)
    ensures Orderly(Arrive(l, m))
  {
  }

  lemma LandLiveOrderly<M(!new)>(l: Lane<M>, m: M)
    requires LaneInv(l) && Orderly(l) && l.enabled && Patient(l, m)
    ensures Orderly(LandLive(l, m))
  {
    InTurnIff(l, LandLive(l, m), [m]);
  }

  lemma PopOrderly<M(!new)>(l: Lane<M>)
    requires LaneInv(l) && Orderly(l) && l.enabled && l.queue != []
    ensures Orderly(Pop(l))
  {
  }

  lemma LandHandOrderly<M(!new)>(l: Lane<M>)
    requires LaneInv(l) && Orderly(l) && l.enabled && |l.hand| == 1
    ensures Orderly(LandHand(l))
  {
    var n := |l.delivered|;
    assert l.buffered[n] == l.hand[0];
    assert l.arrived[n] == l.buffered[n];
    assert l.hand == [l.arrived[n]];
    InTurnIff(l, LandHand(l), l.hand);
  }

  predicate BothOrderly(s: State) {
    Orderly(s.local) && Orderly(s.remote)
  }

  lemma FlushLocalOrderly(s: State)
    requires LaneInv(s.local) && BothOrderly(s) && s.local.enabled
    ensures BothOrderly(FlushLocalStep(s))
  {
    if |s.local.hand| == 1 {
      LandHandOrderly(s.local);
    } else if s.local.queue != [] {
      PopOrderly(s.local);
    }
  }

  lemma FlushRemoteOrderly(s: State)
    requires LaneInv(s.remote) && BothOrderly(s) && s.remote.enabled
    ensures BothOrderly(FlushRemoteStep(s))
  {
    if |s.remote.hand| == 1 {
      LandHandOrderly(s.remote);
    } else if s.remote.queue != [] {
      PopOrderly(s.remote);
    }
  }

  lemma EnableOrderly<M(!new)>(l: Lane<M>)
    requires Orderly(l)
    ensures Orderly(l.(enabled := true))
  {
  }

  /** What the order needs of the invariant. */
  ghost predicate Lanes(s: State) {
    && LaneInv(s.local) && LaneInv(s.remote)
    && s.local.enabled == s.remote.enabled == Trickles(s.phase)
  }

  lemma OtherwiseSame(s: State, ok: bool)
    requires !s.phase.FlushLocal? && !s.phase.FlushRemote? && !s.phase.Enable?
    ensures MainStep(s, ok).local == s.local && MainStep(s, ok).remote == s.remote
  {
  }

  lemma MainOrderly(s: State, ok: bool)
    requires Lanes(s) && BothOrderly(s)
    ensures BothOrderly(MainStep(s, ok))
  {
    if s.phase.FlushLocal? {
      FlushLocalOrderly(s);
    } else if s.phase.FlushRemote? {
      FlushRemoteOrderly(s);
    } else if s.phase.Enable? {
      EnableOrderly(s.local);
      EnableOrderly(s.remote);
    } else {
      OtherwiseSame(s, ok);
    }
  }

  /** A step on one direction leaves the other as it was. */
  lemma LocalOrderly(s: State, l: Lane<string>, log: seq<Event>)
    requires Orderly(s.remote) && Orderly(l)
    ensures BothOrderly(s.(local := l, log := log))
  {
  }

  lemma RemoteOrderly(s: State, l: Lane<Message>, log: seq<Event>)
    requires Orderly(s.local) && Orderly(l)
    ensures BothOrderly(s.(remote := l, log := log))
  {
  }

  lemma LocalCallbackOrderly(s: State, a: Action)
    requires Lanes(s) && BothOrderly(s) && PatientStep(s, a) && Enabled(s, a) && (a.LocalArrives? || a.LocalLands?)
    ensures BothOrderly(Step(s, a))
  {
    if a.LocalArrives? {
      ArriveOrderly(s.local, a.cand);
      LocalOrderly(s, Arrive(s.local, a.cand), s.log);
    } else {
      LandLiveOrderly(s.local, a.landedCand);
      LocalOrderly(s, LandLive(s.local, a.landedCand), s.log + [Sent(a.landedCand)]);
    }
  }

  lemma RemoteCallbackOrderly(s: State, a: Action)
    requires Lanes(s) && BothOrderly(s) && PatientStep(s, a) && Enabled(s, a) && (a.RemoteArrives? || a.RemoteLands?)
    ensures BothOrderly(Step(s, a))
  {
    if a.RemoteArrives? {
      ArriveOrderly(s.remote, a.msg);
      RemoteOrderly(s, Arrive(s.remote, a.msg), s.log);
    } else {
      LandLiveOrderly(s.remote, a.landedMsg);
      RemoteOrderly(s, LandLive(s.remote, a.landedMsg), s.log + [Fed(a.landedMsg)]);
    }
  }

  lemma NextOrderly(s: State, a: Action)
    requires Lanes(s) && BothOrderly(s) && PatientStep(s, a)
    ensures BothOrderly(Next(s, a))
  {
    if !s.phase.Severed? && Enabled(s, a) {
      if a.LocalArrives? || a.LocalLands? {
        LocalCallbackOrderly(s, a);
      } else if a.RemoteArrives? || a.RemoteLands? {
        RemoteCallbackOrderly(s, a);
      } else if a.Main? {
        MainOrderly(s, a.ok);
      }
    }
  }

  predicate PatientAt(s: State, run: seq<Action>, k: nat)
    requires k < |run|
  {
    PatientStep(StateAt(s, run, k), run[k])
  }

  /** If live candidates wait for the flush to end and for the live ones before them, both
      directions keep the order of arrival throughout; the flush itself never breaks it. */
  lemma {:induction false} PatientKeepsOrder(answerer: bool, run: seq<Action>, k: nat)
    requires k <= |run| && forall i :: 0 <= i < |run| ==> PatientAt(Initial(answerer), run, i)
    ensures BothOrderly(StateAt(Initial(answerer), run, k))
  {
    if k > 0 {
      var s := Initial(answerer);
      PatientKeepsOrder(answerer, run, k - 1);
      StateNext(s, run, k - 1);
      RunKeeps(answerer, run[..k - 1]);
      assert Lanes(StateAt(s, run, k - 1));
      assert PatientAt(s, run, k - 1);
      NextOrderly(StateAt(s, run, k - 1), run[k - 1]);
    }
  }

  // ----- overtaking

  lemma RunOneMore(s: State, run: seq<Action>, a: Action)
    ensures Run(s, run + [a]) == Next(Run(s, run), a)
  {
    assert (run + [a])[..|run|] == run;
  }

  function Buffered(c: string): Lane<string> {
    NewLane<string>().(queue := [c], arrived := [c], buffered := [c])
  }

  /** One candidate gathered before the offer is posted. */
  lemma PostedWithOne(c: string, offer: string) returns (run: seq<Action>)
    ensures Run(Initial(false), run) ==
            State(false, AwaitRemote, Some(offer), None, false, Buffered(c), NewLane(), [LocalSdpSent(offer)])
  {
    var s, a, b := Initial(false), LocalArrives(c), OfferReady(offer);
    RunOneMore(s, [], a);
    RunOneMore(s, [] + [a], b);
    RunOneMore(s, [] + [a] + [b], Main(true));
    RunOneMore(s, [] + [a] + [b] + [Main(true)], Main(true));
    run := [] + [a] + [b] + [Main(true)] + [Main(true)];
  }

  /** Then the answer comes and both directions are switched on. */
  lemma EnabledWithOne(c: string, offer: string, answer: string) returns (run: seq<Action>)
    ensures var t := Run(Initial(false), run);
            t.phase.FlushLocal? && t.local == Buffered(c).(enabled := true)
  {
    var s, b := Initial(false), AnswerArrives(answer);
    var r := PostedWithOne(c, offer);
    RunOneMore(s, r, b);
    RunOneMore(s, r + [b], Main(true));
    RunOneMore(s, r + [b] + [Main(true)], Main(true));
    RunOneMore(s, r + [b] + [Main(true)] + [Main(true)], Main(true));
    run := r + [b] + [Main(true)] + [Main(true)] + [Main(true)];
  }

  /** A candidate gathered right then is sent before the one that is still queued. */
  lemma LiveOvertakesBuffered(c: string, d: string, offer: string, answer: string) returns (run: seq<Action>)
    requires c != d
    ensures var t := Run(Initial(false), run);
            t.local.arrived == [c, d] && t.local.delivered == [d] && !InTurn(t.local)
  {
    var s := Initial(false);
    var r := EnabledWithOne(c, offer, answer);
    RunOneMore(s, r, LocalArrives(d));
    RunOneMore(s, r + [LocalArrives(d)], LocalLands(d));
    run := r + [LocalArrives(d)] + [LocalLands(d)];
    assert [d][0] != [c, d][0];
  }
}
