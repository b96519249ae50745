/**
 Trickle ICE hand-over (reference/src/cameraCategory.c:134-157, 186-208, 292-363, 568-713):
 candidates are buffered until the signaling is done, then flushed, then passed on live, in
 both directions, while callbacks run on other threads. A critical section is one step.
 */
module TrickleIce {
  import opened Basics

  /** One JSON message of the camera: an array of candidates, or something else. */
  datatype Item = Text(value: string) | Other
  datatype Message = NotAnArray | Items(items: seq<Item>)

  /** One direction. A callback thread that saw the flag set has its candidate in live until it
      is passed on; the flushing thread has the one it popped in hand. */
  datatype Lane<M(==)> = Lane(
    enabled: bool,
    queue: seq<M>,
    live: multiset<M>,
    hand: seq<M>,
    arrived: seq<M>,     // all that callbacks brought, in order
    buffered: seq<M>,    // of these, the ones that were queued
    flushed: seq<M>,     // passed on by the flush, in order
    delivered: seq<M>)   // all that was passed on, in order

  datatype Phase =
    RequestOffer | AwaitRemote | SetRemote | AwaitLocal | PostLocal
    | Enable | FlushLocal | FlushRemote | Streaming | Severed | Aborted

  datatype Event =
    OfferRequested | LocalSdpSent(localSdp: string) | RemoteSdpSet(remoteSdp: string)
    | Sent(candidate: string) | Fed(message: Message)

  datatype State = State(
    answerer: bool,
    phase: Phase,
    localSdp: Option<string>,
    remoteSdp: Option<string>,
    ended: bool,
    local: Lane<string>,
    remote: Lane<Message>,
    log: seq<Event>)

  function NewLane<M>(): Lane<M> {
    Lane(false, [], multiset{}, [], [], [], [], [])
  }

  function Initial(answerer: bool): State {
    State(answerer, if answerer then RequestOffer else AwaitLocal, None, None, false, NewLane(), NewLane(), [])
  }

  // ----- one direction

  function Arrive<M>(l: Lane<M>, m: M): Lane<M> {
    if l.enabled then l.(live := l.live + multiset{m}, arrived := l.arrived + [m])
    else l.(queue := l.queue + [m], arrived := l.arrived + [m], buffered := l.buffered + [m])
  }

  function LandLive<M>(l: Lane<M>, m: M): Lane<M> {
    l.(live := l.live - multiset{m}, delivered := l.delivered + [m])
  }

  function Pop<M>(l: Lane<M>): Lane<M>
    requires l.queue != []
  {
    l.(queue := l.queue[1..], hand := [l.queue[0]])
  }

  function LandHand<M>(l: Lane<M>): Lane<M> {
    l.(hand := [], flushed := l.flushed + l.hand, delivered := l.delivered + l.hand)
  }

  function SentLive(s: State, c: string): State {
    s.(local := LandLive(s.local, c), log := s.log + [Sent(c)])
  }

  function FedLive(s: State, m: Message): State {
    s.(remote := LandLive(s.remote, m), log := s.log + [Fed(m)])
  }

  function Trickling(s: State): State {
    s.(phase := FlushLocal, local := s.local.(enabled := true), remote := s.remote.(enabled := true))
  }

  function FlushLocalStep(s: State): State {
    if |s.local.hand| == 1 then s.(local := LandHand(s.local), log := s.log + [Sent(s.local.hand[0])])
    else if s.local.queue != [] then s.(local := Pop(s.local))
    else s.(phase := FlushRemote)
  }

  function FlushRemoteStep(s: State): State {
    if |s.remote.hand| == 1 then s.(remote := LandHand(s.remote), log := s.log + [Fed(s.remote.hand[0])])
    else if s.remote.queue != [] then s.(remote := Pop(s.remote))
    else s.(phase := Streaming)
  }

  function Sents(cs: seq<string>): seq<Event> {
    if cs == [] then [] else Sents(cs[..|cs| - 1]) + [Sent(cs[|cs| - 1])]
  }

  function Feds(ms: seq<Message>): seq<Event> {
    if ms == [] then [] else Feds(ms[..|ms| - 1]) + [Fed(ms[|ms| - 1])]
  }

  lemma SentsOneMore(cs: seq<string>, i: nat)
    requires i < |cs|
    ensures Sents(cs[..i + 1]) == Sents(cs[..i]) + [Sent(cs[i])]
  {
    assert cs[..i + 1][..i] == cs[..i];
  }

  lemma FedsOneMore(ms: seq<Message>, i: nat)
    requires i < |ms|
    ensures Feds(ms[..i + 1]) == Feds(ms[..i]) + [Fed(ms[i])]
  {
    assert ms[..i + 1][..i] == ms[..i];
  }

  /** The first k of the queue have been passed on. */
  function Drained<M>(l: Lane<M>, k: nat): Lane<M>
    requires k <= |l.queue|
  {
    l.(queue := l.queue[k..], flushed := l.flushed + l.queue[..k], delivered := l.delivered + l.queue[..k])
  }

  lemma DrainOneMore<M>(l: Lane<M>, k: nat)
    requires k < |l.queue| && l.hand == []
    ensures var d := Drained(l, k);
            d.queue != [] && d.queue[0] == l.queue[k] && LandHand(Pop(d)) == Drained(l, k + 1)
  {
    assert l.queue[..k] + [l.queue[k]] == l.queue[..k + 1];
  }

  /** The whole flush of one direction, when nothing comes in between. */
  function LocalFlushed(s: State): State {
    s.(local := Drained(s.local, |s.local.queue|), log := s.log + Sents(s.local.queue), phase := FlushRemote)
  }

  function RemoteFlushed(s: State): State {
    s.(remote := Drained(s.remote, |s.remote.queue|), log := s.log + Feds(s.remote.queue), phase := Streaming)
  }

  // ----- the signaling thread; ok is the outcome of a wait, of a post or of setting the remote

  predicate Signals(p: Phase) {
    p.RequestOffer? || p.AwaitRemote? || p.SetRemote? || p.AwaitLocal? || p.PostLocal?
  }

  function SignalPhase(s: State, ok: bool): Phase {
    if !ok then Aborted
    else match s.phase
      case RequestOffer => AwaitRemote
      case AwaitRemote => if s.remoteSdp.Some? && !s.ended then SetRemote else Aborted
      case SetRemote => if s.remoteSdp.None? then Aborted else if s.answerer then AwaitLocal else Enable
      case AwaitLocal => if s.localSdp.Some? && !s.ended then PostLocal else Aborted
      case PostLocal => if s.localSdp.None? then Aborted else if s.answerer then Enable else AwaitRemote
      case _ => s.phase
  }

  function SignalEvents(s: State, ok: bool): seq<Event> {
    if !ok then []
    else if s.phase.RequestOffer? then [OfferRequested]
    else if s.phase.SetRemote? && s.remoteSdp.Some? then [RemoteSdpSet(s.remoteSdp.value)]
    else if s.phase.PostLocal? && s.localSdp.Some? then [LocalSdpSent(s.localSdp.value)]
    else []
  }

  function SignalStep(s: State, ok: bool): State {
    s.(phase := SignalPhase(s, ok), log := s.log + SignalEvents(s, ok))
  }

  function MainStep(s: State, ok: bool): State {
    if Signals(s.phase) then SignalStep(s, ok)
    else if s.phase.Enable? then Trickling(s)
    else if s.phase.FlushLocal? then FlushLocalStep(s)
    else if s.phase.FlushRemote? then FlushRemoteStep(s)
    else if s.phase.Streaming? && s.ended then s.(phase := Severed)
    else s
  }

  datatype Action =
    | OfferReady(offer: string)
    | AnswerArrives(answer: string)
    | Ends
    | LocalArrives(cand: string)
    | RemoteArrives(msg: Message)
    | LocalLands(landedCand: string)
    | RemoteLands(landedMsg: Message)
    | Main(ok: bool)

  predicate Enabled(s: State, a: Action) {
    match a
    case LocalLands(c) => c in s.local.live
    case RemoteLands(m) => m in s.remote.live
    case _ => true
  }

  function Step(s: State, a: Action): State {
    match a
    case OfferReady(sdp) => s.(localSdp := Some(sdp))
    case AnswerArrives(sdp) => s.(remoteSdp := Some(sdp))
    case Ends => s.(ended := true)
    case LocalArrives(c) => s.(local := Arrive(s.local, c))
    case RemoteArrives(m) => s.(remote := Arrive(s.remote, m))
    case LocalLands(c) => SentLive(s, c)
    case RemoteLands(m) => FedLive(s, m)
    case Main(ok) => MainStep(s, ok)
  }

  /** Once the stream is severed, nothing more is said. */
  function Next(s: State, a: Action): State {
    if s.phase.Severed? || !Enabled(s, a) then s else Step(s, a)
  }

  function Run(s: State, run: seq<Action>): State {
    if run == [] then s else Next(Run(s, run[..|run| - 1]), run[|run| - 1])
  }

  // ----- what one message feeds

  function Bare(value: string): (r: string)
  {
    if |value| >= 2 && value[..2] == "a=" then value[2..] else value
  }

  function FedItems(items: seq<Item>): seq<string> {
    if items == [] then []
    else
      var it := items[|items| - 1];
      FedItems(items[..|items| - 1]) + if it.Text? && Bare(it.value) != "" then [Bare(it.value)] else []
  }

  /** The candidates given to the WebRTC client for one message. */
  function Candidates(m: Message): seq<string> {
    if m.Items? then FedItems(m.items) else []
  }

  function CandidatesOf(ms: seq<Message>): seq<string> {
    if ms == [] then [] else CandidatesOf(ms[..|ms| - 1]) + Candidates(ms[|ms| - 1])
  }

  // ----- the shared state as the callbacks and the signaling thread change it

  class CameraStreamState {
    const answerer: bool
    var phase: Phase
    var localSdp: Option<string>
    var remoteSdp: Option<string>
    var ended: bool
    var iceSendEnabled: bool
    var localIceCandidates: seq<string>
    var remoteIceFeedEnabled: bool
    var remoteIceCandidates: seq<Message>
    var localHand: seq<string>
    var remoteHand: seq<Message>
    var fed: seq<string>                    // candidates the WebRTC client was given
    ghost var localPast: Lane<string>       // histories; queue, flag and hand are the fields above
    ghost var remotePast: Lane<Message>
    ghost var log: seq<Event>

    ghost function LocalLane(): Lane<string>
      reads this
    {
      localPast.(enabled := iceSendEnabled, queue := localIceCandidates, hand := localHand)
    }

    ghost function RemoteLane(): Lane<Message>
      reads this
    {
      remotePast.(enabled := remoteIceFeedEnabled, queue := remoteIceCandidates, hand := remoteHand)
    }

    ghost function View(): State
      reads this
    {
      State(answerer, phase, localSdp, remoteSdp, ended, LocalLane(), RemoteLane(), log)
    }

    /** What was fed is what the delivered messages hold. */
    ghost predicate Valid()
      reads this
    {
      fed == CandidatesOf(remotePast.delivered)
    }

    constructor (answerer: bool)
      ensures Valid() && View() == Initial(answerer)
    {
      this.answerer := answerer;
      phase := if answerer then RequestOffer else AwaitLocal;
      localSdp, remoteSdp, ended := None, None, false;
      iceSendEnabled, localIceCandidates, localHand := false, [], [];
      remoteIceFeedEnabled, remoteIceCandidates, remoteHand := false, [], [];
      fed, log := [], [];
      localPast, remotePast := NewLane(), NewLane();
    }

    /** Queues the candidate, or tells the caller to send it now. */
    method OnLocalIceCandidate(c: string) returns (sendNow: bool)
      requires Valid()
      modifies this
      ensures Valid() && LocalLane() == Arrive(old(LocalLane()), c) && View() == old(View()).(local := LocalLane())
      ensures sendNow == old(iceSendEnabled) && (sendNow ==> c in View().local.live)
    {
      sendNow := iceSendEnabled;
      localPast := localPast.(arrived := localPast.arrived + [c]);
      if !sendNow {
        localIceCandidates := localIceCandidates + [c];
        localPast := localPast.(buffered := localPast.buffered + [c]);
      } else {
        localPast := localPast.(live := localPast.live + multiset{c});
      }
    }

    method OnRemoteIce(m: Message) returns (feedNow: bool)
      requires Valid()
      modifies this
      ensures Valid() && RemoteLane() == Arrive(old(RemoteLane()), m) && View() == old(View()).(remote := RemoteLane())
      ensures feedNow == old(remoteIceFeedEnabled) && (feedNow ==> m in View().remote.live)
    {
      feedNow := remoteIceFeedEnabled;
      remotePast := remotePast.(arrived := remotePast.arrived + [m]);
      if !feedNow {
        remoteIceCandidates := remoteIceCandidates + [m];
        remotePast := remotePast.(buffered := remotePast.buffered + [m]);
      } else {
        remotePast := remotePast.(live := remotePast.live + multiset{m});
      }
    }

    method SendLive(c: string)
      requires Valid() && c in View().local.live
      modifies this`localPast, this`log
      ensures Valid() && View() == SentLive(old(View()), c)
    {
      localPast := localPast.(live := localPast.live - multiset{c}, delivered := localPast.delivered + [c]);
      log := log + [Sent(c)];
    }

    /** Gives the client every candidate of the message, without its attribute prefix and
        without the empty end marker. */
    method FeedRemoteIceCandidates(m: Message)
      modifies this`fed
      ensures fed == old(fed) + Candidates(m)
    {
      if m.Items? {
        for i := 0 to |m.items|
          invariant fed == old(fed) + FedItems(m.items[..i])
        {
          assert m.items[..i + 1][..i] == m.items[..i];
          if m.items[i].Text? {
            var value := Bare(m.items[i].value);
            if value != "" {
              fed := fed + [value];
            }
          }
        }
        assert m.items[..|m.items|] == m.items;
      }
    }

    method FeedLive(m: Message)
      requires Valid() && m in View().remote.live
      modifies this`remotePast, this`log, this`fed
      ensures Valid() && View() == FedLive(old(View()), m)
    {
      FeedRemoteIceCandidates(m);
      remotePast := remotePast.(live := remotePast.live - multiset{m}, delivered := remotePast.delivered + [m]);
      log := log + [Fed(m)];
    }

    /** One step of the signaling order; ok is the outcome of the wait, post or setting. */
    method Signal(ok: bool)
      requires Valid() && Signals(phase)
      modifies this`phase, this`log
      ensures Valid() && View() == SignalStep(old(View()), ok)
    {
      log := log + SignalEvents(View(), ok);
      match phase
      case RequestOffer => phase := if ok then AwaitRemote else Aborted;
      case AwaitRemote => phase := if ok && remoteSdp.Some? && !ended then SetRemote else Aborted;
      case SetRemote => phase := if !ok || remoteSdp.None? then Aborted else if answerer then AwaitLocal else Enable;
      case AwaitLocal => phase := if ok && localSdp.Some? && !ended then PostLocal else Aborted;
      case PostLocal => phase := if !ok || localSdp.None? then Aborted else if answerer then Enable else AwaitRemote;
    }

    /** Signaling is done: both directions are switched on in one critical section. */
    method EnableTrickle()
      requires Valid() && phase.Enable?
      modifies this`phase, this`iceSendEnabled, this`remoteIceFeedEnabled
      ensures Valid() && View() == Trickling(old(View()))
    {
      iceSendEnabled, remoteIceFeedEnabled := true, true;
      phase := FlushLocal;
    }

    /** Takes the oldest queued candidate, under the lock. */
    method PopLocal()
      requires Valid() && localHand == [] && localIceCandidates != []
      modifies this`localIceCandidates, this`localHand
      ensures Valid() && LocalLane() == Pop(old(LocalLane()))
    {
      localHand, localIceCandidates := [localIceCandidates[0]], localIceCandidates[1..];
    }

    method SendHand()
      requires Valid() && |localHand| == 1
      modifies this`localHand, this`localPast, this`log
      ensures Valid() && LocalLane() == LandHand(old(LocalLane())) && log == old(log) + [Sent(old(localHand)[0])]
    {
      localPast := localPast.(flushed := localPast.flushed + localHand, delivered := localPast.delivered + localHand);
      log := log + [Sent(localHand[0])];
      localHand := [];
    }

    method PopRemote()
      requires Valid() && remoteHand == [] && remoteIceCandidates != []
      modifies this`remoteIceCandidates, this`remoteHand
      ensures Valid() && RemoteLane() == Pop(old(RemoteLane()))
    {
      remoteHand, remoteIceCandidates := [remoteIceCandidates[0]], remoteIceCandidates[1..];
    }

    method FeedHand()
      requires Valid() && |remoteHand| == 1
      modifies this`remoteHand, this`remotePast, this`log, this`fed
      ensures Valid() && RemoteLane() == LandHand(old(RemoteLane())) && log == old(log) + [Fed(old(remoteHand)[0])]
    {
      FeedRemoteIceCandidates(remoteHand[0]);
      remotePast := remotePast.(flushed := remotePast.flushed + remoteHand,
                                delivered := remotePast.delivered + remoteHand);
      log := log + [Fed(remoteHand[0])];
      remoteHand := [];
    }

    /** One turn of the flush loop: the next of the queue has been passed on. */
    method PassLocal(ghost start: Lane<string>, ghost i: nat)
      requires Valid() && start.hand == [] && i < |start.queue| && LocalLane() == Drained(start, i)
      modifies this`localIceCandidates, this`localHand, this`localPast, this`log
      ensures Valid() && LocalLane() == Drained(start, i + 1) && log == old(log) + [Sent(start.queue[i])]
    {
      DrainOneMore(start, i);
      PopLocal();
      SendHand();
    }

    method DrainLocal()
      requires Valid() && localHand == []
      modifies this`localIceCandidates, this`localHand, this`localPast, this`log
      ensures Valid() && LocalLane() == Drained(old(LocalLane()), |old(localIceCandidates)|)
      ensures log == old(log) + Sents(old(localIceCandidates))
    {
      ghost var start, i := LocalLane(), 0;
      assert start.queue[..0] == [];
      while localIceCandidates != []
        invariant Valid() && 0 <= i <= |start.queue|
        invariant LocalLane() == Drained(start, i)
        invariant log == old(log) + Sents(start.queue[..i])
        decreases |localIceCandidates|
      {
        SentsOneMore(start.queue, i);
        PassLocal(start, i);
        i := i + 1;
      }
      assert start.queue[i..] == [];
      assert start.queue[..i] == start.queue;
    }

    /** Pops and passes on until the queue is empty, when no callback runs in between. */
    method FlushBufferedLocalIce()
      requires Valid() && localHand == []
      modifies this`phase, this`localIceCandidates, this`localHand, this`localPast, this`log
      ensures Valid() && View() == LocalFlushed(old(View()))
    {
      DrainLocal();
      phase := FlushRemote;
    }

    /** One turn of the flush loop: the next of the queue has been passed on. */
    method PassRemote(ghost start: Lane<Message>, ghost i: nat)
      requires Valid() && start.hand == [] && i < |start.queue| && RemoteLane() == Drained(start, i)
      modifies this`remoteIceCandidates, this`remoteHand, this`remotePast, this`log, this`fed
      ensures Valid() && RemoteLane() == Drained(start, i + 1) && log == old(log) + [Fed(start.queue[i])]
    {
      DrainOneMore(start, i);
      PopRemote();
      FeedHand();
    }

    method DrainRemote()
      requires Valid() && remoteHand == []
      modifies this`remoteIceCandidates, this`remoteHand, this`remotePast, this`log, this`fed
      ensures Valid() && RemoteLane() == Drained(old(RemoteLane()), |old(remoteIceCandidates)|)
      ensures log == old(log) + Feds(old(remoteIceCandidates))
    {
      ghost var start, i := RemoteLane(), 0;
      assert start.queue[..0] == [];
      while remoteIceCandidates != []
        invariant Valid() && 0 <= i <= |start.queue|
        invariant RemoteLane() == Drained(start, i)
        invariant log == old(log) + Feds(start.queue[..i])
        decreases |remoteIceCandidates|
      {
        FedsOneMore(start.queue, i);
        PassRemote(start, i);
        i := i + 1;
      }
      assert start.queue[i..] == [];
      assert start.queue[..i] == start.queue;
    }

    /** Pops and passes on until the queue is empty, when no callback runs in between. */
    method FlushBufferedRemoteIce()
      requires Valid() && remoteHand == []
      modifies this`phase, this`remoteIceCandidates, this`remoteHand, this`remotePast, this`log, this`fed
      ensures Valid() && View() == RemoteFlushed(old(View()))
    {
      DrainRemote();
      phase := Streaming;
    }
  }
}
