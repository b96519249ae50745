/**
 What the camera's messages come to for the WebRTC client, item by item
 (reference/src/cameraCategory.c:311-343).
 */
module TrickleItems {
  import opened Basics
  import opened TrickleIce
  import opened TrickleProofs

  // ----- one item

  lemma Single(it: Item)
    ensures FedItems([it]) == if it.Text? && Bare(it.value) != "" then [Bare(it.value)] else []
  {
    var items, fed := [it], if it.Text? && Bare(it.value) != "" then [Bare(it.value)] else [];
    assert items[..0] == [] && FedItems([]) == [];
    assert FedItems(items) == [] + fed;
    assert [] + fed == fed;
  }

  /** The candidate with the attribute prefix is fed without it. */
  lemma PrefixedItem(c: string)
    requires c != ""
    ensures Candidates(Items([Text("a=" + c)])) == [c]
  {
    Single(Text("a=" + c));
    assert ("a=" + c)[..2] == "a=" && ("a=" + c)[2..] == c;
  }

  lemma PlainItem(c: string)
    requires c != "" && !("a=" <= c)
    ensures Candidates(Items([Text(c)])) == [c]
  {
    Single(Text(c));
    assert |c| >= 2 ==> c[..2] != "a=";
  }

  /** End markers, with or without the prefix, and anything but text are skipped. */
  lemma SkippedItems()
    ensures Candidates(Items([Text("")])) == [] && Candidates(Items([Text("a=")])) == []
    ensures Candidates(Items([Other])) == [] && Candidates(NotAnArray) == []
  {
    Single(Text(""));
    Single(Text("a="));
    Single(Other);
    assert "a="[..2] == "a=" && "a="[2..] == "";
  }

  // ----- all items of a message

  lemma LastItem(items: seq<Item>)
    requires items != []
    ensures FedItems(items) == FedItems(items[..|items| - 1]) + FedItems([items[|items| - 1]])
  {
    Single(items[|items| - 1]);
  }

  /** Items are fed one after the other, none twice and none left out. */
  lemma {:induction false} ItemsInTurn(a: seq<Item>, b: seq<Item>)
    ensures Candidates(Items(a + b)) == Candidates(Items(a)) + Candidates(Items(b))
  {
    if b == [] {
      assert a + b == a;
    } else {
      var n, ab := |b| - 1, a + b;
      assert ab[..|ab| - 1] == a + b[..n] && ab[|ab| - 1] == b[n];
      ItemsInTurn(a, b[..n]);
      LastItem(ab);
      LastItem(b);
      var x, y, z := FedItems(a), FedItems(b[..n]), FedItems([b[n]]);
      assert (x + y) + z == x + (y + z);
    }
  }

  // ----- counting

  /** The item is the candidate c, with the attribute prefix or without. */
  predicate Carries(it: Item, c: string) {
    it.Text? && (it.value == "a=" + c || (it.value == c && !("a=" <= c)))
  }

  function ItemCount(items: seq<Item>, c: string): nat {
    if items == [] then 0 else ItemCount(items[..|items| - 1], c) + Bit(Carries(items[|items| - 1], c))
  }

  /** How often a candidate was in the messages. */
  function MessageCount(ms: seq<Message>, c: string): nat {
    if ms == [] then 0
    else
      var m := ms[|ms| - 1];
      MessageCount(ms[..|ms| - 1], c) + if m.Items? then ItemCount(m.items, c) else 0
  }

  lemma BareIff(value: string, c: string)
    requires c != ""
    ensures Bare(value) == c <==> Carries(Text(value), c)
  {
    if |value| >= 2 && value[..2] == "a=" {
      assert value == "a=" + value[2..];
    }
    assert ("a=" + c)[..2] == "a=" && ("a=" + c)[2..] == c;
  }

  lemma {:induction false} ItemsCounted(items: seq<Item>, c: string)
    ensures multiset(FedItems(items))[c] == if c == "" then 0 else ItemCount(items, c)
  {
    if items != [] {
      var n := |items| - 1;
      ItemsCounted(items[..n], c);
      if items[n].Text? && c != "" {
        BareIff(items[n].value, c);
      }
    }
  }

  lemma {:induction false} MessagesCounted(ms: seq<Message>, c: string)
    ensures multiset(CandidatesOf(ms))[c] == if c == "" then 0 else MessageCount(ms, c)
  {
    if ms != [] {
      var n := |ms| - 1;
      MessagesCounted(ms[..n], c);
      if ms[n].Items? {
        ItemsCounted(ms[n].items, c);
      }
    }
  }

  /** While streaming, with no callback under way, the client has been given every candidate as
      often as it stood, prefixed or plain, in the messages that arrived, and never an empty
      one. */
  lemma EveryItemDelivered(answerer: bool, run: seq<Action>, c: string)
    requires var s := Run(Initial(answerer), run);
             s.phase.Streaming? && s.local.live == multiset{} && s.remote.live == multiset{}
    ensures var fed := multiset(CandidatesOf(FedIn(Run(Initial(answerer), run).log)));
            fed[c] == if c == "" then 0 else MessageCount(RemoteArrivals(run), c)
  {
    StreamingHasDeliveredAll(answerer, run);
    MessagesCounted(RemoteArrivals(run), c);
  }

  // ----- the signaling goes through in both roles

  lemma RunOneMore(s: State, run: seq<Action>, a: Action)
    ensures Run(s, run + [a]) == Next(Run(s, run), a)
  {
    assert (run + [a])[..|run|] == run;
  }

  function Fresh(answerer: bool, phase: Phase, offer: string, answer: string, log: seq<Event>): State {
    State(answerer, phase, Some(offer), Some(answer), false, NewLane(), NewLane(), log)
  }

  /** Both descriptions are there. */
  lemma Described(answerer: bool, offer: string, answer: string)
    ensures Run(Initial(answerer), [OfferReady(offer)] + [AnswerArrives(answer)]) ==
            Fresh(answerer, if answerer then RequestOffer else AwaitLocal, offer, answer, [])
  {
    RunOneMore(Initial(answerer), [], OfferReady(offer));
    RunOneMore(Initial(answerer), [OfferReady(offer)], AnswerArrives(answer));
    assert [] + [OfferReady(offer)] == [OfferReady(offer)];
  }

  /** One step of the signaling thread after a run. */
  lemma OneMain(s: State, r: seq<Action>, t: State)
    requires MainStep(Run(s, r), true) == t && !Run(s, r).phase.Severed?
    ensures Run(s, r + [Main(true)]) == t
  {
    RunOneMore(s, r, Main(true));
  }

  lemma OffererRun(offer: string, answer: string) returns (run: seq<Action>)
    ensures Run(Initial(false), run) ==
            Fresh(false, Enable, offer, answer, [LocalSdpSent(offer), RemoteSdpSet(answer)])
  {
    var s, r := Initial(false), [OfferReady(offer)] + [AnswerArrives(answer)];
    var sent := [LocalSdpSent(offer)];
    Described(false, offer, answer);
    OneMain(s, r, Fresh(false, PostLocal, offer, answer, []));
    OneMain(s, r + [Main(true)], Fresh(false, AwaitRemote, offer, answer, sent));
    run := r + [Main(true)] + [Main(true)];
    OneMain(s, run, Fresh(false, SetRemote, offer, answer, sent));
    OneMain(s, run + [Main(true)], Fresh(false, Enable, offer, answer, [LocalSdpSent(offer), RemoteSdpSet(answer)]));
    run := run + [Main(true)] + [Main(true)];
  }

  lemma AnswererAsks(offer: string, answer: string) returns (run: seq<Action>)
    ensures Run(Initial(true), run) == Fresh(true, SetRemote, offer, answer, [OfferRequested])
  {
    var s, r := Initial(true), [OfferReady(offer)] + [AnswerArrives(answer)];
    Described(true, offer, answer);
    OneMain(s, r, Fresh(true, AwaitRemote, offer, answer, [OfferRequested]));
    OneMain(s, r + [Main(true)], Fresh(true, SetRemote, offer, answer, [OfferRequested]));
    run := r + [Main(true)] + [Main(true)];
  }

  lemma AnswererRun(offer: string, answer: string) returns (run: seq<Action>)
    ensures Run(Initial(true), run) ==
            Fresh(true, Enable, offer, answer, [OfferRequested, RemoteSdpSet(answer), LocalSdpSent(offer)])
  {
    var s, both := Initial(true), [OfferRequested, RemoteSdpSet(answer)];
    var r := AnswererAsks(offer, answer);
    OneMain(s, r, Fresh(true, AwaitLocal, offer, answer, both));
    OneMain(s, r + [Main(true)], Fresh(true, PostLocal, offer, answer, both));
    run := r + [Main(true)] + [Main(true)];
    OneMain(s, run, Fresh(true, Enable, offer, answer, [OfferRequested, RemoteSdpSet(answer), LocalSdpSent(offer)]));
    run := run + [Main(true)];
  }

  /** With nothing buffered, switching on and both flushes take a step each. */
  lemma EnabledStreams(s: State, r: seq<Action>) returns (run: seq<Action>)
    requires var t := Run(s, r); t.phase.Enable? && t.local == NewLane() && t.remote == NewLane()
    ensures var t, u := Run(s, r), Run(s, run);
            u.phase.Streaming? && u.local.enabled && u.remote.enabled && u.log == t.log
  {
    var t := Trickling(Run(s, r));
    OneMain(s, r, t);
    assert t.local.queue == [] && t.local.hand == [] && t.remote.queue == [] && t.remote.hand == [];
    OneMain(s, r + [Main(true)], t.(phase := FlushRemote));
    OneMain(s, r + [Main(true)] + [Main(true)], t.(phase := Streaming));
    run := r + [Main(true)] + [Main(true)] + [Main(true)];
  }

  /** Where every wait, post and setting succeeds, the stream is reached in both roles, with the
      descriptions exchanged in the order the role asks for. */
  lemma BothRolesStream(answerer: bool, offer: string, answer: string) returns (run: seq<Action>)
    ensures var t := Run(Initial(answerer), run);
            && t.phase.Streaming? && t.local.enabled && t.remote.enabled
            && t.log == if answerer then [OfferRequested, RemoteSdpSet(answer), LocalSdpSent(offer)]
                        else [LocalSdpSent(offer), RemoteSdpSet(answer)]
  {
    if answerer {
      run := AnswererRun(offer, answer);
    } else {
      run := OffererRun(offer, answer);
    }
    run := EnabledStreams(Initial(answerer), run);
  }

  /** A wait that times out, or ends with the session over or nothing received, aborts; so does
      a post or a setting that fails. Nothing is said, and an aborted stream stays so. */
  lemma FailureAborts(s: State, ok: bool)
    requires Signals(s.phase)
    requires || !ok
             || (s.phase.AwaitRemote? && (s.ended || s.remoteSdp.None?))
             || (s.phase.AwaitLocal? && (s.ended || s.localSdp.None?))
    ensures MainStep(s, ok).phase.Aborted? && MainStep(s, ok).log == s.log
    ensures forall again :: MainStep(MainStep(s, ok), again) == MainStep(s, ok)
  {
  }

  /** A stream ends exactly when the session or the user ends it, and then for good. */
  lemma StreamEndsIff(s: State, ok: bool)
    requires s.phase.Streaming?
    ensures MainStep(s, ok).phase.Severed? <==> s.ended
    ensures !s.ended ==> MainStep(s, ok) == s
    ensures s.ended ==> forall a :: Next(MainStep(s, ok), a) == MainStep(s, ok)
  {
  }

  /** What is posted and what is set is the latest description received. */
  lemma LatestIsUsed(s: State, earlier: string, latest: string)
    ensures var t := Step(Step(s.(phase := PostLocal), OfferReady(earlier)), OfferReady(latest));
            MainStep(t, true).log == s.log + [LocalSdpSent(latest)]
    ensures var t := Step(Step(s.(phase := SetRemote), AnswerArrives(earlier)), AnswerArrives(latest));
            MainStep(t, true).log == s.log + [RemoteSdpSet(latest)]
  {
  }
}
