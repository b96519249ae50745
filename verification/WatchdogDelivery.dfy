/**
 Notifications of the watchdog (core/src/deviceCommunicationWatchdog.c:218-252, 278-315,
 491-545). A notification is decided on under the lock, together with the flag, and delivered
 after the lock has been released, so deliveries of one device can overtake one another.
 */
module WatchdogDelivery {
  import opened Basics
  import opened Watchdog
  import opened WatchdogDeadline

  function Registered(d: Device): Tracked {
    Tracked(d, [], multiset{}, [])
  }

  function After(d: Device, ops: seq<Op>, k: nat): Tracked
    requires k <= |ops|
  {
    RunDevice(Registered(d), ops[..k])
  }

  lemma AfterNext(d: Device, ops: seq<Op>, k: nat)
    requires k < |ops|
    ensures After(d, ops, k + 1) == Apply(After(d, ops, k), ops[k])
  {
    RunAppend(Registered(d), ops[..k], ops[k]);
    assert ops[..k] + [ops[k]] == ops[..k + 1];
  }

  lemma AfterAll(d: Device, ops: seq<Op>)
    ensures After(d, ops, |ops|) == RunDevice(Registered(d), ops)
  {
    assert ops[..|ops|] == ops;
  }

  /** The notification with number i, when they alternate from the given flag value. */
  function Nth(flag: bool, i: nat): Notice {
    if flag == (i % 2 == 0) then Restored else Failed
  }

  predicate Alternating(flag: bool, notices: seq<Notice>) {
    forall i :: 0 <= i < |notices| ==> notices[i] == Nth(flag, i)
  }

  lemma NthChanges(flag: bool, i: nat)
    ensures Nth(flag, i) != Nth(flag, i + 1)
  {
  }

  // ----- decisions

  /** Decisions alternate and tell the flag; each is in flight or delivered. */
  predicate Accounted(flag: bool, x: Tracked) {
    && Alternating(flag, x.decided)
    && x.device.inCommFail == (flag == (|x.decided| % 2 == 0))
    && multiset(x.decided) == x.inFlight + multiset(x.delivered)
    && Bit(flag) + multiset(x.decided)[Failed] == Bit(x.device.inCommFail) + multiset(x.decided)[Restored]
  }

  lemma DecideAccounts(flag: bool, x: Tracked, d: Device, n: Notice)
    requires Accounted(flag, x) && d.inCommFail != x.device.inCommFail && n == if d.inCommFail then Failed else Restored
    ensures Accounted(flag, Decide(x, d, n))
  {
  }

  /** Apart from deliveries, notifications are decided on exactly when the flag changes. */
  lemma ChangeDecides(x: Tracked, op: Op)
    ensures var y := Apply(x, op);
            && (ChangesFlag(x, op) ==> y == Decide(x, y.device, if y.device.inCommFail then Failed else Restored))
            && (!ChangesFlag(x, op) && !op.Deliver? ==> y == x.(device := y.device))
            && (op.Deliver? ==> !ChangesFlag(x, op))
  {
  }

  lemma StepAccounts(flag: bool, x: Tracked, op: Op)
    requires Accounted(flag, x)
    ensures Accounted(flag, Apply(x, op))
  {
    var y := Apply(x, op);
    ChangeDecides(x, op);
    if ChangesFlag(x, op) {
      DecideAccounts(flag, x, y.device, if y.device.inCommFail then Failed else Restored);
    }
  }

  lemma {:induction false} RunAccounts(d: Device, ops: seq<Op>, k: nat)
    requires k <= |ops|
    ensures Accounted(d.inCommFail, After(d, ops, k))
  {
    if k > 0 {
      RunAccounts(d, ops, k - 1);
      AfterNext(d, ops, k - 1);
      StepAccounts(d.inCommFail, After(d, ops, k - 1), ops[k - 1]);
    }
  }

  /** Over every interleaving of contacts, checks, forced failures, restores and deliveries, and
      with no assumption on the clock: decisions alternate; none is lost or delivered twice; and
      the starting flag plus the failures delivered or in flight is the flag now plus the
      restorations delivered or in flight. */
  lemma NotificationsConserved(d: Device, ops: seq<Op>)
    ensures var x := RunDevice(Registered(d), ops);
            && Alternating(d.inCommFail, x.decided)
            && multiset(x.decided) == x.inFlight + multiset(x.delivered)
            && Bit(d.inCommFail) + multiset(x.delivered)[Failed] + x.inFlight[Failed]
               == Bit(x.device.inCommFail) + multiset(x.delivered)[Restored] + x.inFlight[Restored]
  {
    RunAccounts(d, ops, |ops|);
    AfterAll(d, ops);
  }

  // ----- deliveries

  /** Delivered in the order decided, with at most one to come. */
  predicate InOrder(x: Tracked) {
    || (x.inFlight == multiset{} && x.delivered == x.decided)
    || (|x.decided| == |x.delivered| + 1 && x.decided[..|x.delivered|] == x.delivered
        && x.inFlight == multiset{x.decided[|x.delivered|]})
  }

  predicate ChangesFlag(x: Tracked, op: Op) {
    Apply(x, op).device.inCommFail != x.device.inCommFail
  }

  predicate PromptAt(x: Tracked, op: Op) {
    ChangesFlag(x, op) ==> x.inFlight == multiset{}
  }

  predicate PromptStepAt(d: Device, ops: seq<Op>, k: nat)
    requires k < |ops|
  {
    PromptAt(After(d, ops, k), ops[k])
  }

  predicate AlternatesAt(d: Device, ops: seq<Op>, k: nat)
    requires k <= |ops|
  {
    NextAlternates(d.inCommFail, After(d, ops, k))
  }

  /** Each notification is delivered before the next change of the flag. */
  predicate PromptUpTo(d: Device, ops: seq<Op>, k: nat)
    requires k <= |ops|
  {
    forall i :: 0 <= i < k ==> PromptStepAt(d, ops, i)
  }

  predicate NextAlternates(flag: bool, x: Tracked) {
    forall n :: n in x.inFlight ==> Alternating(flag, x.delivered + [n])
  }

  /** At every point of the run, whichever callback is called next, deliveries alternate. */
  predicate DeliveriesAlternate(d: Device, ops: seq<Op>) {
    forall k :: 0 <= k <= |ops| ==> AlternatesAt(d, ops, k)
  }

  lemma StepInOrder(x: Tracked, op: Op)
    requires InOrder(x) && PromptAt(x, op)
    ensures InOrder(Apply(x, op))
  {
    ChangeDecides(x, op);
    if op.Deliver? && op.notice in x.inFlight {
      assert x.decided == x.delivered + [op.notice];
    }
  }

  lemma {:induction false} PromptInOrder(d: Device, ops: seq<Op>, k: nat)
    requires k <= |ops| && PromptUpTo(d, ops, k)
    ensures InOrder(After(d, ops, k))
  {
    if k > 0 {
      PromptInOrder(d, ops, k - 1);
      AfterNext(d, ops, k - 1);
      assert PromptStepAt(d, ops, k - 1);
      StepInOrder(After(d, ops, k - 1), ops[k - 1]);
    }
  }

  lemma InOrderAlternates(flag: bool, x: Tracked)
    requires Accounted(flag, x) && InOrder(x)
    ensures NextAlternates(flag, x) && Alternating(flag, x.delivered)
  {
    forall n | n in x.inFlight
      ensures Alternating(flag, x.delivered + [n])
    {
      assert x.decided == x.delivered + [n];
    }
  }

  /** A change of the flag while a notification is in flight lets its own overtake it. */
  lemma LateOvertakes(flag: bool, x: Tracked, d: Device, n: Notice)
    requires Alternating(flag, Decide(x, d, n).decided) && InOrder(x) && x.inFlight != multiset{}
    ensures !NextAlternates(flag, Decide(x, d, n))
  {
    var y, i := Decide(x, d, n), |x.delivered|;
    assert |x.decided| == i + 1;
    assert y.decided[i + 1] == n == Nth(flag, i + 1);
    NthChanges(flag, i);
    var next := x.delivered + [n];
    assert next[i] == n != Nth(flag, i);
    assert n in y.inFlight && !Alternating(flag, next);
  }

  lemma AlternatingStep(flag: bool, x: Tracked, op: Op)
    requires Accounted(flag, x) && InOrder(x) && NextAlternates(flag, Apply(x, op))
    ensures PromptAt(x, op)
  {
    StepAccounts(flag, x, op);
    ChangeDecides(x, op);
    if ChangesFlag(x, op) && x.inFlight != multiset{} {
      var y := Apply(x, op);
      LateOvertakes(flag, x, y.device, if y.device.inCommFail then Failed else Restored);
    }
  }

  lemma PromptStep(d: Device, ops: seq<Op>, k: nat)
    requires k < |ops| && PromptUpTo(d, ops, k) && AlternatesAt(d, ops, k + 1)
    ensures PromptStepAt(d, ops, k)
  {
    PromptInOrder(d, ops, k);
    RunAccounts(d, ops, k);
    AfterNext(d, ops, k);
    AlternatingStep(d.inCommFail, After(d, ops, k), ops[k]);
  }

  /** One after the other, each from those before it. */
  lemma Onward(a: seq<bool>, q: seq<bool>)
    requires |a| == |q| + 1 && forall k :: 0 <= k < |a| ==> a[k]
    requires forall k :: 0 <= k < |q| && (forall i :: 0 <= i < k ==> q[i]) && a[k + 1] ==> q[k]
    ensures forall k :: 0 <= k < |q| ==> q[k]
  {
    for k := 0 to |q|
      invariant forall i :: 0 <= i < k ==> q[i]
    {
      assert a[k + 1];
    }
  }

  lemma AlternatingIsPrompt(d: Device, ops: seq<Op>)
    requires DeliveriesAlternate(d, ops)
    ensures PromptUpTo(d, ops, |ops|)
  {
    var n := |ops|;
    var a := seq(n + 1, k requires 0 <= k <= n => AlternatesAt(d, ops, k));
    var q := seq(n, k requires 0 <= k < n => PromptStepAt(d, ops, k));
    forall k | 0 <= k < n && (forall i :: 0 <= i < k ==> q[i]) && a[k + 1]
      ensures q[k]
    {
      assert forall i :: 0 <= i < k ==> q[i] == PromptStepAt(d, ops, i);
      PromptStep(d, ops, k);
    }
    Onward(a, q);
    assert forall k :: 0 <= k < n ==> q[k] == PromptStepAt(d, ops, k);
  }

  /** Deliveries strictly alternate along a run, whichever thread is quicker, if and only if
      each is made before the next change of the device's flag. */
  lemma DeliveriesAlternateIff(d: Device, ops: seq<Op>)
    ensures DeliveriesAlternate(d, ops) <==> PromptUpTo(d, ops, |ops|)
    ensures PromptUpTo(d, ops, |ops|) ==> Alternating(d.inCommFail, RunDevice(Registered(d), ops).delivered)
  {
    if DeliveriesAlternate(d, ops) {
      AlternatingIsPrompt(d, ops);
    }
    if PromptUpTo(d, ops, |ops|) {
      forall k | 0 <= k <= |ops|
        ensures AlternatesAt(d, ops, k) && Alternating(d.inCommFail, After(d, ops, k).delivered)
      {
        assert PromptUpTo(d, ops, k);
        PromptInOrder(d, ops, k);
        RunAccounts(d, ops, k);
        InOrderAlternates(d.inCommFail, After(d, ops, k));
      }
      AfterAll(d, ops);
    }
  }

  lemma FailThenRestore(d: Device, t: nat)
    requires d == Device(1, 0, 0, false)
    ensures Apply(Apply(Registered(d), Check(t, t, false)), Pet(t))
            == Tracked(Device(1, Window(1), t, false), [Failed, Restored], multiset{Failed, Restored}, [])
  {
    var a := Apply(Registered(d), Check(t, t, false));
    assert a == Tracked(Device(1, 0, t, true), [Failed], multiset{Failed}, []);
  }

  lemma DeliverSwapped(d: Device)
    ensures var x := Tracked(d, [Failed, Restored], multiset{Failed, Restored}, []);
            Apply(Apply(x, Deliver(Restored)), Deliver(Failed)) ==
            Tracked(d, [Failed, Restored], multiset{}, [Restored, Failed])
  {
    var x := Tracked(d, [Failed, Restored], multiset{Failed, Restored}, []);
    var y := Apply(x, Deliver(Restored));
    assert y == Tracked(d, [Failed, Restored], multiset{Failed}, [Restored]);
  }

  lemma RunFirst(x: Tracked, op: Op, rest: seq<Op>)
    ensures RunDevice(x, [op] + rest) == RunDevice(Apply(x, op), rest)
  {
    assert ([op] + rest)[1..] == rest;
  }

  lemma RunTwo(x: Tracked, a: Op, b: Op, rest: seq<Op>)
    ensures RunDevice(x, [a, b] + rest) == RunDevice(Apply(Apply(x, a), b), rest)
  {
    RunFirst(x, a, [b] + rest);
    RunFirst(Apply(x, a), b, rest);
    assert [a] + ([b] + rest) == [a, b] + rest;
  }

  /** The check fails a device and releases the lock, a contact restores it and is quicker to
      call back: the device is reported restored, then failed, and is not in comm fail. */
  lemma RestoredBeforeFailed(d: Device, t: nat)
    requires d == Device(1, 0, 0, false)
    ensures var x := RunDevice(Registered(d), [Check(t, t, false), Pet(t), Deliver(Restored), Deliver(Failed)]);
            && x.delivered == [Restored, Failed] && x.decided == [Failed, Restored] && x.inFlight == multiset{}
            && !x.device.inCommFail && !Alternating(d.inCommFail, x.delivered)
  {
    var ds := [Deliver(Restored), Deliver(Failed)];
    var y := Tracked(Device(1, Window(1), t, false), [Failed, Restored], multiset{Failed, Restored}, []);
    RunTwo(Registered(d), Check(t, t, false), Pet(t), ds);
    FailThenRestore(d, t);
    RunTwo(y, Deliver(Restored), Deliver(Failed), []);
    DeliverSwapped(y.device);
    assert ds + [] == ds;
    assert [Check(t, t, false), Pet(t)] + ds == [Check(t, t, false), Pet(t), Deliver(Restored), Deliver(Failed)];
    var delivered := [Restored, Failed];
    assert delivered[0] != Nth(false, 0);
  }
}
