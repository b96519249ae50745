/**
 What the validity flags of the descriptor lists are worth, and when the ready callback fires
 with both lists valid.
 */
module DescriptorFlags {
  import opened Basics
  import opened Descriptors
  import opened DescriptorProofs

  /** No task is under way. */
  predicate Quiet(s: State) {
    s.allow.pending.None? && s.deny.pending.None?
  }

  /** The list has a valid file, or is a deny list that is not wanted now. */
  predicate ListOk(env: Env, w: Which, s: State) {
    FileOk(env, w, Get(s, w).file) || (w.Deny? && !s.wanted)
  }

  /** The flag may be trusted. */
  predicate FlagOk(env: Env, w: Which, s: State) {
    Get(s, w).flag ==> ListOk(env, w, s)
  }

  /** The file is the one on record and does not validate: a task for the recorded URL would
      skip its download and flag it. */
  predicate Stale(env: Env, w: Which, l: Listing) {
    l.url.Some? && Current(l, l.url.value) && !FileOk(env, w, l.file)
  }

  /** What has just been accepted is valid. */
  predicate UpdatedOk(env: Env, w: Which, l: Listing) {
    l.pending == Some(Updated) ==> FileOk(env, w, l.file)
  }

  lemma {:induction false} RunUpdatedOk(env: Env, w: Which, s: State, run: seq<Action>)
    requires UpdatedOk(env, w, Get(s, w))
    ensures UpdatedOk(env, w, Get(Run(env, s, run), w))
  {
    if run != [] {
      RunUpdatedOk(env, w, s, run[..|run| - 1]);
    }
  }

  // ----- trusting a flag along a run

  /** A task that finds its list flagged without a valid file gets one; and a list is flagged as
      up to date only if it is valid, or not wanted. */
  predicate Trusts(env: Env, w: Which, s: State, a: Action) {
    var l := Get(s, w);
    match a
    case Init(_) => true
    case File(v, url, attempt) =>
      v == w && Enabled(s, a) && l.flag && !FileOk(env, w, l.file) ==> !Current(l, url) && Accepts(env, w, attempt)
    case Flag(v) => v == w && l.pending == Some(UpToDate) ==> ListOk(env, w, s)
    case Unlink(_, _) => true
  }

  lemma NextFlagOkIff(env: Env, w: Which, s: State, a: Action)
    requires FlagOk(env, w, s) && UpdatedOk(env, w, Get(s, w))
    ensures FlagOk(env, w, Next(env, s, a)) <==> Trusts(env, w, s, a)
  {
    match a
    case Init(_) =>
    case File(v, url, attempt) =>
      assert v != w ==> Get(Next(env, s, a), w) == Get(s, w);
    case Flag(v) =>
      assert v != w ==> Get(Next(env, s, a), w) == Get(s, w);
      if v == w && Get(s, w).pending.Some? {
        var o := Get(s, w).pending.value;
        assert o.Failed? || o.UpToDate? || o.Updated?;
      }
    case Unlink(_, _) =>
  }

  predicate FlagOkAt(env: Env, w: Which, s: State, run: seq<Action>, k: nat)
    requires k <= |run|
  {
    FlagOk(env, w, StateAt(env, s, run, k))
  }

  predicate TrustsAt(env: Env, w: Which, s: State, run: seq<Action>, k: nat)
    requires k < |run|
  {
    Trusts(env, w, StateAt(env, s, run, k), run[k])
  }

  /** Along any run after an initialisation, a list's flag can be trusted at every point if and
      only if every task that finds it flagged without a valid file has its download accepted,
      and no skipped download flags an invalid file. */
  lemma FlagTrustedIff(env: Env, w: Which, s0: State, noDenylist: bool, run: seq<Action>)
    requires UpdatedOk(env, w, Get(s0, w))
    ensures var s := DoInit(env, s0, noDenylist);
            (forall k :: 0 <= k <= |run| ==> FlagOkAt(env, w, s, run, k)) <==>
            (forall k :: 0 <= k < |run| ==> TrustsAt(env, w, s, run, k))
  {
    var s, n := DoInit(env, s0, noDenylist), |run|;
    var p := seq(n + 1, k requires 0 <= k <= n => FlagOkAt(env, w, s, run, k));
    var q := seq(n, k requires 0 <= k < n => TrustsAt(env, w, s, run, k));
    assert StateAt(env, s, run, 0) == s;
    forall k | 0 <= k < n && p[k]
      ensures p[k + 1] <==> q[k]
    {
      StateNext(env, s, run, k);
      RunUpdatedOk(env, w, s, run[..k]);
      NextFlagOkIff(env, w, StateAt(env, s, run, k), run[k]);
    }
    FirstBreak(p, q);
    assert forall k :: 0 <= k <= n ==> p[k] == FlagOkAt(env, w, s, run, k);
    assert forall k :: 0 <= k < n ==> q[k] == TrustsAt(env, w, s, run, k);
  }

  // ----- records that are not stale

  /** A file to be flagged is valid, and a valid file is flagged, at the latest when its task
      takes the lock. */
  predicate Coherent(env: Env, w: Which, l: Listing) {
    && !Stale(env, w, l)
    && (FileOk(env, w, l.file) ==> l.flag || l.pending == Some(Updated))
    && (l.pending.Some? && !l.pending.value.Failed? ==> FileOk(env, w, l.file))
  }

  lemma NextCoherent(env: Env, w: Which, s: State, a: Action)
    requires Coherent(env, w, Get(s, w))
    ensures Coherent(env, w, Get(Next(env, s, a), w))
  {
  }

  lemma {:induction false} RunCoherent(env: Env, w: Which, s: State, noDenylist: bool, run: seq<Action>)
    requires !Stale(env, w, Get(s, w)) && Get(s, w).pending.None?
    ensures Coherent(env, w, Get(Run(env, DoInit(env, s, noDenylist), run), w))
  {
    if run != [] {
      var n := |run| - 1;
      RunCoherent(env, w, s, noDenylist, run[..n]);
      NextCoherent(env, w, Run(env, DoInit(env, s, noDenylist), run[..n]), run[n]);
    }
  }

  /** A task that finds its list flagged without a valid file has its download accepted. */
  predicate FillsBare(env: Env, w: Which, s: State, a: Action) {
    a.File? && a.list == w && Enabled(s, a) && Get(s, w).flag && !FileOk(env, w, Get(s, w).file) ==>
      Accepts(env, w, a.attempt)
  }

  predicate FillsBareAt(env: Env, w: Which, s: State, run: seq<Action>, k: nat)
    requires k < |run|
  {
    FillsBare(env, w, StateAt(env, s, run, k), run[k])
  }

  /** From a record that is not stale, only such tasks matter. */
  lemma UnstaleFlagTrustedIff(env: Env, w: Which, s0: State, noDenylist: bool, run: seq<Action>)
    requires !Stale(env, w, Get(s0, w)) && Get(s0, w).pending.None?
    ensures var s := DoInit(env, s0, noDenylist);
            (forall k :: 0 <= k <= |run| ==> FlagOkAt(env, w, s, run, k)) <==>
            (forall k :: 0 <= k < |run| ==> FillsBareAt(env, w, s, run, k))
  {
    var s := DoInit(env, s0, noDenylist);
    FlagTrustedIff(env, w, s0, noDenylist, run);
    forall k | 0 <= k < |run|
      ensures TrustsAt(env, w, s, run, k) <==> FillsBareAt(env, w, s, run, k)
    {
      RunCoherent(env, w, s0, noDenylist, run[..k]);
    }
  }

  lemma {:induction false} RunAllowOk(env: Env, s: State, noDenylist: bool, run: seq<Action>)
    requires !Stale(env, Allow, s.allow) && s.allow.pending.None?
    ensures FlagOk(env, Allow, Run(env, DoInit(env, s, noDenylist), run))
  {
    if run != [] {
      var n := |run| - 1;
      RunAllowOk(env, s, noDenylist, run[..n]);
      RunCoherent(env, Allow, s, noDenylist, run[..n]);
      NextFlagOkIff(env, Allow, Run(env, DoInit(env, s, noDenylist), run[..n]), run[n]);
    }
  }

  // ----- runs of whole tasks

  /** A task from start to end that nothing comes in on. */
  function Task(env: Env, s: State, w: Which, url: Url, a: Attempt): State {
    FlagPart(DoFile(env, s, w, url, a), w)
  }

  lemma RunOneMore(env: Env, s: State, run: seq<Action>, a: Action)
    ensures Run(env, s, run + [a]) == Next(env, Run(env, s, run), a)
  {
    assert (run + [a])[..|run|] == run;
  }

  lemma TwoSteps(env: Env, t: State, w: Which, url: Url, a: Attempt)
    requires Get(t, w).pending.None?
    ensures Next(env, Next(env, t, File(w, url, a)), Flag(w)) == Task(env, t, w, url, a)
  {
    var u := DoFile(env, t, w, url, a);
    assert Next(env, t, File(w, url, a)) == u;
    assert Get(u, w).pending.Some?;
  }

  lemma RunTask(env: Env, s: State, run: seq<Action>, w: Which, url: Url, a: Attempt)
    requires Get(Run(env, s, run), w).pending.None?
    ensures Run(env, s, run + [File(w, url, a)] + [Flag(w)]) == Task(env, Run(env, s, run), w, url, a)
  {
    RunOneMore(env, s, run, File(w, url, a));
    RunOneMore(env, s, run + [File(w, url, a)], Flag(w));
    TwoSteps(env, Run(env, s, run), w, url, a);
  }

  lemma RunInit(env: Env, s: State, noDenylist: bool)
    ensures Run(env, s, [Init(noDenylist)]) == DoInit(env, s, noDenylist)
  {
    RunOneMore(env, s, [], Init(noDenylist));
    assert [] + [Init(noDenylist)] == [Init(noDenylist)];
  }

  /** A URL other than the recorded one. */
  function OtherUrl(l: Listing): (url: Url)
    ensures !Current(l, url)
  {
    if l.url.None? then Url("")
    else
      var url := Url(l.url.value.text + "/");
      assert |url.text| != |l.url.value.text|;
      url
  }

  /** From a stale record, a skipped download flags the list with its invalid file. */
  lemma StaleFlags(env: Env, w: Which, s: State, noDenylist: bool) returns (run: seq<Action>)
    requires Stale(env, w, Get(s, w)) && Quiet(s)
    ensures var i, t := DoInit(env, DoInit(env, s, noDenylist), false), Run(env, DoInit(env, s, noDenylist), run);
            && t == Put(i, w, Get(s, w).(flag := true))
            && !FlagOk(env, w, t)
  {
    var s0 := DoInit(env, s, noDenylist);
    run := [Init(false)] + [File(w, Get(s, w).url.value, NOTHING)] + [Flag(w)];
    RunInit(env, s0, false);
    RunTask(env, s0, [Init(false)], w, Get(s, w).url.value, NOTHING);
  }

  /** The allow list's flag can be trusted over every run if and only if its record is not stale
      at the first initialisation. */
  lemma AllowFlagTrueIff(env: Env, s: State, noDenylist: bool)
    requires Quiet(s)
    ensures (forall run :: FlagOk(env, Allow, Run(env, DoInit(env, s, noDenylist), run))) <==>
            !Stale(env, Allow, s.allow)
  {
    if Stale(env, Allow, s.allow) {
      var run := StaleFlags(env, Allow, s, noDenylist);
    } else {
      forall run
        ensures FlagOk(env, Allow, Run(env, DoInit(env, s, noDenylist), run))
      {
        RunAllowOk(env, s, noDenylist, run);
      }
    }
  }

  /** No deny list wanted, then its file unlinked, then one asked for in vain: it is flagged,
      wanted and has no file. */
  lemma BareDenylist(env: Env, s: State, noDenylist: bool) returns (run: seq<Action>)
    requires Quiet(s)
    ensures var t := Run(env, DoInit(env, s, noDenylist), run);
            && t.deny.flag && t.deny.file.None? && t.wanted && !FlagOk(env, Deny, t)
            && Quiet(t) && t.allow == s.allow.(flag := FileOk(env, Allow, s.allow.file))
            && (t.callback <==> !t.allow.flag)
  {
    var s0 := DoInit(env, s, noDenylist);
    RunInit(env, s0, true);
    RunOneMore(env, s0, [Init(true)], Unlink(true, true));
    var r := [Init(true)] + [Unlink(true, true)];
    run := r + [File(Deny, Url("x"), NOTHING)] + [Flag(Deny)];
    assert Url("x").text != Url("").text;
    RunTask(env, s0, r, Deny, Url("x"), NOTHING);
  }

  // ----- firing

  predicate BothOk(env: Env, s: State) {
    ListOk(env, Allow, s) && ListOk(env, Deny, s)
  }

  /** If the step calls back, both lists are valid. */
  predicate FiresOk(env: Env, s: State, a: Action) {
    Enabled(s, a) && Step(env, s, a).fired > s.fired ==> BothOk(env, Step(env, s, a))
  }

  function Other(w: Which): Which {
    if w.Allow? then Deny else Allow
  }

  /** A download that is about to be flagged while the callback waits and the other list is
      flagged finds that other list valid. */
  predicate FireGuard(env: Env, s: State, a: Action) {
    a.Flag? && Get(s, a.which).pending == Some(Updated) && s.callback && Get(s, Other(a.which)).flag ==>
      ListOk(env, Other(a.which), s)
  }

  lemma FiresOkIff(env: Env, s: State, a: Action)
    requires UpdatedOk(env, Allow, s.allow) && UpdatedOk(env, Deny, s.deny)
    ensures FiresOk(env, s, a) <==> FireGuard(env, s, a)
  {
  }

  /** Along any run after an initialisation: a step fires only with both lists valid exactly when
      it meets the guard; and where both flags can be trusted, every step does. */
  lemma FiringAlong(env: Env, s0: State, noDenylist: bool, run: seq<Action>, k: nat)
    requires Quiet(s0) && k < |run|
    ensures var t := StateAt(env, DoInit(env, s0, noDenylist), run, k);
            && (FiresOk(env, t, run[k]) <==> FireGuard(env, t, run[k]))
            && (FlagOk(env, Allow, t) && FlagOk(env, Deny, t) ==> FiresOk(env, t, run[k]))
  {
    var s := DoInit(env, s0, noDenylist);
    RunUpdatedOk(env, Allow, s, run[..k]);
    RunUpdatedOk(env, Deny, s, run[..k]);
    FiresOkIff(env, StateAt(env, s, run, k), run[k]);
  }

  ghost predicate SomeOk(env: Env, w: Which) {
    exists c :: Ok(env, w, c)
  }

  lemma AcceptedNext(env: Env, t: State, o: Which, c: Content)
    requires Get(t, o).pending.None? && Ok(env, o, c)
    ensures var u := Next(env, t, File(o, OtherUrl(Get(t, o)), Good(c)));
            && Get(u, o).pending == Some(Updated) && FileOk(env, o, Get(u, o).file)
            && Get(u, Other(o)) == Get(t, Other(o)) && u.callback == t.callback && u.wanted == (t.wanted || o.Deny?)
  {
  }

  /** A list flagged without being valid, then an accepted download of the other one. */
  lemma FlaggedMisfires(env: Env, w: Which, s0: State, before: seq<Action>, c: Content) returns (run: seq<Action>)
    requires var t := Run(env, s0, before);
             Quiet(t) && Get(t, w).flag && t.callback && !ListOk(env, w, t) && (w.Allow? || t.wanted)
    requires Ok(env, Other(w), c)
    ensures !FiresOk(env, Run(env, s0, run), Flag(Other(w)))
  {
    var t, o := Run(env, s0, before), Other(w);
    var a := File(o, OtherUrl(Get(t, o)), Good(c));
    run := before + [a];
    RunOneMore(env, s0, before, a);
    AcceptedNext(env, t, o, c);
    assert Other(o) == w;
    var u := Next(env, t, a);
    FiresOkIff(env, u, Flag(o));
    assert !FireGuard(env, u, Flag(o));
  }

  /** A caller can tell from the files and the records: with a valid allow list the deny list's
      record is not stale; without one, none can be had, and a stale one stands beside no deny
      list that can. */
  ghost predicate SafeStart(env: Env, s: State) {
    if FileOk(env, Allow, s.allow.file) then !Stale(env, Deny, s.deny)
    else !SomeOk(env, Allow) && !(Stale(env, Allow, s.allow) && SomeOk(env, Deny))
  }

  lemma UnsafeMisfires(env: Env, s: State, noDenylist: bool) returns (run: seq<Action>, a: Action)
    requires Quiet(s) && !SafeStart(env, s)
    ensures !FiresOk(env, Run(env, DoInit(env, s, noDenylist), run), a)
  {
    var s0 := DoInit(env, s, noDenylist);
    if FileOk(env, Allow, s.allow.file) {
      run := StaleFlags(env, Deny, s, noDenylist);
      run := FlaggedMisfires(env, Deny, s0, run, s.allow.file.value);
      a := Flag(Allow);
    } else if SomeOk(env, Allow) {
      var c :| Ok(env, Allow, c);
      run := BareDenylist(env, s, noDenylist);
      run := FlaggedMisfires(env, Deny, s0, run, c);
      a := Flag(Allow);
    } else {
      var c :| Ok(env, Deny, c);
      run := StaleFlags(env, Allow, s, noDenylist);
      run := FlaggedMisfires(env, Allow, s0, run, c);
      a := Flag(Deny);
    }
  }

  // ----- calling back as soon as both are flagged

  predicate NotOwed(s: State) {
    s.allow.flag && s.deny.flag ==> !s.callback
  }

  lemma NextNotOwed(env: Env, s: State, a: Action)
    requires NotOwed(s) && Coherent(env, Allow, s.allow) && Coherent(env, Deny, s.deny)
    ensures NotOwed(Next(env, s, a))
  {
  }

  lemma {:induction false} RunNotOwed(env: Env, s: State, noDenylist: bool, run: seq<Action>)
    requires Quiet(s) && !Stale(env, Allow, s.allow) && !Stale(env, Deny, s.deny)
    ensures NotOwed(Run(env, DoInit(env, s, noDenylist), run))
  {
    if run != [] {
      var n := |run| - 1;
      RunNotOwed(env, s, noDenylist, run[..n]);
      RunCoherent(env, Allow, s, noDenylist, run[..n]);
      RunCoherent(env, Deny, s, noDenylist, run[..n]);
      NextNotOwed(env, Run(env, DoInit(env, s, noDenylist), run[..n]), run[n]);
    }
  }

  /** A valid allow list stays valid, and flagged. */
  lemma {:induction false} ValidAllowStays(env: Env, s: State, noDenylist: bool, run: seq<Action>)
    requires FileOk(env, Allow, s.allow.file) && s.allow.pending.None?
    ensures var t := Run(env, DoInit(env, s, noDenylist), run); FileOk(env, Allow, t.allow.file) && t.allow.flag
  {
    if run != [] {
      ValidAllowStays(env, s, noDenylist, run[..|run| - 1]);
    }
  }

  lemma SafeWithAllow(env: Env, s: State, noDenylist: bool, run: seq<Action>, a: Action)
    requires Quiet(s) && FileOk(env, Allow, s.allow.file) && !Stale(env, Deny, s.deny)
    ensures FiresOk(env, Run(env, DoInit(env, s, noDenylist), run), a)
  {
    var s0 := DoInit(env, s, noDenylist);
    ValidAllowStays(env, s, noDenylist, run);
    RunNotOwed(env, s, noDenylist, run);
    RunUpdatedOk(env, Allow, s0, run);
    RunUpdatedOk(env, Deny, s0, run);
    FiresOkIff(env, Run(env, s0, run), a);
  }

  lemma SafeWithoutAllow(env: Env, s: State, noDenylist: bool, run: seq<Action>, a: Action)
    requires Quiet(s) && !SomeOk(env, Allow) && !(Stale(env, Allow, s.allow) && SomeOk(env, Deny))
    ensures FiresOk(env, Run(env, DoInit(env, s, noDenylist), run), a)
  {
    var s0 := DoInit(env, s, noDenylist);
    var t := Run(env, s0, run);
    RunUpdatedOk(env, Allow, s0, run);
    RunUpdatedOk(env, Deny, s0, run);
    FiresOkIff(env, t, a);
    assert t.allow.file.Some? ==> !Ok(env, Allow, t.allow.file.value);
    assert t.deny.file.Some? && Ok(env, Deny, t.deny.file.value) ==> SomeOk(env, Deny);
    if !Stale(env, Allow, s.allow) {
      RunAllowOk(env, s, noDenylist, run);
    }
  }

  /** The callback fires only with both lists valid, over every run, if and only if the start is
      safe. */
  lemma FiresOnlyWhenBothValidIff(env: Env, s: State, noDenylist: bool)
    requires Quiet(s)
    ensures (forall run, a :: FiresOk(env, Run(env, DoInit(env, s, noDenylist), run), a)) <==> SafeStart(env, s)
  {
    if !SafeStart(env, s) {
      var run, a := UnsafeMisfires(env, s, noDenylist);
    } else {
      forall run, a
        ensures FiresOk(env, Run(env, DoInit(env, s, noDenylist), run), a)
      {
        if FileOk(env, Allow, s.allow.file) {
          SafeWithAllow(env, s, noDenylist, run, a);
        } else {
          SafeWithoutAllow(env, s, noDenylist, run, a);
        }
      }
    }
  }

  /** With a stale allow list and no deny list wanted, a skipped download flags both lists and
      the callback is still waiting. */
  lemma StaleAllowOwes(env: Env, s: State, noDenylist: bool) returns (run: seq<Action>)
    requires Stale(env, Allow, s.allow) && Quiet(s)
    ensures !NotOwed(Run(env, DoInit(env, s, noDenylist), run))
  {
    var s0, url := DoInit(env, s, noDenylist), s.allow.url.value;
    RunInit(env, s0, true);
    RunTask(env, s0, [Init(true)], Allow, url, NOTHING);
    run := [Init(true)] + [File(Allow, url, NOTHING)] + [Flag(Allow)];
  }

  /** With a stale deny list, an accepted allow list does not call back, and then a skipped
      download of the deny list does not either. */
  lemma StaleDenyOwes(env: Env, s: State, noDenylist: bool, c: Content) returns (run: seq<Action>)
    requires Stale(env, Deny, s.deny) && Quiet(s) && env.allowOk(c)
    ensures !NotOwed(Run(env, DoInit(env, s, noDenylist), run))
  {
    var s0, url, other := DoInit(env, s, noDenylist), s.deny.url.value, OtherUrl(s.allow);
    RunInit(env, s0, false);
    var first := [Init(false)] + [File(Allow, other, Good(c))] + [Flag(Allow)];
    RunTask(env, s0, [Init(false)], Allow, other, Good(c));
    RunTask(env, s0, first, Deny, url, NOTHING);
    run := first + [File(Deny, url, NOTHING)] + [Flag(Deny)];
  }

  /** Whenever both lists are flagged the callback has been called, over every run, if and only
      if the allow list's record is not stale and a stale deny list has no valid allow list to
      wait for. */
  lemma CalledWhenBothFlaggedIff(env: Env, s: State, noDenylist: bool)
    requires Quiet(s)
    ensures (forall run :: NotOwed(Run(env, DoInit(env, s, noDenylist), run))) <==>
            !Stale(env, Allow, s.allow) && !(Stale(env, Deny, s.deny) && SomeOk(env, Allow))
  {
    if Stale(env, Allow, s.allow) {
      var run := StaleAllowOwes(env, s, noDenylist);
    } else if Stale(env, Deny, s.deny) && SomeOk(env, Allow) {
      var c :| Ok(env, Allow, c);
      var run := StaleDenyOwes(env, s, noDenylist, c);
    } else {
      forall run
        ensures NotOwed(Run(env, DoInit(env, s, noDenylist), run))
      {
        if !Stale(env, Deny, s.deny) {
          RunNotOwed(env, s, noDenylist, run);
        } else {
          RunAllowOk(env, s, noDenylist, run);
          var file := Run(env, DoInit(env, s, noDenylist), run).allow.file;
          assert file.Some? ==> !Ok(env, Allow, file.value);
        }
      }
    }
  }

  // ----- instances

  const NO_LIST := Listing(None, None, None, false, None, [])

  /** An allow list that the validator no longer takes, and a fresh deny list: the callback has
      fired, and the allow list's file is invalid. */
  lemma FiresOnInvalidAllowlist(c: Content, d: Content) returns (env: Env, s: State, run: seq<Action>)
    requires c != d
    ensures Quiet(s) && env.denyOk(d)
    ensures var t := Run(env, DoInit(env, s, false), run);
            t.fired == 1 && !FileOk(env, Allow, t.allow.file) && FileOk(env, Deny, t.deny.file) && t.wanted
  {
    env := Env(x => x != c, x => true);
    var url := Url("a");
    s := State(NO_LIST.(file := Some(c), url := Some(url), md5 := Some(Of(c))), NO_LIST, false, false, 0);
    var s0 := DoInit(env, s, false);
    assert Run(env, s0, []) == s0;
    var first := [] + [File(Allow, url, NOTHING)] + [Flag(Allow)];
    RunTask(env, s0, [], Allow, url, NOTHING);
    run := first + [File(Deny, url, Good(d))] + [Flag(Deny)];
    RunTask(env, s0, first, Deny, url, Good(d));
  }

  /** No deny list was wanted at the initialisation, one is asked for later and its download
      fails: the callback fires on the allow list alone. */
  lemma WaiverOutlivesRequest(env: Env, c: Content, url: Url)
    requires env.allowOk(c)
    ensures var s := DoInit(env, State(NO_LIST, NO_LIST, false, false, 0), true);
            var t := Task(env, Task(env, s, Deny, url, NOTHING), Allow, url, Good(c));
            t.fired == 1 && t.deny.flag && t.deny.file.None? && t.wanted
  {
  }

  /** The same with a deny list that was valid at the initialisation and unlinked since. */
  lemma UnlinkOutlivesRequest(env: Env, c: Content, d: Content, url: Url)
    requires env.allowOk(c) && env.denyOk(d)
    ensures var s := DoInit(env, State(NO_LIST, NO_LIST.(file := Some(d)), true, false, 0), false);
            var u := Task(env, DoUnlink(s, true, true), Deny, url, NOTHING);
            var t := Task(env, u, Allow, url, Good(c));
            t.fired == 1 && t.deny.flag && t.deny.file.None? && t.wanted
  {
  }

  /** The other way round: unlinking does not flag the list, so a deny list that is no longer
      wanted keeps the callback waiting beside a valid allow list. */
  lemma UnwantedHoldsBack(env: Env, c: Content)
    requires env.allowOk(c)
    ensures var s := DoInit(env, State(NO_LIST.(file := Some(c)), NO_LIST, true, false, 0), false);
            var t := DoUnlink(s, true, true);
            BothOk(env, t) && t.callback && t.fired == 0
  {
  }
}
