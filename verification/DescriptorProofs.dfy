/**
 Over every run of update tasks: what the files hold, when a download is skipped, and when the
 ready callback fires after an initialisation.
 */
module DescriptorProofs {
  import opened Basics
  import opened Descriptors

  // ----- the files

  /** What the file would hold if only accepted downloads replaced it. */
  function Latest(first: Option<Content>, accepted: seq<Accepted>): Option<Content> {
    if accepted == [] then first else Some(accepted[|accepted| - 1].content)
  }

  ghost predicate FilesInv(env: Env, w: Which, first: Option<Content>, l: Listing) {
    && (forall i :: 0 <= i < |l.accepted| ==> Ok(env, w, l.accepted[i].content))
    && (l.file == Latest(first, l.accepted) || (w.Deny? && l.file.None?))
  }

  lemma FilePartKeepsFiles(env: Env, w: Which, first: Option<Content>, l: Listing, url: Url, a: Attempt)
    requires FilesInv(env, w, first, l)
    ensures FilesInv(env, w, first, FilePart(env, w, l, url, a))
  {
  }

  lemma StepKeepsFiles(env: Env, w: Which, first: Option<Content>, s: State, a: Action)
    requires FilesInv(env, w, first, Get(s, w))
    ensures FilesInv(env, w, first, Get(Step(env, s, a), w))
  {
    if a.File? && a.list == w {
      FilePartKeepsFiles(env, w, first, Get(s, w), a.url, a.attempt);
    }
  }

  /** A list file is its initial content or a download that validated: the latest one accepted,
      except that the deny list's file may have been unlinked. */
  lemma {:induction false} FileIsInitialOrValidated(env: Env, s: State, run: seq<Action>, w: Which)
    requires Get(s, w).accepted == []
    ensures FilesInv(env, w, Get(s, w).file, Get(Run(env, s, run), w))
  {
    if run != [] {
      var n := |run| - 1;
      FileIsInitialOrValidated(env, s, run[..n], w);
      StepKeepsFiles(env, w, Get(s, w).file, Run(env, s, run[..n]), run[n]);
    }
  }

  // ----- skipping

  function StateAt(env: Env, s: State, run: seq<Action>, k: nat): State
    requires k <= |run|
  {
    Run(env, s, run[..k])
  }

  lemma StateNext(env: Env, s: State, run: seq<Action>, k: nat)
    requires k < |run|
    ensures StateAt(env, s, run, k + 1) == Next(env, StateAt(env, s, run, k), run[k])
  {
    assert run[..k + 1][..k] == run[..k];
  }

  /** If a task for the recorded URL would skip, then the file is what was last accepted, and it
      was accepted from that URL. */
  predicate RecordTrue(l: Listing) {
    l.url.Some? && Current(l, l.url.value) ==>
      l.accepted != [] && l.accepted[|l.accepted| - 1] == Accepted(l.url.value, l.file.value)
  }

  /** The URL is saved, was already there or is missing, or the recorded digest will not be that
      of the new file. */
  predicate RecordsWell(l: Listing, url: Url, c: Content, a: Attempt) {
    a.savesUrl || l.url == Some(url) || l.url.None? || !(a.savesMd5 || l.md5 == Some(Of(c)))
  }

  lemma RecordTrueIff(l: Listing, url: Url, c: Content, a: Attempt)
    ensures RecordTrue(Record(l, url, c, a)) <==> RecordsWell(l, url, c, a)
  {
  }

  /** If the step accepts a download of the list, it records it well. */
  predicate RecordStep(env: Env, w: Which, s: State, a: Action) {
    a.File? && a.list == w && Enabled(s, a) && !Current(Get(s, w), a.url) && Accepts(env, w, a.attempt) ==>
      RecordsWell(Get(s, w), a.url, a.attempt.body.value, a.attempt)
  }

  lemma NextRecordIff(env: Env, w: Which, s: State, a: Action)
    requires RecordTrue(Get(s, w))
    ensures RecordTrue(Get(Next(env, s, a), w)) <==> RecordStep(env, w, s, a)
  {
    if a.File? && a.list == w && Accepts(env, w, a.attempt) {
      RecordTrueIff(Get(s, w), a.url, a.attempt.body.value, a.attempt);
    }
  }

  predicate RecordTrueAt(env: Env, w: Which, s: State, run: seq<Action>, k: nat)
    requires k <= |run|
  {
    RecordTrue(Get(StateAt(env, s, run, k), w))
  }

  predicate RecordStepAt(env: Env, w: Which, s: State, run: seq<Action>, k: nat)
    requires k < |run|
  {
    RecordStep(env, w, StateAt(env, s, run, k), run[k])
  }

  /** A record stays true along a run if and only if every download accepted in it was recorded
      well: a task then skips only what was last accepted, from the same URL. */
  lemma RecordTrueAlongIff(env: Env, s: State, run: seq<Action>, w: Which)
    requires RecordTrue(Get(s, w))
    ensures (forall k :: 0 <= k <= |run| ==> RecordTrueAt(env, w, s, run, k)) <==>
            (forall k :: 0 <= k < |run| ==> RecordStepAt(env, w, s, run, k))
  {
    var n := |run|;
    var p := seq(n + 1, k requires 0 <= k <= n => RecordTrueAt(env, w, s, run, k));
    var q := seq(n, k requires 0 <= k < n => RecordStepAt(env, w, s, run, k));
    assert StateAt(env, s, run, 0) == s;
    forall k | 0 <= k < n && p[k]
      ensures p[k + 1] <==> q[k]
    {
      StateNext(env, s, run, k);
      NextRecordIff(env, w, StateAt(env, s, run, k), run[k]);
    }
    FirstBreak(p, q);
    assert forall k :: 0 <= k <= n ==> p[k] == RecordTrueAt(env, w, s, run, k);
    assert forall k :: 0 <= k < n ==> q[k] == RecordStepAt(env, w, s, run, k);
  }

  lemma SkipsOnlyWhatWasAccepted(env: Env, s: State, run: seq<Action>, w: Which, url: Url, a: Attempt)
    requires RecordTrue(Get(s, w)) && forall k :: 0 <= k < |run| ==> RecordStepAt(env, w, s, run, k)
    requires var l := Get(Run(env, s, run), w);
             l.pending.None? && FilePart(env, w, l, url, a).pending == Some(UpToDate)
    ensures var l := Get(Run(env, s, run), w);
            l.accepted != [] && l.accepted[|l.accepted| - 1] == Accepted(url, l.file.value)
  {
    RecordTrueAlongIff(env, s, run, w);
    assert RecordTrueAt(env, w, s, run, |run|);
    assert run[..|run|] == run;
  }

  /** Where the URL is not saved, a task can skip on the old one while the file came from
      another. */
  lemma UnsavedUrlSkipsWrongly(env: Env, c: Content, d: Content)
    requires env.allowOk(d) && c != d
    ensures var l := Listing(Some(c), Some(Url("a")), Some(Of(c)), true, None, [Accepted(Url("a"), c)]);
            var m := FilePart(env, Allow, l, Url("b"), Attempt(Some(d), true, false, true)).(pending := None);
            && RecordTrue(l)
            && FilePart(env, Allow, m, Url("a"), NOTHING).pending == Some(UpToDate)
            && m.file == Some(d) && m.accepted[|m.accepted| - 1].url != Url("a")
  {
    assert "a"[0] != "b"[0];
  }

  /** A download that brings nothing, and one that does. */
  const NOTHING := Attempt(None, false, false, false)

  function Good(c: Content): Attempt {
    Attempt(Some(c), true, true, true)
  }

  // ----- the callback: once per initialisation

  predicate NoInit(run: seq<Action>) {
    forall i :: 0 <= i < |run| ==> !run[i].Init?
  }

  lemma {:induction false} CallbackSpent(env: Env, s: State, run: seq<Action>)
    requires NoInit(run)
    ensures Run(env, s, run).fired + Bit(Run(env, s, run).callback) == s.fired + Bit(s.callback)
  {
    if run != [] {
      CallbackSpent(env, s, run[..|run| - 1]);
    }
  }

  /** From any state: between one initialisation and the next the callback fires at most once,
      and it has fired exactly when it is no longer waiting. */
  lemma CallbackOncePerInit(env: Env, s: State, noDenylist: bool, run: seq<Action>)
    requires NoInit(run)
    ensures var t := Run(env, DoInit(env, s, noDenylist), run);
            t.fired == s.fired + if t.callback then 0 else 1
  {
    CallbackSpent(env, DoInit(env, s, noDenylist), run);
  }
}
