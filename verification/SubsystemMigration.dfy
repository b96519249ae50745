/**
 Migration of a subsystem's persisted version at each start
 (core/src/subsystemManager.c:345-414). The version is stored as decimal text under a property.
 */
module SubsystemMigration {
  import opened Basics
  import opened Decimal

  const MAX_VERSION: nat := 65535

  newtype Version = v: int | 0 <= v <= 65535

  /** What a start brings: the version built in, whether a migration routine is registered, and
      how the routine and the saving of the property turn out. */
  datatype Start = Start(version: Version, hasMigrate: bool, migrates: bool, saves: bool)

  /** A call of a migration routine and whether its target version was then recorded. */
  datatype Call = Call(from: Version, to: Version, succeeded: bool, recorded: bool)

  /** The property's text, if present. */
  type Store = Option<string>

  /** The version on record: 0 when there is none, nothing when the text is no 16-bit number. */
  function OnRecord(store: Store): Option<Version> {
    match store
    case None => Some(0)
    case Some(text) =>
      match Parse(text, MAX_VERSION)
      case None => None
      case Some(n) => Some(n as Version)
  }

  function Print16(v: Version): string {
    Print(v as nat)
  }

  lemma RecordRoundTrip(v: Version)
    ensures OnRecord(Some(Print16(v))) == Some(v)
  {
    ParsePrint(v as nat, MAX_VERSION);
  }

  function CallOf(prev: Version, st: Start): seq<Call> {
    if prev < st.version && st.hasMigrate then [Call(prev, st.version, st.migrates, st.migrates && st.saves)] else []
  }

  function StoreAfter(store: Store, prev: Version, st: Start): Store {
    if st.saves && (prev == st.version || (prev < st.version && st.hasMigrate && st.migrates))
    then Some(Print16(st.version))
    else store
  }

  datatype State = State(store: Store, calls: seq<Call>)

  function Check(s: State, st: Start): State {
    match OnRecord(s.store)
    case None => s
    case Some(prev) => State(StoreAfter(s.store, prev, st), s.calls + CallOf(prev, st))
  }

  function Run(s: State, starts: seq<Start>): State {
    if starts == [] then s else Check(Run(s, starts[..|starts| - 1]), starts[|starts| - 1])
  }

  class SubsystemManager {
    var property: Store
    ghost var calls: seq<Call>

    constructor (property: Store)
      ensures this.property == property && calls == []
    {
      this.property, calls := property, [];
    }

    method CheckSubsystemForMigration(st: Start)
      modifies this
      ensures State(property, calls) == Check(old(State(property, calls)), st)
    {
      var prev: Version := 0;
      if property.Some? {
        var parsed := Parse(property.value, MAX_VERSION);
        if parsed.None? {
          return;
        }
        prev := parsed.value as Version;
      }
      var saveNewVersion := false;
      if prev < st.version {
        if st.hasMigrate {
          saveNewVersion := st.migrates;
          calls := calls + [Call(prev, st.version, st.migrates, st.migrates && st.saves)];
        }
      } else if prev == st.version {
        saveNewVersion := true;
      }
      if saveNewVersion && st.saves {
        property := Some(Print16(st.version));
      }
    }
  }

  // ----- one start

  /** What is on record after a start, without the text: the target of a recorded migration,
      otherwise what it was. */
  lemma CheckRecords(s: State, st: Start)
    ensures OnRecord(s.store).None? ==> Check(s, st) == s
    ensures OnRecord(s.store).Some? ==>
              var prev := OnRecord(s.store).value;
              && OnRecord(Check(s, st).store) ==
                 Some(if prev < st.version && st.hasMigrate && st.migrates && st.saves then st.version else prev)
              && Check(s, st).calls == s.calls + CallOf(prev, st)
  {
    RecordRoundTrip(st.version);
  }

  /** The routine is called exactly when there is one and the version on record is readable and
      below the built-in one; once, with these two versions, whatever comes of it. */
  lemma MigrateCalledIff(s: State, st: Start)
    ensures Check(s, st).calls ==
            match OnRecord(s.store)
            case None => s.calls
            case Some(prev) =>
              if prev < st.version && st.hasMigrate
              then s.calls + [Call(prev, st.version, st.migrates, st.migrates && st.saves)] else s.calls
  {
  }

  /** The property is written exactly when saving works and the version on record is the built-in
      one, or has just been migrated to it; a version above it is left alone. */
  lemma PropertyAfter(s: State, st: Start)
    ensures Check(s, st).store ==
            match OnRecord(s.store)
            case None => s.store
            case Some(prev) =>
              if !st.saves || prev > st.version || (prev < st.version && !(st.hasMigrate && st.migrates)) then s.store
              else Some(Print(st.version as nat))
  {
  }

  /** The record after a successful migration is its target exactly when saving worked; if not,
      the next start begins where this one did. */
  lemma RecordedIffSaved(s: State, st: Start)
    requires OnRecord(s.store).Some? && OnRecord(s.store).value < st.version && st.hasMigrate && st.migrates
    ensures OnRecord(Check(s, st).store) == Some(st.version) <==> st.saves
    ensures !st.saves ==> Check(s, st).store == s.store
  {
    CheckRecords(s, st);
  }

  // ----- every sequence of starts

  /** Where the recorded migrations of a log have led to, starting at a version. */
  function Reached(calls: seq<Call>, first: Version): Version {
    if calls == [] then first
    else if calls[|calls| - 1].recorded then calls[|calls| - 1].to
    else Reached(calls[..|calls| - 1], first)
  }

  /** Every call goes up, and starts where the recorded ones before it have led to. */
  ghost predicate Chain(calls: seq<Call>, first: Version) {
    forall k :: 0 <= k < |calls| ==>
      calls[k].from < calls[k].to && calls[k].from == Reached(calls[..k], first)
  }

  lemma ChainOneMore(calls: seq<Call>, first: Version, c: Call)
    requires Chain(calls, first) && c.from < c.to && c.from == Reached(calls, first)
    ensures Chain(calls + [c], first)
    ensures Reached(calls + [c], first) == if c.recorded then c.to else Reached(calls, first)
  {
    var more := calls + [c];
    assert more[..|calls|] == calls;
    forall k | 0 <= k < |more|
      ensures more[k].from < more[k].to && more[k].from == Reached(more[..k], first)
    {
      assert more[..k] == calls[..k];
      assert k == |calls| ==> calls[..k] == calls;
    }
  }

  lemma CheckChains(s: State, st: Start, first: Version)
    requires Chain(s.calls, first) && OnRecord(s.store) == Some(Reached(s.calls, first))
    ensures Chain(Check(s, st).calls, first)
    ensures OnRecord(Check(s, st).store) == Some(Reached(Check(s, st).calls, first))
  {
    var prev := OnRecord(s.store).value;
    CheckRecords(s, st);
    if prev < st.version && st.hasMigrate {
      ChainOneMore(s.calls, first, CallOf(prev, st)[0]);
    } else {
      assert s.calls + CallOf(prev, st) == s.calls;
    }
  }

  /** Over any sequence of starts, migrate is only called with old below new, every call starts
      where the recorded migrations before it ended, and the record is where they have led. */
  lemma {:induction false} MigrationsChain(store: Store, starts: seq<Start>)
    requires OnRecord(store).Some?
    ensures var s, first := Run(State(store, []), starts), OnRecord(store).value;
            Chain(s.calls, first) && OnRecord(s.store) == Some(Reached(s.calls, first))
  {
    if starts != [] {
      var n := |starts| - 1;
      MigrationsChain(store, starts[..n]);
      CheckChains(Run(State(store, []), starts[..n]), starts[n], OnRecord(store).value);
    }
  }

  /** An unreadable version stops all migration and is left as it is. */
  lemma {:induction false} UnreadableStays(store: Store, starts: seq<Start>)
    requires OnRecord(store).None?
    ensures Run(State(store, []), starts) == State(store, [])
  {
    if starts != [] {
      UnreadableStays(store, starts[..|starts| - 1]);
    }
  }

  /** The version on record never decreases over any sequence of starts. */
  lemma {:induction false} NeverDecreases(s: State, starts: seq<Start>)
    requires OnRecord(s.store).Some?
    ensures OnRecord(Run(s, starts).store).Some?
    ensures OnRecord(s.store).value <= OnRecord(Run(s, starts).store).value
  {
    if starts != [] {
      var n := |starts| - 1;
      NeverDecreases(s, starts[..n]);
      CheckRecords(Run(s, starts[..n]), starts[n]);
    }
  }

  /** A recorded migration was successful. */
  lemma {:induction false} RecordedSucceeded(store: Store, starts: seq<Start>, k: nat)
    requires k < |Run(State(store, []), starts).calls|
    ensures var c := Run(State(store, []), starts).calls[k]; c.recorded ==> c.succeeded
  {
    if starts != [] {
      var n := |starts| - 1;
      if k < |Run(State(store, []), starts[..n]).calls| {
        RecordedSucceeded(store, starts[..n], k);
      }
    }
  }

  /** Over every sequence of starts, a call begins where the one before it ended, if that was
      successful, and where it began if not, exactly when success and record agree for it. */
  lemma ChainLinkIff(store: Store, starts: seq<Start>, k: nat)
    requires OnRecord(store).Some? && k + 1 < |Run(State(store, []), starts).calls|
    ensures var calls := Run(State(store, []), starts).calls;
            && (calls[k].recorded ==> calls[k].succeeded)
            && (calls[k + 1].from == (if calls[k].succeeded then calls[k].to else calls[k].from) <==>
                (calls[k].succeeded <==> calls[k].recorded))
  {
    var calls, first := Run(State(store, []), starts).calls, OnRecord(store).value;
    MigrationsChain(store, starts);
    RecordedSucceeded(store, starts, k);
    assert calls[..k + 1][..k] == calls[..k];
    assert calls[k].from < calls[k].to && calls[k].from == Reached(calls[..k], first);
    assert calls[k + 1].from == Reached(calls[..k + 1], first);
  }

  /** Where every save works they agree, and the successful migrations alone form the chain. */
  lemma SavedChain(store: Store, starts: seq<Start>, k: nat)
    requires OnRecord(store).Some?
    requires forall i :: 0 <= i < |starts| ==> starts[i].saves
    requires k + 1 < |Run(State(store, []), starts).calls|
    ensures var calls := Run(State(store, []), starts).calls;
            calls[k + 1].from == if calls[k].succeeded then calls[k].to else calls[k].from
  {
    ChainLinkIff(store, starts, k);
    SuccessIsRecorded(store, starts, k);
  }

  lemma {:induction false} SuccessIsRecorded(store: Store, starts: seq<Start>, k: nat)
    requires forall i :: 0 <= i < |starts| ==> starts[i].saves
    requires k < |Run(State(store, []), starts).calls|
    ensures var c := Run(State(store, []), starts).calls[k]; c.succeeded <==> c.recorded
  {
    if starts != [] {
      var n := |starts| - 1;
      if k < |Run(State(store, []), starts[..n]).calls| {
        SuccessIsRecorded(store, starts[..n], k);
      }
    }
  }

  /** Without it they do not: a migration that could not be recorded is run again. */
  lemma UnsavedRunsTwice() returns (starts: seq<Start>)
    ensures var calls := Run(State(None, []), starts).calls;
            |calls| == 2 && calls[0].succeeded && calls[1].from != calls[0].to && calls[1].from == calls[0].from
  {
    var st := Start(1, true, true, false);
    starts := [st, st];
    assert starts[..1] == [st] && [st][..0] == [];
    assert Run(State(None, []), [st]) == Check(Run(State(None, []), []), st);
    assert Run(State(None, []), [st]).calls == [Call(0, 1, true, false)];
  }
}
