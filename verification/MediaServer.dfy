/**
 The live media server (reference/src/cameraMediaServer.c): one thread accepts viewers, one
 thread pushes the muxer's buffers. This module holds the state guarded by the server's mutex
 and, for each critical section, the method that performs it and the function that says what
 it does. MediaRun interleaves these sections.
 */
module MediaServer {
  import opened Basics

  newtype byte = x: int | 0 <= x < 256
  type Bytes = seq<byte>
  /** Identity of a connection object. */
  type Conn = nat

  const MOOF: Bytes := [0x6D, 0x6F, 0x6F, 0x66]
  const STYP: Bytes := [0x73, 0x74, 0x79, 0x70]

  /** A buffer opens a fragment when its first box is a moof or a styp
      (sections 8.8.4 and 8.16.2 of ISO/IEC 14496-12). */
  predicate IsFragmentStart(data: Bytes) {
    |data| >= 8 && (data[4..8] == MOOF || data[4..8] == STYP)
  }

  /** What the mutex guards, with the references the server holds on connection objects. */
  datatype Core = Core(
    initSegment: Bytes,
    initComplete: bool,
    clients: seq<Conn>,
    pending: seq<Conn>,
    refs: multiset<Conn>)

  function RemoveOne(s: seq<Conn>, c: Conn): (r: seq<Conn>)
    ensures c !in s ==> r == s
    ensures multiset(r) == multiset(s) - multiset{c}
    ensures |r| == if c in s then |s| - 1 else |s|
  {
    if s == [] then []
    else
      assert s == [s[0]] + s[1..];
      if s[0] == c then s[1..] else [s[0]] + RemoveOne(s[1..], c)
  }

  // ----- what each critical section does

  /** A viewer with its header written looks for the init segment, or waits for it. */
  function Lookup(core: Core, c: Conn): Core {
    if core.initComplete then core
    else core.(pending := [c] + core.pending, refs := core.refs + multiset{c})
  }

  /** A viewer whose header write failed takes itself off the pending list. */
  function Withdraw(core: Core, c: Conn): Core {
    if c in core.pending
    then core.(pending := RemoveOne(core.pending, c), refs := core.refs - multiset{c})
    else core
  }

  /** A viewer that has the whole init segment becomes active. */
  function Register(core: Core, c: Conn): Core {
    core.(clients := [c] + core.clients, refs := core.refs + multiset{c})
  }

  /** A pushed buffer extends the init segment, or completes it, or is live. */
  function BeginPush(core: Core, data: Bytes): Core {
    if data == [] then core
    else if !core.initComplete && !IsFragmentStart(data) then core.(initSegment := core.initSegment + data)
    else if !core.initComplete then
      core.(initComplete := true, pending := [], refs := core.refs + multiset(core.clients))
    else core.(refs := core.refs + multiset(core.clients))
  }

  /** A pending viewer that took the init segment becomes active and joins the snapshot. */
  function Promote(core: Core, c: Conn): Core {
    core.(clients := [c] + core.clients, refs := core.refs + multiset{c, c})
  }

  function DropClient(core: Core, c: Conn): Core {
    if c in core.clients
    then core.(clients := RemoveOne(core.clients, c), refs := core.refs - multiset{c})
    else core
  }

  /** Viewers whose write failed leave the client list, one after the other. */
  function DropFailed(core: Core, failed: seq<Conn>): Core
    decreases |failed|
  {
    if failed == [] then core else DropFailed(DropClient(core, failed[0]), failed[1..])
  }

  function Release(core: Core, held: seq<Conn>): Core {
    core.(refs := core.refs - multiset(held))
  }

  function Unreferenced(refs: multiset<Conn>, conns: seq<Conn>): multiset<Conn> {
    refs - multiset(conns)
  }

  function Destroyed(core: Core): Core {
    Core(core.initSegment, core.initComplete, [], [],
         Unreferenced(Unreferenced(core.refs, core.clients), core.pending))
  }

  // ----- the server object

  class CameraMediaServer {
    var initSegment: Bytes
    var initComplete: bool
    var clients: seq<Conn>
    var pendingClients: seq<Conn>
    var refs: multiset<Conn>

    function State(): Core
      reads this
    {
      Core(initSegment, initComplete, clients, pendingClients, refs)
    }

    constructor ()
      ensures State() == Core([], false, [], [], multiset{})
    {
      initSegment, initComplete, clients, pendingClients, refs := [], false, [], [], multiset{};
    }

    method LookupInit(conn: Conn) returns (ready: bool, init: Bytes)
      modifies this
      ensures State() == Lookup(old(State()), conn)
      ensures ready == initComplete && (ready ==> init == initSegment)
    {
      ready := initComplete;
      init := if ready then initSegment else [];
      if !ready {
        pendingClients := [conn] + pendingClients;
        refs := refs + multiset{conn};
      }
    }

    method WithdrawPending(conn: Conn)
      modifies this
      ensures State() == Withdraw(old(State()), conn)
    {
      if conn in pendingClients {
        pendingClients := RemoveOne(pendingClients, conn);
        refs := refs - multiset{conn};
      }
    }

    method RegisterClient(conn: Conn) returns (viewerCount: nat)
      modifies this
      ensures State() == Register(old(State()), conn)
      ensures viewerCount == |clients|
    {
      clients := [conn] + clients;
      refs := refs + multiset{conn};
      viewerCount := |clients|;
    }

    method PushLocked(data: Bytes) returns (live: bool, init: Bytes, pending: seq<Conn>, snapshot: seq<Conn>)
      modifies this
      ensures State() == BeginPush(old(State()), data)
      ensures live == (data != [] && initComplete)
      ensures live ==> init == initSegment && snapshot == clients
      ensures live ==> pending == if old(initComplete) then [] else old(pendingClients)
    {
      live, init, pending, snapshot := false, [], [], [];
      if data == [] {
        return;
      }
      if !initComplete {
        if IsFragmentStart(data) {
          initComplete := true;
          pending := pendingClients;
          pendingClients := [];
        } else {
          initSegment := initSegment + data;
          return;
        }
      }
      init := initSegment;
      snapshot := clients;
      refs := refs + multiset(snapshot);
      live := true;
    }

    method PromoteClient(conn: Conn, snapshot: seq<Conn>) returns (extended: seq<Conn>)
      modifies this
      ensures State() == Promote(old(State()), conn)
      ensures extended == [conn] + snapshot
    {
      clients := [conn] + clients;
      refs := refs + multiset{conn};
      extended := [conn] + snapshot;
      refs := refs + multiset{conn};
    }

    method RemoveFailed(failed: seq<Conn>)
      modifies this
      ensures State() == DropFailed(old(State()), failed)
    {
      for i := 0 to |failed|
        invariant DropFailed(State(), failed[i..]) == DropFailed(old(State()), failed)
      {
        assert failed[i..][1..] == failed[i + 1..];
        if failed[i] in clients {
          clients := RemoveOne(clients, failed[i]);
          refs := refs - multiset{failed[i]};
        }
      }
    }

    method UnrefEach(conns: seq<Conn>)
      modifies this`refs
      ensures refs == Unreferenced(old(refs), conns)
    {
      for i := 0 to |conns|
        invariant refs == old(refs) - multiset(conns[..i])
      {
        ReleaseOneMore(old(refs), conns, i);
        refs := refs - multiset{conns[i]};
      }
      assert conns[..|conns|] == conns;
    }

    method Destroy()
      modifies this`clients, this`pendingClients, this`refs
      ensures State() == Destroyed(old(State()))
    {
      var active, waiting := clients, pendingClients;
      clients, pendingClients := [], [];
      UnrefEach(active);
      UnrefEach(waiting);
    }
  }

  lemma ReleaseOneMore(refs: multiset<Conn>, s: seq<Conn>, i: nat)
    requires i < |s|
    ensures refs - multiset(s[..i]) - multiset{s[i]} == refs - multiset(s[..i + 1])
  {
    assert s[..i + 1] == s[..i] + [s[i]];
  }

  // ----- lists without duplicates, and the references that go with them

  lemma {:induction false} DistinctCounts(s: seq<Conn>)
    requires Distinct(s)
    ensures forall c :: multiset(s)[c] == if c in s then 1 else 0
  {
    if s != [] {
      DistinctCounts(s[1..]);
      assert s == [s[0]] + s[1..];
    }
  }

  lemma DistinctTail(s: seq<Conn>)
    requires Distinct(s) && s != []
    ensures Distinct(s[1..]) && s[0] !in s[1..]
    ensures forall d :: d in s <==> d == s[0] || d in s[1..]
  {
    assert s == [s[0]] + s[1..];
  }

  lemma DistinctCons(c: Conn, s: seq<Conn>)
    requires Distinct(s) && c !in s
    ensures Distinct([c] + s)
    ensures forall d :: d in [c] + s <==> d == c || d in s
  {
  }

  lemma {:induction false} RemoveOneDistinct(s: seq<Conn>, c: Conn)
    requires Distinct(s)
    ensures Distinct(RemoveOne(s, c))
    ensures forall d :: d in RemoveOne(s, c) <==> d in s && d != c
  {
    if s != [] {
      DistinctTail(s);
      if s[0] != c {
        RemoveOneDistinct(s[1..], c);
        DistinctCons(s[0], RemoveOne(s[1..], c));
      }
    }
  }

  lemma DropClientExact(core: Core, c: Conn, others: multiset<Conn>)
    requires Distinct(core.clients)
    requires core.refs == multiset(core.clients) + others
    ensures var after := DropClient(core, c);
            && Distinct(after.clients)
            && (forall d :: d in after.clients <==> d in core.clients && d != c)
            && after.refs == multiset(after.clients) + others
  {
    RemoveOneDistinct(core.clients, c);
    if c in core.clients {
      assert multiset(core.clients)[c] >= 1;
    }
  }

  lemma {:induction false} DropFailedFrame(core: Core, failed: seq<Conn>)
    ensures var after := DropFailed(core, failed);
            after == core.(clients := after.clients, refs := after.refs)
    decreases |failed|
  {
    if failed != [] {
      DropFailedFrame(DropClient(core, failed[0]), failed[1..]);
    }
  }

  /** Dropping the failed viewers removes exactly them, and with each its one reference. */
  lemma {:induction false} DropFailedExact(core: Core, failed: seq<Conn>, others: multiset<Conn>)
    requires Distinct(core.clients)
    requires core.refs == multiset(core.clients) + others
    ensures var after := DropFailed(core, failed);
            && Distinct(after.clients)
            && (forall c :: c in after.clients <==> c in core.clients && c !in failed)
            && after.refs == multiset(after.clients) + others
            && after == core.(clients := after.clients, refs := after.refs)
    decreases |failed|
  {
    DropFailedFrame(core, failed);
    if failed != [] {
      var first, rest := failed[0], failed[1..];
      DropClientExact(core, first, others);
      DropFailedExact(DropClient(core, first), rest, others);
      assert forall c :: c in failed <==> c == first || c in rest;
    }
  }
}
