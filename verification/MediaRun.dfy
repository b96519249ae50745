/**
 Every interleaving of the viewers' handlers with the pushing thread of the media server
 (reference/src/cameraMediaServer.c:161-251 and 344-467). A step is one critical section or
 one socket write made outside the lock. Socket writes have arbitrary outcomes; a write that
 fails may have sent any part of its bytes and the connection takes no more.
 */
module MediaRun {
  import opened Basics
  import opened MediaServer

  /** Outcome of writing a whole buffer: all of it, or a failure after some bytes. */
  datatype Outcome = Accepted | Broken(sent: nat)

  /** Where the handler of a connection stands (onIncoming). */
  datatype Handler =
    | Greeting                            // HTTP header not yet written
    | Greeted(ok: bool)                   // header attempted, lock not yet taken
    | Deferred                            // returned, waiting on the pending list
    | Withdrawing                         // header failed while deferred
    | Catching(init: Bytes, ok: bool)     // holds a copy of the init segment
    | CaughtUp                            // init segment written, not yet registered
    | Left                                // returned

  /** A connection: its handler, whether its socket still works, the bytes it received, and
      the index of the first fragment buffer meant for it once it is a client. */
  datatype Viewer = Viewer(handler: Handler, open: bool, got: Bytes, joined: nat)

  /** Where the pushing thread stands (cameraMediaServerPushBuffer). */
  datatype Pusher =
    | Idle
    | Promoting(data: Bytes, queue: seq<Conn>, turn: nat, landed: bool, snapshot: seq<Conn>)
    | Fanning(data: Bytes, snapshot: seq<Conn>, done: nat, failed: seq<Conn>)

  datatype State = State(
    core: Core,
    viewers: map<Conn, Viewer>,
    pusher: Pusher,
    greeting: Bytes,         // the HTTP response header written first to every viewer
    headers: seq<Bytes>,     // buffers pushed before the first fragment
    frags: seq<Bytes>)       // buffers pushed from the first fragment on

  datatype Action =
    | Accept(conn: Conn)
    | WriteHeader(conn: Conn, outcome: Outcome)
    | LookupStep(conn: Conn)
    | WithdrawStep(conn: Conn)
    | WriteInit(conn: Conn, outcome: Outcome)
    | RegisterStep(conn: Conn)
    | Push(data: Bytes)
    | PromoteWrite(outcome: Outcome)
    | PromoteAdd
    | PromoteEnd
    | FanWrite(outcome: Outcome)
    | FanEnd

  function Flat(bufs: seq<Bytes>): Bytes {
    if bufs == [] then [] else Flat(bufs[..|bufs| - 1]) + bufs[|bufs| - 1]
  }

  function Write(v: Viewer, data: Bytes, outcome: Outcome): (Viewer, bool) {
    if !v.open then (v, false)
    else match outcome
      case Accepted => (v.(got := v.got + data), true)
      case Broken(k) => (v.(got := v.got + data[..if k < |data| then k else |data|], open := false), false)
  }

  function Init(greeting: Bytes): State {
    State(Core([], false, [], [], multiset{}), map[], Idle, greeting, [], [])
  }

  /** Which steps the two threads can take. */
  predicate Enabled(s: State, a: Action) {
    match a
    case Accept(c) => c !in s.viewers
    case WriteHeader(c, _) => c in s.viewers && s.viewers[c].handler.Greeting?
    case LookupStep(c) => c in s.viewers && s.viewers[c].handler.Greeted?
    case WithdrawStep(c) => c in s.viewers && s.viewers[c].handler.Withdrawing?
    case WriteInit(c, _) => c in s.viewers && s.viewers[c].handler.Catching?
    case RegisterStep(c) => c in s.viewers && s.viewers[c].handler.CaughtUp?
    case Push(_) => s.pusher.Idle?
    case PromoteWrite(_) =>
      && s.pusher.Promoting? && s.pusher.turn < |s.pusher.queue| && !s.pusher.landed
      && s.pusher.queue[s.pusher.turn] in s.viewers
    case PromoteAdd =>
      && s.pusher.Promoting? && s.pusher.turn < |s.pusher.queue| && s.pusher.landed
      && s.pusher.queue[s.pusher.turn] in s.viewers
    case PromoteEnd => s.pusher.Promoting? && s.pusher.turn == |s.pusher.queue|
    case FanWrite(_) =>
      s.pusher.Fanning? && s.pusher.done < |s.pusher.snapshot| && s.pusher.snapshot[s.pusher.done] in s.viewers
    case FanEnd => s.pusher.Fanning? && s.pusher.done == |s.pusher.snapshot|
  }

  function WithHandler(s: State, c: Conn, h: Handler): State
    requires c in s.viewers
  {
    s.(viewers := s.viewers[c := s.viewers[c].(handler := h)])
  }

  // ----- handler steps

  function DoAccept(s: State, c: Conn): State {
    s.(viewers := s.viewers[c := Viewer(Greeting, true, [], 0)])
  }

  function DoWriteHeader(s: State, c: Conn, o: Outcome): State
    requires c in s.viewers
  {
    var (w, ok) := Write(s.viewers[c], s.greeting, o);
    s.(viewers := s.viewers[c := w.(handler := Greeted(ok))])
  }

  function DoLookup(s: State, c: Conn): State
    requires c in s.viewers && s.viewers[c].handler.Greeted?
  {
    var ok := s.viewers[c].handler.ok;
    WithHandler(s.(core := Lookup(s.core, c)), c,
                if s.core.initComplete then Catching(s.core.initSegment, ok)
                else if ok then Deferred else Withdrawing)
  }

  function DoWithdraw(s: State, c: Conn): State
    requires c in s.viewers
  {
    WithHandler(s.(core := Withdraw(s.core, c)), c, Left)
  }

  function DoWriteInit(s: State, c: Conn, o: Outcome): State
    requires c in s.viewers && s.viewers[c].handler.Catching?
  {
    var v := s.viewers[c];
    if v.handler.ok && |v.handler.init| > 0 then
      var (w, ok) := Write(v, v.handler.init, o);
      s.(viewers := s.viewers[c := w.(handler := if ok then CaughtUp else Left)])
    else WithHandler(s, c, if v.handler.ok then CaughtUp else Left)
  }

  function DoRegister(s: State, c: Conn): State
    requires c in s.viewers
  {
    s.(core := Register(s.core, c),
       viewers := s.viewers[c := s.viewers[c].(handler := Left, joined := |s.frags|)])
  }

  // ----- pusher steps

  function DoPush(s: State, data: Bytes): State {
    var core := BeginPush(s.core, data);
    if data == [] then s
    else if !core.initComplete then s.(core := core, headers := s.headers + [data])
    else
      var queue := if s.core.initComplete then [] else s.core.pending;
      s.(core := core, frags := s.frags + [data],
         pusher := if queue == [] then Fanning(data, core.clients, 0, [])
                   else Promoting(data, queue, 0, false, core.clients))
  }

  function DoPromoteWrite(s: State, o: Outcome): State
    requires Enabled(s, PromoteWrite(o))
  {
    var p := s.pusher;
    var c := p.queue[p.turn];
    if s.core.initSegment == [] then s.(pusher := p.(turn := p.turn + 1))
    else
      var (w, ok) := Write(s.viewers[c], s.core.initSegment, o);
      s.(viewers := s.viewers[c := w],
         pusher := if ok then p.(landed := true) else p.(turn := p.turn + 1))
  }

  function DoPromoteAdd(s: State): State
    requires Enabled(s, PromoteAdd)
  {
    var p := s.pusher;
    var c := p.queue[p.turn];
    s.(core := Promote(s.core, c),
       viewers := s.viewers[c := s.viewers[c].(joined := if s.frags == [] then 0 else |s.frags| - 1)],
       pusher := p.(turn := p.turn + 1, landed := false, snapshot := [c] + p.snapshot))
  }

  function DoPromoteEnd(s: State): State
    requires Enabled(s, PromoteEnd)
  {
    s.(core := Release(s.core, s.pusher.queue), pusher := Fanning(s.pusher.data, s.pusher.snapshot, 0, []))
  }

  function DoFanWrite(s: State, o: Outcome): State
    requires Enabled(s, FanWrite(o))
  {
    var p := s.pusher;
    var c := p.snapshot[p.done];
    var (w, ok) := Write(s.viewers[c], p.data, o);
    s.(viewers := s.viewers[c := w],
       pusher := p.(done := p.done + 1, failed := if ok then p.failed else [c] + p.failed))
  }

  function DoFanEnd(s: State): State
    requires Enabled(s, FanEnd)
  {
    s.(core := Release(DropFailed(s.core, s.pusher.failed), s.pusher.snapshot), pusher := Idle)
  }

  function Step(s: State, a: Action): State
    requires Enabled(s, a)
  {
    match a
    case Accept(c) => DoAccept(s, c)
    case WriteHeader(c, o) => DoWriteHeader(s, c, o)
    case LookupStep(c) => DoLookup(s, c)
    case WithdrawStep(c) => DoWithdraw(s, c)
    case WriteInit(c, o) => DoWriteInit(s, c, o)
    case RegisterStep(c) => DoRegister(s, c)
    case Push(data) => DoPush(s, data)
    case PromoteWrite(o) => DoPromoteWrite(s, o)
    case PromoteAdd => DoPromoteAdd(s)
    case PromoteEnd => DoPromoteEnd(s)
    case FanWrite(o) => DoFanWrite(s, o)
    case FanEnd => DoFanEnd(s)
  }

  /** An action that the thread cannot take where it stands changes nothing. */
  function Next(s: State, a: Action): State {
    if Enabled(s, a) then Step(s, a) else s
  }

  /** The state after any interleaving of steps. */
  function Run(s: State, run: seq<Action>): State
    decreases |run|
  {
    if run == [] then s else Run(Next(s, run[0]), run[1..])
  }

  // ----- what holds in every reachable state

  /** Deferred viewers that the pusher took and has not yet dealt with. */
  ghost function Waiting(p: Pusher): seq<Conn> {
    if p.Promoting? && p.turn <= |p.queue| then p.queue[p.turn..] else []
  }

  /** Viewers the current buffer still has to be written to. */
  ghost function Unwritten(p: Pusher): seq<Conn> {
    match p
    case Idle => []
    case Promoting(_, _, _, _, snapshot) => snapshot
    case Fanning(_, snapshot, done, _) => if done <= |snapshot| then snapshot[done..] else []
  }

  ghost function Snapshot(p: Pusher): seq<Conn> {
    if p.Idle? then [] else p.snapshot
  }

  ghost function Failed(p: Pusher): seq<Conn> {
    if p.Fanning? then p.failed else []
  }

  /** The pusher has written the init segment to c and not yet made it a client. */
  ghost predicate Landed(p: Pusher, c: Conn) {
    p.Promoting? && p.landed && p.turn < |p.queue| && c == p.queue[p.turn]
  }

  ghost function Taken(p: Pusher): seq<Conn> {
    if p.Promoting? then p.queue else []
  }

  predicate Subset(a: seq<Conn>, b: seq<Conn>) {
    forall c :: c in a ==> c in b
  }

  predicate Disjoint(a: seq<Conn>, b: seq<Conn>) {
    forall c :: c in a ==> c !in b
  }

  ghost predicate PusherShape(s: State) {
    match s.pusher
    case Idle => true
    case Promoting(data, queue, turn, landed, snapshot) =>
      && s.frags != [] && data == s.frags[|s.frags| - 1]
      && turn <= |queue| && (landed ==> turn < |queue| && s.core.initSegment != [])
    case Fanning(data, snapshot, done, failed) =>
      && s.frags != [] && data == s.frags[|s.frags| - 1]
      && done <= |snapshot| && Subset(failed, snapshot[..done])
  }

  /** The lists hold each viewer at most once, and at most one of them holds it. */
  ghost predicate Lists(s: State) {
    && Distinct(s.core.clients) && Distinct(s.core.pending) && Distinct(Taken(s.pusher)) && Distinct(Snapshot(s.pusher))
    && Disjoint(s.core.clients, s.core.pending)
    && Disjoint(s.core.clients, Waiting(s.pusher)) && Disjoint(s.core.pending, Taken(s.pusher))
    && Subset(Snapshot(s.pusher), s.core.clients)
    && (forall c :: c in s.core.clients || c in s.core.pending || c in Taken(s.pusher) ==> c in s.viewers)
  }

  /** The server's references: one per list entry, plus those the pusher works with. */
  ghost predicate References(s: State) {
    s.core.refs == multiset(s.core.clients) + multiset(s.core.pending)
                   + multiset(Taken(s.pusher)) + multiset(Snapshot(s.pusher))
  }

  /** The init segment is everything pushed before the first fragment start. */
  ghost predicate History(s: State) {
    && s.core.initSegment == Flat(s.headers)
    && (forall i :: 0 <= i < |s.headers| ==> !IsFragmentStart(s.headers[i]))
    && (s.core.initComplete <==> s.frags != [])
    && (s.frags != [] ==> IsFragmentStart(s.frags[0]))
    && (s.core.initComplete ==> s.core.pending == [])
    && (!s.core.initComplete ==> s.pusher.Idle? && s.core.clients == [])
  }

  /** Everything a viewer's stream is made of. */
  datatype Feed = Feed(greeting: Bytes, init: Bytes, complete: bool, frags: seq<Bytes>)

  ghost function FeedOf(s: State): Feed {
    Feed(s.greeting, s.core.initSegment, s.core.initComplete, s.frags)
  }

  /** Where a viewer is listed. */
  datatype Place = Place(client: bool, pending: bool, waiting: bool, landed: bool, unwritten: bool, failed: bool)

  ghost function PlaceOf(s: State, c: Conn): Place {
    Place(c in s.core.clients, c in s.core.pending, c in Waiting(s.pusher), Landed(s.pusher, c),
          c in Unwritten(s.pusher), c in Failed(s.pusher))
  }

  /** The bytes meant for a viewer that starts with fragment i and stops before fragment j. */
  ghost function Stream(f: Feed, i: nat, j: nat): Bytes
    requires i <= j <= |f.frags|
  {
    f.greeting + f.init + Flat(f.frags[i..j])
  }

  ghost predicate Started(h: Handler) {
    h.Deferred? || h.Withdrawing? || h.Left?
  }

  /** An active viewer has its whole stream, up to the buffer being written. */
  ghost predicate ActiveViewer(f: Feed, p: Place, v: Viewer)
    requires v.joined <= |f.frags|
  {
    var due := if p.unwritten then |f.frags| - 1 else |f.frags|;
    && f.complete && Started(v.handler)
    && (if p.failed then !v.open && v.got <= Stream(f, v.joined, |f.frags|)
        else v.open && v.joined <= due && v.got == Stream(f, v.joined, due))
  }

  ghost predicate PendingViewer(f: Feed, v: Viewer) {
    && !f.complete
    && (v.handler.Deferred? || v.handler.Withdrawing?) && v.open == v.handler.Deferred?
    && (if v.open then v.got == f.greeting else v.got <= f.greeting)
  }

  ghost predicate WaitingViewer(f: Feed, p: Place, v: Viewer) {
    && f.complete && Started(v.handler)
    && (if p.landed then v.open && v.got == f.greeting + f.init
        else v.got <= f.greeting && (v.open ==> v.got == f.greeting))
  }

  ghost predicate OtherViewer(f: Feed, v: Viewer)
    requires v.joined <= |f.frags|
  {
    match v.handler
    case Greeting => v.open && v.got == []
    case Greeted(ok) => ok == v.open && if ok then v.got == f.greeting else v.got <= f.greeting
    case Catching(init, ok) =>
      && f.complete && init == f.init && ok == v.open
      && if ok then v.got == f.greeting else v.got <= f.greeting
    case CaughtUp => f.complete && v.open && v.got == f.greeting + f.init
    case _ => if f.complete then v.got <= Stream(f, v.joined, |f.frags|) else v.got <= f.greeting
  }

  ghost predicate ViewerOk(f: Feed, p: Place, v: Viewer) {
    v.joined <= |f.frags| &&
    if p.client then ActiveViewer(f, p, v)
    else if p.pending then PendingViewer(f, v)
    else if p.waiting then WaitingViewer(f, p, v)
    else OtherViewer(f, v)
  }

  ghost predicate Books(s: State) {
    PusherShape(s) && Lists(s) && References(s) && History(s)
  }

  ghost predicate Viewers(s: State) {
    forall c :: c in s.viewers ==> ViewerOk(FeedOf(s), PlaceOf(s, c), s.viewers[c])
  }

  ghost predicate Inv(s: State) {
    Books(s) && Viewers(s)
  }
}
