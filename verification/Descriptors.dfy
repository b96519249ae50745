/**
 Descriptor list downloads and the ready-for-pairing callback
 (core/src/deviceDescriptorHandler.c:114-176, 199-215, 348-418, 434-480, 516-580, 596-728).
 Downloads, validation, renaming and the saving of properties succeed or fail at will.
 */
module Descriptors {
  import opened Basics

  datatype Url = Url(text: string)
  datatype Content = Content(text: string)
  /** MD5 is taken to be injective: a digest names its content. */
  datatype Digest = Blank | Of(content: Content)
  datatype Accepted = Accepted(url: Url, content: Content)

  /** What a task found out before it takes the lock. */
  datatype Outcome = Failed | UpToDate | Updated

  /** One list: its file, the two recorded properties, the validity flag, the outcome of a task
      that has not taken the lock yet, and the downloads accepted so far. */
  datatype Listing = Listing(
    file: Option<Content>,
    url: Option<Url>,
    md5: Option<Digest>,
    flag: bool,
    pending: Option<Outcome>,
    accepted: seq<Accepted>)

  /** One attempt: the body downloaded if any, and whether renaming and saving work. */
  datatype Attempt = Attempt(body: Option<Content>, renames: bool, savesUrl: bool, savesMd5: bool)

  datatype Which = Allow | Deny
  /** The validators of the two lists. */
  datatype Env = Env(allowOk: Content -> bool, denyOk: Content -> bool)

  datatype State = State(
    allow: Listing,
    deny: Listing,
    wanted: bool,        // a deny list is wanted now
    callback: bool,      // the ready callback is set
    fired: nat)

  function Get(s: State, w: Which): Listing {
    if w.Allow? then s.allow else s.deny
  }

  function Put(s: State, w: Which, l: Listing): State {
    if w.Allow? then s.(allow := l) else s.(deny := l)
  }

  predicate Ok(env: Env, w: Which, c: Content) {
    if w.Allow? then env.allowOk(c) else env.denyOk(c)
  }

  predicate FileOk(env: Env, w: Which, file: Option<Content>) {
    file.Some? && Ok(env, w, file.value)
  }

  /** Recorded for this URL, and the file is the one recorded. */
  predicate Current(l: Listing, url: Url) {
    l.url == Some(url) && l.file.Some? && l.md5 == Some(Of(l.file.value))
  }

  predicate Accepts(env: Env, w: Which, a: Attempt) {
    a.body.Some? && Ok(env, w, a.body.value) && a.renames
  }

  function Record(l: Listing, url: Url, c: Content, a: Attempt): Listing {
    l.(file := Some(c), url := if a.savesUrl then Some(url) else l.url,
       md5 := if a.savesMd5 then Some(Of(c)) else l.md5,
       pending := Some(Updated), accepted := l.accepted + [Accepted(url, c)])
  }

  /** The part of an update task outside the lock. */
  function FilePart(env: Env, w: Which, l: Listing, url: Url, a: Attempt): Listing {
    if Current(l, url) then l.(pending := Some(UpToDate))
    else if Accepts(env, w, a) then Record(l, url, a.body.value, a)
    else l.(pending := Some(Failed))
  }

  /** A task for the deny list runs only where one is wanted. */
  function DoFile(env: Env, s: State, w: Which, url: Url, a: Attempt): State {
    Put(s, w, FilePart(env, w, Get(s, w), url, a)).(wanted := s.wanted || w.Deny?)
  }

  /** Calls back once, when both lists are flagged valid. */
  function CheckReady(s: State): State {
    if s.allow.flag && s.deny.flag && s.callback then s.(callback := false, fired := s.fired + 1) else s
  }

  /** The part of an update task under the lock. */
  function FlagPart(s: State, w: Which): State {
    var l := Get(s, w);
    var flagged := Put(s, w, l.(flag := l.flag || l.pending != Some(Failed), pending := None));
    if l.pending == Some(Updated) then CheckReady(flagged) else flagged
  }

  function DoInit(env: Env, s: State, noDenylist: bool): State {
    CheckReady(s.(allow := s.allow.(flag := FileOk(env, Allow, s.allow.file)),
                  deny := s.deny.(flag := noDenylist || FileOk(env, Deny, s.deny.file)),
                  wanted := !noDenylist, callback := true))
  }

  /** No deny list is wanted any more: the file goes and the properties are blanked. */
  function DoUnlink(s: State, savesUrl: bool, savesMd5: bool): State {
    s.(deny := s.deny.(file := None, url := if savesUrl then Some(Url("")) else s.deny.url,
                       md5 := if savesMd5 then Some(Blank) else s.deny.md5),
       wanted := false)
  }

  datatype Action =
    | Init(noDenylist: bool)
    | File(list: Which, url: Url, attempt: Attempt)
    | Flag(which: Which)
    | Unlink(blanksUrl: bool, blanksMd5: bool)

  /** Tasks of one list do not overlap, and unlinking waits for them. */
  predicate Enabled(s: State, a: Action) {
    match a
    case Init(_) => true
    case File(w, _, _) => Get(s, w).pending.None?
    case Flag(w) => Get(s, w).pending.Some?
    case Unlink(_, _) => s.deny.pending.None?
  }

  function Step(env: Env, s: State, a: Action): State {
    match a
    case Init(noDenylist) => DoInit(env, s, noDenylist)
    case File(w, url, attempt) => DoFile(env, s, w, url, attempt)
    case Flag(w) => FlagPart(s, w)
    case Unlink(savesUrl, savesMd5) => DoUnlink(s, savesUrl, savesMd5)
  }

  function Next(env: Env, s: State, a: Action): State {
    if Enabled(s, a) then Step(env, s, a) else s
  }

  function Run(env: Env, s: State, run: seq<Action>): State {
    if run == [] then s else Next(env, Run(env, s, run[..|run| - 1]), run[|run| - 1])
  }

  // ----- the handler

  class DescriptorHandler {
    const env: Env
    var allow: Listing
    var deny: Listing
    var wanted: bool
    var callback: bool
    var fired: nat

    function View(): State
      reads this
    {
      State(allow, deny, wanted, callback, fired)
    }

    constructor (env: Env, s: State)
      ensures this.env == env && View() == s
    {
      this.env := env;
      allow, deny, wanted, callback, fired := s.allow, s.deny, s.wanted, s.callback, s.fired;
    }

    method CheckAndSetReadyForPairing() returns (ready: bool)
      modifies this`callback, this`fired
      ensures View() == CheckReady(old(View()))
      ensures ready <==> allow.flag && deny.flag
    {
      ready := allow.flag && deny.flag;
      if ready && callback {
        fired := fired + 1;
        callback := false;
      }
    }

    method Initialize(noDenylist: bool)
      modifies this
      ensures View() == DoInit(env, old(View()), noDenylist)
    {
      allow := allow.(flag := FileOk(env, Allow, allow.file));
      deny := deny.(flag := noDenylist || FileOk(env, Deny, deny.file));
      wanted, callback := !noDenylist, true;
      var _ := CheckAndSetReadyForPairing();
    }

    /** Anything missing or different asks for a download. */
    method FileNeedsUpdating(l: Listing, url: Url) returns (r: bool)
      ensures r <==> !(l.url == Some(url) && l.file.Some? && l.md5 == Some(Of(l.file.value)))
    {
      if l.url.None? || l.md5.None? {
        return true;
      }
      r := true;
      if l.file.Some? && l.url.value == url && l.md5.value == Of(l.file.value) {
        r := false;
      }
    }

    /** Downloads beside the file and moves into place only what validates. */
    method DownloadFile(w: Which, l: Listing, a: Attempt) returns (r: bool, file: Option<Content>)
      ensures r <==> && a.body.Some? && a.renames
                     && (if w.Allow? then env.allowOk(a.body.value) else env.denyOk(a.body.value))
      ensures file == if r then a.body else l.file
    {
      r, file := false, l.file;
      if a.body.Some? && Ok(env, w, a.body.value) && a.renames {
        r, file := true, a.body;
      }
    }

    method UpdateFile(w: Which, l: Listing, url: Url, a: Attempt) returns (r: Listing)
      ensures r == FilePart(env, w, l, url, a)
    {
      r := l;
      var needed := FileNeedsUpdating(l, url);
      if needed {
        var done, file := DownloadFile(w, l, a);
        if done {
          r := r.(file := file, accepted := r.accepted + [Accepted(url, file.value)]);
          if a.savesUrl {
            r := r.(url := Some(url));
          }
          if a.savesMd5 {
            r := r.(md5 := Some(Of(file.value)));
          }
          r := r.(pending := Some(Updated));
        } else {
          r := r.(pending := Some(Failed));
        }
      } else {
        r := r.(pending := Some(UpToDate));
      }
    }

    method UpdateAllowlistTask(url: Url, a: Attempt) returns (done: bool)
      modifies this
      ensures View() == FlagPart(Step(env, old(View()), File(Allow, url, a)), Allow)
      ensures done <==> Current(old(allow), url) || Accepts(env, Allow, a)
    {
      allow := UpdateFile(Allow, allow, url, a);
      var outcome := allow.pending.value;
      done := !outcome.Failed?;
      allow := allow.(flag := allow.flag || done, pending := None);
      if outcome.Updated? {
        var _ := CheckAndSetReadyForPairing();
      }
    }

    method UpdateDenylistTask(url: Url, a: Attempt) returns (done: bool)
      modifies this
      ensures View() == FlagPart(Step(env, old(View()), File(Deny, url, a)), Deny)
      ensures done <==> Current(old(deny), url) || Accepts(env, Deny, a)
    {
      wanted := true;
      deny := UpdateFile(Deny, deny, url, a);
      var outcome := deny.pending.value;
      done := !outcome.Failed?;
      deny := deny.(flag := deny.flag || done, pending := None);
      if outcome.Updated? {
        var _ := CheckAndSetReadyForPairing();
      }
    }

    method UnlinkDenylist(savesUrl: bool, savesMd5: bool)
      modifies this
      ensures View() == DoUnlink(old(View()), savesUrl, savesMd5)
      ensures deny.file.None? && !wanted && deny.flag == old(deny).flag && allow == old(allow)
      ensures deny.url == (if savesUrl then Some(Url("")) else old(deny).url)
      ensures deny.md5 == (if savesMd5 then Some(Blank) else old(deny).md5)
    {
      deny := deny.(file := None);
      if savesUrl {
        deny := deny.(url := Some(Url("")));
      }
      if savesMd5 {
        deny := deny.(md5 := Some(Blank));
      }
      wanted := false;
    }
  }
}
