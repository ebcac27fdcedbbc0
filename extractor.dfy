/**
 * One extraction run (`extractToken`) and the HTTP handlers around it: the
 * process-wide status and last result, the files the run writes, the bounded
 * poll loop, and the trigger that refuses to start a second run.
 *
 * The browser is abstracted as a `Session`: what launching it does, which
 * requests each navigation phase causes and whether that phase throws, and
 * which requests arrive during each one-second wait of the poll loop.
 */
module Extractor {
  import opened Capture

  /** `extractionStatus`. */
  datatype Status = Idle | Running | Success | Error | NotFound

  /** `token_data`: the token, the cookie or null, the capture timestamp (uninterpreted) and a fixed format label. */
  datatype TokenData = TokenData(token: string, cookies: Option<string>, extractedAt: string, format: string)

  /** `lastResult` after a run: `{success: true, token_data}`, `{success: false, reason}` or `{success: false, error}`. */
  datatype RunResult =
    | Extracted(data: TokenData)
    | Missing(reason: string)
    | Failed(error: string)

  /** What `extractToken` returns normally: `lastResult` when no token was found, `token_data` otherwise. */
  datatype Returned = Miss(result: RunResult) | Data(data: TokenData)

  /** How `extractToken` ends: it returns, or it rethrows with the error's message. */
  datatype Completion = Normal(value: Returned) | Thrown(error: string)

  /** A file in the working directory: plain text, or the token metadata record. */
  datatype Content = Text(text: string) | Metadata(data: TokenData)

  /** The JSON or text payload of an HTTP response. */
  datatype Body =
    | StatusView(status: Status, lastResult: Option<RunResult>)  // {status, lastResult}
    | Busy                                                         // {status: 'running'}
    | Completed(result: Returned)                                  // {status: 'success', result}
    | Crashed(error: string)                                       // {status: 'error', error}
    | PlainText(text: string)
    | NotThere(error: string)                                      // {error}

  datatype Response = Response(code: nat, body: Body)

  datatype Credentials = Credentials(email: string, password: string)

  /** One stretch of browser activity: the requests it causes, in order, and the error it throws, if any. */
  datatype Phase = Phase(requests: seq<Request>, thrown: Option<string>)

  /**
   * The browser as seen by one run: whether launching it (and opening a page)
   * throws; the sign-in page phase, the auto-login phase and the public entry
   * page phase; and the requests arriving during each wait of the poll loop.
   */
  datatype Session = Session(
    launch: Option<string>,
    signin: Phase,
    login: Phase,
    entry: Phase,
    ticks: seq<seq<Request>>)

  const TokenFile := "token.txt"
  const CookieFile := "Cookie.txt"
  const MetaFile := "token.json"
  const Format := "Bearer JWT"
  const NoTokenFound := "no_token_found"

  /** The navigation that runs outside the auto-login `try`: the sign-in page with credentials, the public page without. */
  function Opening(creds: Option<Credentials>, s: Session): Phase {
    if creds.Some? then s.signin else s.entry
  }

  /** The error that ends the run before the poll loop, if any; an auto-login error is caught and is not one. */
  function Fault(creds: Option<Credentials>, s: Session): Option<string> {
    if s.launch.Some? then s.launch else Opening(creds, s).thrown
  }

  /** The requests observed before the poll loop starts. */
  function Before(creds: Option<Credentials>, s: Session): seq<Request> {
    Opening(creds, s).requests + (if creds.Some? then s.login.requests else [])
  }

  function Preamble(creds: Option<Credentials>, s: Session): Captured {
    Scan(Nothing, Before(creds, s))
  }

  /** The requests that arrive during the wait of iteration `i`; none once the session has no more. */
  function Batch(ticks: seq<seq<Request>>, i: nat): seq<Request> {
    if i < |ticks| then ticks[i] else []
  }

  /** The requests that arrive during the first `k` waits. */
  function Waited(ticks: seq<seq<Request>>, k: nat): seq<Request> {
    if k == 0 then [] else Waited(ticks, k - 1) + Batch(ticks, k - 1)
  }

  /** The listener's values when iteration `k` of the poll loop begins. */
  function SlotsAfter(c: Captured, ticks: seq<seq<Request>>, k: nat): Captured {
    if k == 0 then c else Scan(SlotsAfter(c, ticks, k - 1), Batch(ticks, k - 1))
  }

  /**
   * The iteration at which the poll loop, begun at iteration `i`, exits: the
   * first at which a token is already kept, or `n` when there is none.
   */
  function ExitTick(c: Captured, ticks: seq<seq<Request>>, i: nat, n: nat): (k: nat)
    requires i <= n
    ensures i <= k <= n
    ensures k < n ==> SlotsAfter(c, ticks, k).token.Some?
    ensures forall j :: i <= j < k ==> SlotsAfter(c, ticks, j).token.None?
    decreases n - i
  {
    if i == n || SlotsAfter(c, ticks, i).token.Some? then i else ExitTick(c, ticks, i + 1, n)
  }

  /** Every request the listener sees before the poll loop exits. */
  function Seen(creds: Option<Credentials>, n: nat, s: Session): seq<Request> {
    Before(creds, s) + Waited(s.ticks, ExitTick(Preamble(creds, s), s.ticks, 0, n))
  }

  /** The listener's values once the poll loop has exited. */
  function Final(creds: Option<Credentials>, n: nat, s: Session): Captured {
    var c := Preamble(creds, s);
    SlotsAfter(c, s.ticks, ExitTick(c, s.ticks, 0, n))
  }

  /** How a run ends, given the error that stopped it early, if any, and the listener's values after the poll loop. */
  function Conclusion(fault: Option<string>, kept: Captured, now: string): RunResult {
    if fault.Some? then Failed(fault.value)
    else if kept.token.None? then Missing(NoTokenFound)
    else Extracted(TokenData(kept.token.value, kept.cookies, now, Format))
  }

  /** How a run ends, as `lastResult` records it. */
  function Outcome(creds: Option<Credentials>, n: nat, s: Session, now: string): RunResult {
    Conclusion(Fault(creds, s), Final(creds, n, s), now)
  }

  function StatusOf(o: RunResult): Status {
    match o
    case Extracted(_) => Success
    case Missing(_) => NotFound
    case Failed(_) => Error
  }

  function CompletionOf(o: RunResult): Completion {
    match o
    case Extracted(d) => Normal(Data(d))
    case Missing(_) => Normal(Miss(o))
    case Failed(e) => Thrown(e)
  }

  /** The files after a successful run: token, cookie only when one was kept, and the metadata record. */
  function Persist(files: map<string, Content>, d: TokenData): (r: map<string, Content>)
    ensures TokenFile in r && r[TokenFile] == Text(d.token)
    ensures MetaFile in r && r[MetaFile] == Metadata(d)
    ensures d.cookies.Some? ==> CookieFile in r && r[CookieFile] == Text(d.cookies.value)
    ensures d.cookies.None? ==> (CookieFile in r <==> CookieFile in files) &&
                                (CookieFile in files ==> r[CookieFile] == files[CookieFile])
    ensures forall name :: name !in {TokenFile, CookieFile, MetaFile} ==>
              (name in r <==> name in files) && (name in files ==> r[name] == files[name])
  {
    var f := files[TokenFile := Text(d.token)];
    var f := if d.cookies.Some? then f[CookieFile := Text(d.cookies.value)] else f;
    f[MetaFile := Metadata(d)]
  }

  function FilesAfter(files: map<string, Content>, o: RunResult): map<string, Content> {
    if o.Extracted? then Persist(files, o.data) else files
  }

  /**
   * The pairs of `extractionStatus` and `lastResult` the extractor ever
   * holds: idle or running with no result, and each ending with its own kind
   * of result.
   */
  predicate Paired(status: Status, lastResult: Option<RunResult>) {
    match status
    case Idle => lastResult.None?
    case Running => lastResult.None?
    case Success => lastResult.Some? && lastResult.value.Extracted?
    case NotFound => lastResult == Some(Missing(NoTokenFound))
    case Error => lastResult.Some? && lastResult.value.Failed?
  }

  /** The trigger's response to a run it started. */
  function TriggerResponse(o: RunResult): Response {
    match CompletionOf(o)
    case Normal(v) => Response(200, Completed(v))
    case Thrown(e) => Response(500, Crashed(e))
  }

  lemma {:induction false} SlotsAfterIsScan(c: Captured, ticks: seq<seq<Request>>, k: nat)
    ensures SlotsAfter(c, ticks, k) == Scan(c, Waited(ticks, k))
  {
    if k > 0 {
      SlotsAfterIsScan(c, ticks, k - 1);
      ScanAppend(c, Waited(ticks, k - 1), Batch(ticks, k - 1));
    }
  }

  /** The listener's final values are the callback run over every request seen, in order. */
  lemma FinalIsScanOfSeen(creds: Option<Credentials>, n: nat, s: Session)
    ensures Final(creds, n, s) == Scan(Nothing, Seen(creds, n, s))
  {
    var k := ExitTick(Preamble(creds, s), s.ticks, 0, n);
    SlotsAfterIsScan(Preamble(creds, s), s.ticks, k);
    ScanAppend(Nothing, Before(creds, s), Waited(s.ticks, k));
  }

  /**
   * A successful run's token is the authorization header, verbatim, of the
   * last request seen that offered one, and its cookie is the cookie header of
   * the last request seen that offered one, or null when none did.
   */
  lemma ExtractedIsLastOffer(creds: Option<Credentials>, n: nat, s: Session, now: string)
    requires Outcome(creds, n, s, now).Extracted?
    ensures var d, rs := Outcome(creds, n, s, now).data, Seen(creds, n, s);
      exists i :: 0 <= i < |rs| && TokenOf(rs[i]) == Some(d.token) &&
                  forall j :: i < j < |rs| ==> TokenOf(rs[j]).None?
    ensures var d, rs := Outcome(creds, n, s, now).data, Seen(creds, n, s);
      (d.cookies.None? && forall j :: 0 <= j < |rs| ==> CookieOf(rs[j]).None?) ||
      exists i :: 0 <= i < |rs| && CookieOf(rs[i]) == d.cookies && d.cookies.Some? &&
                  forall j :: i < j < |rs| ==> CookieOf(rs[j]).None?
  {
    FinalIsScanOfSeen(creds, n, s);
    KeptValueOrigin(Nothing, Seen(creds, n, s), TokenSlot);
    KeptValueOrigin(Nothing, Seen(creds, n, s), CookieSlot);
  }

  /** Once the run gets past the browser's start, it finds no token exactly when no request seen offered one. */
  lemma MissingIffNoOffer(creds: Option<Credentials>, n: nat, s: Session, now: string)
    requires Fault(creds, s).None?
    ensures Outcome(creds, n, s, now).Missing? <==>
              forall j :: 0 <= j < |Seen(creds, n, s)| ==> TokenOf(Seen(creds, n, s)[j]).None?
  {
    FinalIsScanOfSeen(creds, n, s);
    KeptValueOrigin(Nothing, Seen(creds, n, s), TokenSlot);
  }

  /** What a failed auto-login throws changes nothing: it is caught and the run goes on to the poll loop. */
  lemma LoginErrorSwallowed(creds: Option<Credentials>, n: nat, s: Session, e: Option<string>, now: string)
    ensures Outcome(creds, n, s.(login := s.login.(thrown := e)), now) == Outcome(creds, n, s, now)
  {
  }

  /** Without credentials neither the sign-in page nor the auto-login is visited. */
  lemma NoCredentialsNoLogin(n: nat, s: Session, signin: Phase, login: Phase, now: string)
    ensures Outcome(None, n, s.(signin := signin, login := login), now) == Outcome(None, n, s, now)
  {
  }

  /** The extractor's process-wide state: status, last result and the working directory's files. */
  class Server {
    var status: Status
    var lastResult: Option<RunResult>
    var files: map<string, Content>
    const credentials: Option<Credentials>
    const maxWait: nat

    /** Status and last result are always set together, and the token and cookie files hold text. */
    ghost predicate Valid()
      reads this
    {
      Paired(status, lastResult) &&
      (TokenFile in files ==> files[TokenFile].Text?) &&
      (CookieFile in files ==> files[CookieFile].Text?)
    }

    constructor (credentials: Option<Credentials>, maxWait: nat, disk: map<string, string>)
      ensures Valid()
      ensures status == Idle && lastResult == None
      ensures this.credentials == credentials && this.maxWait == maxWait
      ensures files == map name | name in disk :: Text(disk[name])
    {
      status := Idle;
      lastResult := None;
      files := map name | name in disk :: Text(disk[name]);
      this.credentials := credentials;
      this.maxWait := maxWait;
    }

    /** The first two statements of `extractToken`. */
    method Begin()
      requires Valid()
      modifies this
      ensures Valid()
      ensures status == Running && lastResult == None && files == old(files)
    {
      status := Running;
      lastResult := None;
    }

    /** The rest of `extractToken`: the browser's part, then the outcome and the file writes. */
    method Complete(session: Session, now: string) returns (c: Completion)
      requires Valid()
      modifies this
      ensures Valid()
      ensures var o := Outcome(credentials, maxWait, session, now);
        status == StatusOf(o) && lastResult == Some(o) && files == FilesAfter(old(files), o) && c == CompletionOf(o)
    {
      var fault, kept := Browse(session);
      c := Finish(fault, kept, now);
    }

    /**
     * Launch, listener, the opening navigation, the auto-login and the poll
     * loop: the error that ends the run early, if any, and otherwise the
     * listener's values once the poll loop has exited.
     */
    method Browse(session: Session) returns (fault: Option<string>, kept: Captured)
      ensures fault == Fault(credentials, session)
      ensures fault.None? ==> kept == Final(credentials, maxWait, session)
    {
      if session.launch.Some? {
        return session.launch, Nothing;
      }
      var listener := new Listener();
      var opening := if credentials.Some? then session.signin else session.entry;
      listener.Observe(opening.requests);
      if opening.thrown.Some? {
        return opening.thrown, listener.Current();
      }
      if credentials.Some? {
        // the auto-login steps: an error among them is caught, the requests they caused were observed
        listener.Observe(session.login.requests);
      }
      ScanAppend(Nothing, opening.requests, if credentials.Some? then session.login.requests else []);
      Poll(listener, session.ticks);
      fault, kept := None, listener.Current();
    }

    /** The end of `extractToken`: status, last result and, on success, the token, cookie and metadata files. */
    method Finish(fault: Option<string>, kept: Captured, now: string) returns (c: Completion)
      requires Valid()
      modifies this
      ensures Valid()
      ensures var o := Conclusion(fault, kept, now);
        status == StatusOf(o) && lastResult == Some(o) && files == FilesAfter(old(files), o) && c == CompletionOf(o)
    {
      if fault.Some? {
        status := Error;
        lastResult := Some(Failed(fault.value));
        c := Thrown(fault.value);
        return;
      }
      if kept.token.None? {
        status := NotFound;
        lastResult := Some(Missing(NoTokenFound));
        c := Normal(Miss(Missing(NoTokenFound)));
        return;
      }
      var token := kept.token.value;
      files := files[TokenFile := Text(token)];
      if kept.cookies.Some? {
        files := files[CookieFile := Text(kept.cookies.value)];
      }
      var data := TokenData(token, kept.cookies, now, Format);
      files := files[MetaFile := Metadata(data)];
      status := Success;
      lastResult := Some(Extracted(data));
      c := Normal(Data(data));
    }

    /** The poll loop: at most `maxWait` one-second waits, left at the first check that finds a token kept. */
    method Poll(listener: Listener, ticks: seq<seq<Request>>)
      modifies listener
      ensures var start := old(listener.Current());
        listener.Current() == SlotsAfter(start, ticks, ExitTick(start, ticks, 0, maxWait))
    {
      ghost var start := listener.Current();
      var i := 0;
      while i < maxWait
        invariant 0 <= i <= maxWait
        invariant listener.Current() == SlotsAfter(start, ticks, i)
        invariant forall j :: 0 <= j < i ==> SlotsAfter(start, ticks, j).token.None?
      {
        if listener.token.Some? {
          break;
        }
        listener.Observe(Batch(ticks, i));
        i := i + 1;
      }
      assert i == ExitTick(start, ticks, 0, maxWait);
    }

    /** `extractToken`. */
    method Extract(session: Session, now: string) returns (c: Completion)
      requires Valid()
      modifies this
      ensures Valid()
      ensures var o := Outcome(credentials, maxWait, session, now);
        status == StatusOf(o) && lastResult == Some(o) && files == FilesAfter(old(files), o) && c == CompletionOf(o)
    {
      Begin();
      c := Complete(session, now);
    }

    /** `triggerHandler`, behind POST and GET `/extract`. */
    method Trigger(session: Session, now: string) returns (r: Response)
      requires Valid()
      modifies this
      ensures Valid()
      ensures old(status) == Running ==>
        r == Response(409, Busy) && status == Running && lastResult == old(lastResult) && files == old(files)
      ensures old(status) != Running ==> var o := Outcome(credentials, maxWait, session, now);
        status == StatusOf(o) && lastResult == Some(o) && files == FilesAfter(old(files), o) && r == TriggerResponse(o)
    {
      if status == Running {
        return Response(409, Busy);
      }
      var c := Extract(session, now);
      match c
      case Normal(v) => r := Response(200, Completed(v));
      case Thrown(e) => r := Response(500, Crashed(e));
    }

    /** GET `/status`. */
    method StatusEndpoint() returns (r: Response)
      requires Valid()
      ensures r.code == 200 && r.body == StatusView(status, lastResult)
      ensures Paired(r.body.status, r.body.lastResult)
    {
      r := Response(200, StatusView(status, lastResult));
    }

    /** GET `/token`: the token file's text, or 404 when there is no such file. */
    method TokenEndpoint() returns (r: Response)
      requires Valid()
      ensures TokenFile in files ==> r == Response(200, PlainText(files[TokenFile].text))
      ensures TokenFile !in files ==> r == Response(404, NotThere("token not found"))
    {
      if TokenFile !in files {
        return Response(404, NotThere("token not found"));
      }
      r := Response(200, PlainText(files[TokenFile].text));
    }

    /** GET `/cookie`: the cookie file's text, or 404 when there is no such file. */
    method CookieEndpoint() returns (r: Response)
      requires Valid()
      ensures CookieFile in files ==> r == Response(200, PlainText(files[CookieFile].text))
      ensures CookieFile !in files ==> r == Response(404, NotThere("cookie not found"))
    {
      if CookieFile !in files {
        return Response(404, NotThere("cookie not found"));
      }
      r := Response(200, PlainText(files[CookieFile].text));
    }
  }
}
