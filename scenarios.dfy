/** Concrete runs of the model, one per behaviour the extractor is known for. */
module Scenarios {
  import opened Capture
  import opened Extractor

  const Quiet := Phase([], None)

  /** The pages the extractor itself opens match the URL test. */
  lemma UrlExamples()
    ensures UrlMatches("https://ryne.ai/signin") && UrlMatches("https://ryne.ai/dashboard")
  {
    assert OccursAt("https://ryne.ai/signin", AppMarker, 8);
    assert OccursAt("https://ryne.ai/dashboard", AppMarker, 8);
  }

  /** No credentials, two ticks, no request at all: the run ends with no token found. */
  lemma NothingObserved(now: string)
    ensures Outcome(None, 2, Session(None, Quiet, Quiet, Quiet, []), now) == Missing(NoTokenFound)
  {
    assert SlotsAfter(Nothing, [], 1) == Nothing;
    assert SlotsAfter(Nothing, [], 2) == Nothing;
  }

  /** The bearer test looks at the first seven characters only, whatever their case: it passes exactly when they lower-case to `bearer `. */
  lemma BearerByPrefix(auth: string)
    ensures IsBearer(auth) <==> |auth| >= 7 && forall i :: 0 <= i < 7 ==> LowerChar(auth[i]) == BearerPrefix[i]
  {
    if |auth| >= 7 && forall i :: 0 <= i < 7 ==> LowerChar(auth[i]) == BearerPrefix[i] {
      assert Lower(auth)[..7] == BearerPrefix;
    }
    if IsBearer(auth) {
      assert forall i :: 0 <= i < 7 ==> Lower(auth)[..7][i] == BearerPrefix[i];
    }
  }

  /**
   * Without credentials and with a quiet public page, a batch of requests
   * during the first wait that leaves a token kept ends the run after that one
   * wait, with what the batch left kept.
   */
  lemma FirstWaitDecides(batch: seq<Request>, n: nat, now: string)
    requires n >= 1 && Scan(Nothing, batch).token.Some?
    ensures var c := Scan(Nothing, batch);
      Outcome(None, n, Session(None, Quiet, Quiet, Quiet, [batch]), now) ==
        Extracted(TokenData(c.token.value, c.cookies, now, Format))
  {
    var s := Session(None, Quiet, Quiet, Quiet, [batch]);
    assert Before(None, s) == [];
    assert SlotsAfter(Nothing, s.ticks, 1) == Scan(Nothing, batch);
    assert ExitTick(Nothing, s.ticks, 0, n) == 1;
  }

  /** The bearer test accepts `bearer` in any case, followed by a space. */
  lemma BearerExamples()
    ensures IsBearer("Bearer abc123") && IsBearer("BEARER two") && IsBearer("bEaReR x")
  {
    BearerByPrefix("Bearer abc123");
    BearerByPrefix("BEARER two");
    BearerByPrefix("bEaReR x");
  }

  /** The bearer test refuses a bare scheme, a missing space and another scheme. */
  lemma NotBearerExamples()
    ensures !IsBearer("Bearer") && !IsBearer("Bearerabc") && !IsBearer("Basic abc")
  {
    assert Lower("Bearerabc")[6] == 'a';
    assert Lower("Basic abc")[1] == 'a';
  }

  /** A request carrying a bearer token and a cookie during the first wait: both are kept verbatim, and the run succeeds. */
  lemma BearerAndCookieObserved(url: string, token: string, cookie: string, now: string)
    requires UrlMatches(url) && IsBearer(token) && cookie != ""
    ensures var r := Request(url, map["authorization" := token, "cookie" := cookie]);
      Outcome(None, 2, Session(None, Quiet, Quiet, Quiet, [[r]]), now) ==
        Extracted(TokenData(token, Some(cookie), now, Format))
  {
    var r := Request(url, map["authorization" := token, "cookie" := cookie]);
    assert [r][..0] == [];
    assert Scan(Nothing, [r]) == Captured(Some(token), Some(cookie));
    FirstWaitDecides([r], 2, now);
  }

  /** Two bearer requests in order: the later one's header is the token, not the first one's. */
  lemma LaterBearerOverwrites(url: string, first: string, second: string, now: string)
    requires UrlMatches(url) && IsBearer(first) && IsBearer(second)
    ensures var a, b := Request(url, map["authorization" := first]), Request(url, map["authorization" := second]);
      Outcome(None, 1, Session(None, Quiet, Quiet, Quiet, [[a, b]]), now) ==
        Extracted(TokenData(second, None, now, Format))
  {
    var a, b := Request(url, map["authorization" := first]), Request(url, map["authorization" := second]);
    assert [a, b][..1] == [a];
    assert [a][..0] == [];
    assert Scan(Nothing, [a]) == Captured(Some(first), None);
    assert Scan(Nothing, [a, b]) == Step(Scan(Nothing, [a]), b);
    assert Step(Captured(Some(first), None), b) == Captured(Some(second), None);
    FirstWaitDecides([a, b], 1, now);
  }

  /** A token seen while the sign-in page loads ends the poll loop before its first wait: later requests play no part. */
  lemma TokenBeforeWaitingSkipsLoop(url: string, token: string, login: Phase, ticks: seq<seq<Request>>, n: nat, now: string)
    requires UrlMatches(url) && IsBearer(token)
    ensures var s := Session(None, Phase([Request(url, map["authorization" := token])], None), login, Quiet, ticks);
      var creds := Some(Credentials("a", "b"));
      ExitTick(Preamble(creds, s), ticks, 0, n) == 0 &&
      Outcome(creds, n, s, now) == Outcome(creds, n, s.(ticks := []), now)
  {
    var r := Request(url, map["authorization" := token]);
    var s := Session(None, Phase([r], None), login, Quiet, ticks);
    var creds := Some(Credentials("a", "b"));
    assert Scan(Nothing, [r]).token == Some(token) by {
      assert [r][..0] == [];
    }
    assert Preamble(creds, s).token.Some? by {
      assert Before(creds, s) == [r] + login.requests;
      ScanAppend(Nothing, [r], login.requests);
      KeptStaysKept(Scan(Nothing, [r]), login.requests, TokenSlot);
    }
  }

  /** A trigger while a run is in flight is refused with 409; once the run has ended, the next trigger starts one. */
  method TriggerDuringRun(s: Session, now: string) returns (during: Response, after: Response)
    ensures during == Response(409, Busy)
    ensures after.code != 409
  {
    var server := new Server(None, 30, map[]);
    server.Begin();
    during := server.Trigger(s, now);
    var c := server.Complete(s, now);
    after := server.Trigger(s, now);
  }

  /** A run that finds nothing leaves `/token` answering 404 in a fresh working directory. */
  method NothingFoundMeansNoTokenFile(now: string) returns (extract: Response, served: Response)
    ensures extract == Response(200, Completed(Miss(Missing(NoTokenFound))))
    ensures served == Response(404, NotThere("token not found"))
  {
    var server := new Server(None, 2, map[]);
    var s := Session(None, Quiet, Quiet, Quiet, []);
    NothingObserved(now);
    extract := server.Trigger(s, now);
    served := server.TokenEndpoint();
  }

  /** After a successful trigger, `/token` and `/cookie` serve exactly the captured headers. */
  method ServedAfterSuccess(url: string, token: string, cookie: string, now: string) returns (t: Response, c: Response)
    requires UrlMatches(url) && IsBearer(token) && cookie != ""
    ensures t == Response(200, PlainText(token))
    ensures c == Response(200, PlainText(cookie))
  {
    var server := new Server(None, 2, map[]);
    var r := Request(url, map["authorization" := token, "cookie" := cookie]);
    BearerAndCookieObserved(url, token, cookie, now);
    var response := server.Trigger(Session(None, Quiet, Quiet, Quiet, [[r]]), now);
    assert server.status == Success;
    t := server.TokenEndpoint();
    c := server.CookieEndpoint();
  }
}
