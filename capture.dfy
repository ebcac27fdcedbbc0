/**
 * The request listener of the extractor: for every outbound request the
 * browser page reports, it decides whether the request carries a bearer
 * token and/or a cookie worth keeping, and overwrites the kept value when it
 * does.
 */
module Capture {

  datatype Option<T> = None | Some(value: T)

  /** One outbound request as the browser page reports it; the browser gives header names in lower case. */
  datatype Request = Request(url: string, headers: map<string, string>)

  /** The two values the listener keeps between requests (the closure's `token` and `cookies`). */
  datatype Captured = Captured(token: Option<string>, cookies: Option<string>)

  /** The two kept values, named so that one lemma can speak of either. */
  datatype Slot = TokenSlot | CookieSlot

  const Nothing := Captured(None, None)

  /** The identity provider's REST API and the target application: the two URL markers. */
  const RestApiMarker := "supabase.co/rest/v1/"
  const AppMarker := "ryne.ai"

  /** What the lower-cased authorization header must begin with. */
  const BearerPrefix := "bearer "

  predicate StartsWith(s: string, prefix: string) {
    |prefix| <= |s| && s[..|prefix|] == prefix
  }

  /** `part` occurs in `s` starting at index `i`. */
  predicate OccursAt(s: string, part: string, i: nat) {
    i + |part| <= |s| && s[i..i + |part|] == part
  }

  /** Substring test, as JavaScript's `String.prototype.includes`. */
  function Contains(s: string, part: string): (b: bool)
    ensures b <==> exists i: nat :: OccursAt(s, part, i)
    decreases |s|
  {
    if StartsWith(s, part) then
      assert OccursAt(s, part, 0);
      true
    else if s == [] then
      false
    else
      var b := Contains(s[1..], part);
      assert forall i: nat :: OccursAt(s[1..], part, i) <==> OccursAt(s, part, i + 1);
      assert (exists i: nat :: OccursAt(s, part, i)) ==> exists i: nat :: OccursAt(s[1..], part, i) by {
        if exists i: nat :: OccursAt(s, part, i) {
          var i: nat :| OccursAt(s, part, i);
          assert i != 0;
          assert OccursAt(s[1..], part, i - 1);
        }
      }
      b
  }

  function LowerChar(c: char): char {
    if 'A' <= c <= 'Z' then (c as int + 32) as char else c
  }

  /**
   * `toLowerCase` on ASCII letters. For the one use made of it, the
   * `bearer ` prefix test, this is exact: no character outside ASCII
   * lower-cases to any character of `bearer `.
   */
  function Lower(s: string): string {
    seq(|s|, i requires 0 <= i < |s| => LowerChar(s[i]))
  }

  /** The URL test both captures share: a substring match on either marker. */
  predicate UrlMatches(url: string) {
    Contains(url, RestApiMarker) || Contains(url, AppMarker)
  }

  /** A header as JavaScript's truthiness sees it: present and not the empty string. */
  function Header(r: Request, name: string): Option<string> {
    if name in r.headers && r.headers[name] != "" then Some(r.headers[name]) else None
  }

  predicate IsBearer(auth: string) {
    StartsWith(Lower(auth), BearerPrefix)
  }

  /** The token a request offers: its full authorization header, if the URL matches and the header is a bearer one. */
  function TokenOf(r: Request): Option<string> {
    if UrlMatches(r.url) then
      match Header(r, "authorization")
      case Some(auth) => if IsBearer(auth) then Some(auth) else None
      case None => None
    else None
  }

  /** The cookie a request offers: its cookie header, if the URL matches. */
  function CookieOf(r: Request): Option<string> {
    if UrlMatches(r.url) then Header(r, "cookie") else None
  }

  function Pick(slot: Slot, r: Request): Option<string> {
    match slot
    case TokenSlot => TokenOf(r)
    case CookieSlot => CookieOf(r)
  }

  function Get(c: Captured, slot: Slot): Option<string> {
    match slot
    case TokenSlot => c.token
    case CookieSlot => c.cookies
  }

  /** A new offer replaces the kept value; no offer keeps it. */
  function Latest(kept: Option<string>, offered: Option<string>): Option<string> {
    if offered.Some? then offered else kept
  }

  /** What one run of the request callback does to the kept values. */
  function Step(c: Captured, r: Request): Captured {
    Captured(Latest(c.token, TokenOf(r)), Latest(c.cookies, CookieOf(r)))
  }

  /** The kept values after the callback has run on each request of `rs`, in order. */
  function Scan(c: Captured, rs: seq<Request>): Captured
    decreases |rs|
  {
    if rs == [] then c else Step(Scan(c, rs[..|rs| - 1]), rs[|rs| - 1])
  }

  lemma StepGet(c: Captured, r: Request, slot: Slot)
    ensures Get(Step(c, r), slot) == Latest(Get(c, slot), Pick(slot, r))
  {
  }

  /** A token is offered exactly by a matching URL with a bearer authorization header, and it is that header verbatim. */
  lemma TokenOfQualifies(r: Request)
    ensures TokenOf(r).Some? <==>
      UrlMatches(r.url) && "authorization" in r.headers && IsBearer(r.headers["authorization"])
    ensures TokenOf(r).Some? ==> TokenOf(r).value == r.headers["authorization"]
  {
    if "authorization" in r.headers && r.headers["authorization"] == "" {
      assert !StartsWith(Lower(""), BearerPrefix);
    }
  }

  /** A cookie is offered exactly by a matching URL with a non-empty cookie header, whatever the authorization header. */
  lemma CookieOfQualifies(r: Request)
    ensures CookieOf(r).Some? <==> UrlMatches(r.url) && "cookie" in r.headers && r.headers["cookie"] != ""
    ensures CookieOf(r).Some? ==> CookieOf(r).value == r.headers["cookie"]
  {
  }

  /** Cookie capture does not look at the authorization header. */
  lemma CookieIgnoresAuthorization(r: Request, auth: Option<string>)
    ensures CookieOf(Request(r.url, if auth.Some? then r.headers["authorization" := auth.value]
                                    else r.headers - {"authorization"})) == CookieOf(r)
  {
  }

  /** Token capture does not look at the cookie header. */
  lemma TokenIgnoresCookie(r: Request, cookie: Option<string>)
    ensures TokenOf(Request(r.url, if cookie.Some? then r.headers["cookie" := cookie.value]
                                   else r.headers - {"cookie"})) == TokenOf(r)
  {
  }

  /** If no request of `rs` offers a value for `slot`, the kept value is untouched. */
  lemma {:induction false} NoOfferKeeps(c: Captured, rs: seq<Request>, slot: Slot)
    requires forall j :: 0 <= j < |rs| ==> Pick(slot, rs[j]).None?
    ensures Get(Scan(c, rs), slot) == Get(c, slot)
    decreases |rs|
  {
    if rs != [] {
      NoOfferKeeps(c, rs[..|rs| - 1], slot);
      StepGet(Scan(c, rs[..|rs| - 1]), rs[|rs| - 1], slot);
    }
  }

  /** The last offering request wins: later requests overwrite earlier captures. */
  lemma {:induction false} LastOfferWins(c: Captured, rs: seq<Request>, slot: Slot, i: nat)
    requires i < |rs| && Pick(slot, rs[i]).Some?
    requires forall j :: i < j < |rs| ==> Pick(slot, rs[j]).None?
    ensures Get(Scan(c, rs), slot) == Pick(slot, rs[i])
    decreases |rs|
  {
    var n := |rs| - 1;
    StepGet(Scan(c, rs[..n]), rs[n], slot);
    if i < n {
      LastOfferWins(c, rs[..n], slot, i);
    }
  }

  /** Nothing clears a kept value: once a token or cookie is kept, one stays kept. */
  lemma {:induction false} KeptStaysKept(c: Captured, rs: seq<Request>, slot: Slot)
    requires Get(c, slot).Some?
    ensures Get(Scan(c, rs), slot).Some?
    decreases |rs|
  {
    if rs != [] {
      KeptStaysKept(c, rs[..|rs| - 1], slot);
      StepGet(Scan(c, rs[..|rs| - 1]), rs[|rs| - 1], slot);
    }
  }

  /**
   * Every kept value comes from somewhere: it is the initial one, or it is the
   * offer of a request of `rs` after which no request offered anything.
   */
  lemma {:induction false} KeptValueOrigin(c: Captured, rs: seq<Request>, slot: Slot)
    ensures (Get(Scan(c, rs), slot) == Get(c, slot) &&
             forall j :: 0 <= j < |rs| ==> Pick(slot, rs[j]).None?) ||
            exists i :: 0 <= i < |rs| && Pick(slot, rs[i]).Some? && Pick(slot, rs[i]) == Get(Scan(c, rs), slot) &&
                        forall j :: i < j < |rs| ==> Pick(slot, rs[j]).None?
    decreases |rs|
  {
    if rs != [] {
      var n := |rs| - 1;
      StepGet(Scan(c, rs[..n]), rs[n], slot);
      if Pick(slot, rs[n]).Some? {
        assert Pick(slot, rs[n]) == Get(Scan(c, rs), slot);
      } else {
        KeptValueOrigin(c, rs[..n], slot);
        assert forall j :: 0 <= j < n ==> rs[..n][j] == rs[j];
      }
    }
  }

  /** Running the callback over `a` and then over `b` is running it over `a + b`. */
  lemma {:induction false} ScanAppend(c: Captured, a: seq<Request>, b: seq<Request>)
    ensures Scan(c, a + b) == Scan(Scan(c, a), b)
    decreases |b|
  {
    if b == [] {
      assert a + b == a;
    } else {
      var n := |b| - 1;
      assert (a + b)[..|a + b| - 1] == a + b[..n];
      ScanAppend(c, a, b[..n]);
    }
  }

  /** The closure variables `token` and `cookies` and the request callback that updates them. */
  class Listener {
    var token: Option<string>
    var cookies: Option<string>

    constructor ()
      ensures token == None && cookies == None
    {
      token := None;
      cookies := None;
    }

    function Current(): Captured
      reads this
    {
      Captured(token, cookies)
    }

    /** The `page.on('request', ...)` callback. */
    method OnRequest(r: Request)
      modifies this
      ensures Current() == Step(old(Current()), r)
    {
      if UrlMatches(r.url) && Header(r, "authorization").Some? {
        var auth := r.headers["authorization"];
        if StartsWith(Lower(auth), BearerPrefix) {
          token := Some(auth);
        }
      }
      if UrlMatches(r.url) && Header(r, "cookie").Some? {
        cookies := Some(r.headers["cookie"]);
      }
    }

    /** The page delivering the requests of `batch` to the callback, one by one, in order. */
    method Observe(batch: seq<Request>)
      modifies this
      ensures Current() == Scan(old(Current()), batch)
    {
      for k := 0 to |batch|
        invariant Current() == Scan(old(Current()), batch[..k])
      {
        assert batch[..k + 1][..k] == batch[..k];
        OnRequest(batch[k]);
      }
      assert batch[..|batch|] == batch;
    }
  }
}
