/**
 * The worker entry point of worker/index.ts: the session-id allow-list, the chain of
 * checks in front of the signaling Durable Object, and the security headers added to
 * every response except a 101 upgrade.
 *
 * Header names are compared exactly; the `Headers` object's case-insensitivity is
 * not modelled.
 */
module Gateway {
  import opened Wire

  const SignalPath: string := "/api/signal/connect"
  const MaxSessionIdLength: nat := 64

  // ---------------------------------------------------------------------------
  // isValidSessionId: /^[0-9A-Za-z_-]{1,64}$/
  // ---------------------------------------------------------------------------

  /** The character class `[0-9A-Za-z_-]`. */
  predicate IsSessionIdChar(c: char)
  {
    ('0' <= c <= '9') || ('A' <= c <= 'Z') || ('a' <= c <= 'z') || c == '_' || c == '-'
  }

  /**
   * The anchored pattern `[class]{lo,hi}$` run over `s` one character at a time: `lo`
   * more characters are still needed and at most `hi` more are allowed.
   */
  function MatchRun(s: string, lo: nat, hi: nat): (r: bool)
    ensures r ==> lo <= |s| <= hi && forall i :: 0 <= i < |s| ==> IsSessionIdChar(s[i])
    decreases |s|
  {
    if s == [] then lo == 0
    else hi > 0 && IsSessionIdChar(s[0]) && MatchRun(s[1..], if lo == 0 then 0 else lo - 1, hi - 1)
  }

  /** `isValidSessionId`: the whole id matches `^[0-9A-Za-z_-]{1,64}$`. */
  function IsValidSessionId(id: string): (r: bool)
    ensures r ==> 1 <= |id| <= MaxSessionIdLength && (forall i :: 0 <= i < |id| ==> IsSessionIdChar(id[i]))
  {
    MatchRun(id, 1, MaxSessionIdLength)
  }

  lemma {:induction false} MatchRunMeaning(s: string, lo: nat, hi: nat)
    ensures MatchRun(s, lo, hi) <==> lo <= |s| <= hi && forall i :: 0 <= i < |s| ==> IsSessionIdChar(s[i])
    decreases |s|
  {
    if s != [] {
      if hi > 0 {
        MatchRunMeaning(s[1..], if lo == 0 then 0 else lo - 1, hi - 1);
      }
      assert forall i :: 1 <= i < |s| ==> s[i] == s[1..][i - 1];
    }
  }

  /** A session id is accepted exactly when it has 1 to 64 characters, all from `[0-9A-Za-z_-]`. */
  lemma SessionIdAllowList(id: string)
    ensures IsValidSessionId(id) <==>
              1 <= |id| <= MaxSessionIdLength && forall i :: 0 <= i < |id| ==> IsSessionIdChar(id[i])
  {
    MatchRunMeaning(id, 1, MaxSessionIdLength);
  }

  /** A path-traversal id, the empty id and any 200-character id are all refused. */
  lemma RefusedIds(long: string)
    requires |long| == 200
    ensures !IsValidSessionId("../evil") && !IsValidSessionId("") && !IsValidSessionId(long)
  {
    SessionIdAllowList("../evil");
    assert !IsSessionIdChar("../evil"[0]);
    SessionIdAllowList(long);
  }

  // ---------------------------------------------------------------------------
  // Security headers
  // ---------------------------------------------------------------------------

  type HeaderMap = map<string, string>

  const Csp: string := "Content-Security-Policy"

  const CspValue: string :=
    "default-src 'self'; script-src 'self'; style-src 'self' 'unsafe-inline'; "
    + "img-src 'self' data: blob:; connect-src 'self' https://plausible.io; font-src 'self' data:; "
    + "object-src 'none'; base-uri 'none'; frame-ancestors 'none'; form-action 'self'"

  /** `SECURITY_HEADERS`, in the order `Object.entries` yields them. */
  const SecurityHeaders: seq<(string, string)> := [
    (Csp, CspValue),
    ("Referrer-Policy", "no-referrer"),
    ("X-Content-Type-Options", "nosniff"),
    ("Cross-Origin-Opener-Policy", "same-origin"),
    ("Cross-Origin-Resource-Policy", "same-origin"),
    ("Permissions-Policy", "camera=(), microphone=(), geolocation=()")
  ]

  predicate IsSecurityHeader(k: string)
  {
    exists i :: 0 <= i < |SecurityHeaders| && SecurityHeaders[i].0 == k
  }

  /** One pass of the header loop: skip CSP when it is already set, otherwise set the entry. */
  function SetUnlessCsp(h: HeaderMap, k: string, v: string): (r: HeaderMap)
    ensures r.Keys == h.Keys + {k}
    ensures k in r && (r[k] == v || (k == Csp && k in h && r[k] == h[k]))
    ensures forall j :: j in h && j != k ==> r[j] == h[j]
  {
    if k == Csp && k in h then h else h[k := v]
  }

  /** The header loop run over the entries `es`, in order. */
  function ApplyEntries(h: HeaderMap, es: seq<(string, string)>): (r: HeaderMap)
    ensures h.Keys <= r.Keys
    ensures forall i :: 0 <= i < |es| ==> es[i].0 in r
    decreases |es|
  {
    if es == [] then h
    else
      var last := es[|es| - 1];
      SetUnlessCsp(ApplyEntries(h, es[..|es| - 1]), last.0, last.1)
  }

  /** The headers after the loop over `SECURITY_HEADERS`. */
  function Secured(h: HeaderMap): (r: HeaderMap)
    ensures h.Keys <= r.Keys && forall i :: 0 <= i < |SecurityHeaders| ==> SecurityHeaders[i].0 in r
  {
    ApplyEntries(h, SecurityHeaders)
  }

  predicate DistinctKeys(es: seq<(string, string)>)
  {
    forall i, j :: 0 <= i < j < |es| ==> es[i].0 != es[j].0
  }

  /** The value the entries give key `k`, if any. */
  function Lookup(es: seq<(string, string)>, k: string): Option<string>
    decreases |es|
  {
    if es == [] then None
    else if es[|es| - 1].0 == k then Some(es[|es| - 1].1)
    else Lookup(es[..|es| - 1], k)
  }

  lemma {:induction false} LookupAt(es: seq<(string, string)>, i: nat)
    requires DistinctKeys(es) && i < |es|
    ensures Lookup(es, es[i].0) == Some(es[i].1)
    decreases |es|
  {
    if i < |es| - 1 {
      var init := es[..|es| - 1];
      assert init[i] == es[i];
      LookupAt(init, i);
    }
  }

  lemma {:induction false} LookupMissing(es: seq<(string, string)>, k: string)
    requires forall i :: 0 <= i < |es| ==> es[i].0 != k
    ensures Lookup(es, k) == None
    decreases |es|
  {
    if es != [] {
      var init := es[..|es| - 1];
      assert forall i :: 0 <= i < |init| ==> init[i] == es[i];
      LookupMissing(init, k);
    }
  }

  /**
   * What the header loop does to one key: a key no entry names keeps its presence and
   * value; a key an entry names is present and holds the entry's value, except CSP,
   * which keeps the value it already had.
   */
  lemma {:induction false} ApplyEntriesAt(h: HeaderMap, es: seq<(string, string)>, k: string)
    requires DistinctKeys(es)
    ensures var r := ApplyEntries(h, es);
            match Lookup(es, k)
            case None => (k in r <==> k in h) && (k in h ==> r[k] == h[k])
            case Some(v) => k in r && r[k] == (if k == Csp && k in h then h[k] else v)
    decreases |es|
  {
    if es != [] {
      var init := es[..|es| - 1];
      var last := es[|es| - 1];
      assert DistinctKeys(init);
      ApplyEntriesAt(h, init, k);
      if last.0 == k {
        assert forall i :: 0 <= i < |init| ==> init[i].0 != k;
        LookupMissing(init, k);
      }
    }
  }

  /**
   * withSecurityHeaders' promise: every security header is present afterwards; an
   * existing Content-Security-Policy keeps its value while the other security headers
   * are overwritten; every other header keeps its presence and value.
   */
  lemma SecuredHeaders(h: HeaderMap)
    ensures var r := Secured(h);
            && (forall i :: 0 <= i < |SecurityHeaders| ==> SecurityHeaders[i].0 in r)
            && Csp in r && r[Csp] == (if Csp in h then h[Csp] else CspValue)
            && (forall i :: 1 <= i < |SecurityHeaders| ==> r[SecurityHeaders[i].0] == SecurityHeaders[i].1)
            && (forall k :: !IsSecurityHeader(k) ==> (k in r <==> k in h) && (k in h ==> r[k] == h[k]))
  {
    assert DistinctKeys(SecurityHeaders);
    forall i | 0 <= i < |SecurityHeaders|
      ensures SecurityHeaders[i].0 in Secured(h)
      ensures Secured(h)[SecurityHeaders[i].0] ==
                if i == 0 && Csp in h then h[Csp] else SecurityHeaders[i].1
    {
      LookupAt(SecurityHeaders, i);
      ApplyEntriesAt(h, SecurityHeaders, SecurityHeaders[i].0);
    }
    assert SecurityHeaders[0].0 == Csp;
    forall k | !IsSecurityHeader(k)
      ensures (k in Secured(h) <==> k in h) && (k in h ==> Secured(h)[k] == h[k])
    {
      LookupMissing(SecurityHeaders, k);
      ApplyEntriesAt(h, SecurityHeaders, k);
    }
  }

  /** One more entry of the loop is one more `SetUnlessCsp`. */
  lemma ApplyEntriesStep(h: HeaderMap, es: seq<(string, string)>, i: nat)
    requires i < |es|
    ensures ApplyEntries(h, es[..i + 1]) == SetUnlessCsp(ApplyEntries(h, es[..i]), es[i].0, es[i].1)
  {
    assert es[..i + 1][..i] == es[..i];
  }

  /** A response: status, statusText, headers and (opaque) body. */
  datatype Response = Response(status: int, statusText: string, headers: HeaderMap, body: string)

  /** `new Response(text, {status})`: a text body gets the default text content type. */
  function TextResponse(status: int, text: string): (r: Response)
    ensures r.status == status && r.body == text
    ensures forall k :: k in r.headers ==> !IsSecurityHeader(k)
  {
    Response(status, "", map["Content-Type" := "text/plain;charset=UTF-8"], text)
  }

  /**
   * withSecurityHeaders: copy the headers, run the loop over `SECURITY_HEADERS`, and
   * build a new response with the same status, statusText and body.
   */
  method WithSecurityHeaders(resp: Response) returns (r: Response)
    ensures r.status == resp.status && r.statusText == resp.statusText && r.body == resp.body
    ensures r.headers == Secured(resp.headers)
  {
    var newHeaders := resp.headers;
    var i := 0;
    while i < |SecurityHeaders|
      invariant 0 <= i <= |SecurityHeaders|
      invariant newHeaders == ApplyEntries(resp.headers, SecurityHeaders[..i])
    {
      var (k, v) := SecurityHeaders[i];
      ApplyEntriesStep(resp.headers, SecurityHeaders, i);
      if !(k == Csp && k in newHeaders) {
        newHeaders := newHeaders[k := v];
      }
      i := i + 1;
    }
    assert SecurityHeaders[..i] == SecurityHeaders;
    r := Response(resp.status, resp.statusText, newHeaders, resp.body);
  }

  // ---------------------------------------------------------------------------
  // The default fetch handler
  // ---------------------------------------------------------------------------

  /** The outcome of the checks on `/api/signal/connect`. */
  datatype Gate = Refuse(status: int, text: string) | Forward(sessionId: string)

  /** `if (origin)`: the header is present and not empty. */
  predicate OriginPresent(req: Request)
  {
    req.origin.Some? && req.origin.value.raw != ""
  }

  /** The checks of the signaling route, in the order fetch applies them. */
  function SignalGate(req: Request): (g: Gate)
    ensures g.Refuse? ==> g.status == 405 || g.status == 403 || g.status == 400
    ensures g.Forward? ==> req.verb == "GET" && req.session == Some(g.sessionId) && 1 <= |g.sessionId| <= MaxSessionIdLength
  {
    if req.verb != "GET" then Refuse(405, "Method Not Allowed")
    else if OriginPresent(req) && req.origin.value.host != Some(req.host) then Refuse(403, "Forbidden")
    else if MissingSession(req) then Refuse(400, "Missing session ID")
    else if !IsValidSessionId(req.session.value) then Refuse(400, "Invalid session ID")
    else Forward(req.session.value)
  }

  /**
   * The order of the checks: 405 for a method other than GET; then 403 for an Origin
   * whose host differs or that does not parse (no Origin, no check); then 400 for a
   * missing id; then 400 for an id outside the allow-list. Only a request passing all
   * four is forwarded, under its own session id.
   */
  lemma GateOrder(req: Request)
    ensures req.verb != "GET" ==> SignalGate(req) == Refuse(405, "Method Not Allowed")
    ensures req.verb == "GET" && OriginPresent(req) && req.origin.value.host != Some(req.host) ==>
              SignalGate(req) == Refuse(403, "Forbidden")
    ensures req.verb == "GET" && (!OriginPresent(req) || req.origin.value.host == Some(req.host)) && MissingSession(req) ==>
              SignalGate(req) == Refuse(400, "Missing session ID")
    ensures req.verb == "GET" && (!OriginPresent(req) || req.origin.value.host == Some(req.host)) && !MissingSession(req)
              && !(1 <= |req.session.value| <= MaxSessionIdLength
                   && forall i :: 0 <= i < |req.session.value| ==> IsSessionIdChar(req.session.value[i])) ==>
              SignalGate(req) == Refuse(400, "Invalid session ID")
    ensures SignalGate(req).Forward? <==>
              && req.verb == "GET"
              && (!OriginPresent(req) || req.origin.value.host == Some(req.host))
              && !MissingSession(req)
              && 1 <= |req.session.value| <= MaxSessionIdLength
              && forall i :: 0 <= i < |req.session.value| ==> IsSessionIdChar(req.session.value[i])
    ensures SignalGate(req).Forward? ==> SignalGate(req).sessionId == req.session.value
  {
    if req.session.Some? {
      SessionIdAllowList(req.session.value);
    }
  }

  /** A request that reaches the Durable Object always passes its missing-id guard. */
  lemma ForwardedHasSession(req: Request)
    requires SignalGate(req).Forward?
    ensures !MissingSession(req) && IsValidSessionId(req.session.value)
  {
  }

  /** The headers object of a response, changed in place by `headers.set`. */
  class Headers {
    var entries: HeaderMap

    constructor (entries: HeaderMap)
      ensures this.entries == entries
    {
      this.entries := entries;
    }
  }

  /** What fetch returns: a response value (recording the id the stub was called for, if any), or the asset response object itself. */
  datatype Served = Direct(response: Response, forwardedAs: Option<string>) | AssetItself

  /**
   * The default fetch handler. `stub` is the response the session's Durable Object
   * gives to the forwarded request; `asset` is the headers object of the response the
   * ASSETS binding gives. The stub is called only when every check passes.
   */
  method Fetch(req: Request, stub: Response, asset: Headers) returns (served: Served)
    modifies asset
    ensures req.pathname != SignalPath ==>
              served == AssetItself && asset.entries == Secured(old(asset.entries))
    ensures req.pathname == SignalPath ==> asset.entries == old(asset.entries)
    ensures req.pathname == SignalPath && SignalGate(req).Refuse? ==>
              var g := SignalGate(req);
              served == Direct(TextResponse(g.status, g.text).(headers := Secured(TextResponse(g.status, g.text).headers)), None)
    ensures req.pathname == SignalPath && SignalGate(req).Forward? ==>
              served == Direct(if stub.status == 101 then stub else stub.(headers := Secured(stub.headers)),
                               Some(SignalGate(req).sessionId))
  {
    if req.pathname == SignalPath {
      var refusal: Response;
      if req.verb != "GET" {
        refusal := WithSecurityHeaders(TextResponse(405, "Method Not Allowed"));
        return Direct(refusal, None);
      }
      if OriginPresent(req) {
        var host := req.origin.value.host;
        if host.None? || host.value != req.host {
          refusal := WithSecurityHeaders(TextResponse(403, "Forbidden"));
          return Direct(refusal, None);
        }
      }
      if MissingSession(req) {
        refusal := WithSecurityHeaders(TextResponse(400, "Missing session ID"));
        return Direct(refusal, None);
      }
      var sessionId := req.session.value;
      if !IsValidSessionId(sessionId) {
        refusal := WithSecurityHeaders(TextResponse(400, "Invalid session ID"));
        return Direct(refusal, None);
      }
      // idFromName(sessionId), get(id), stub.fetch(request)
      if stub.status == 101 {
        return Direct(stub, Some(sessionId));
      }
      var secured := WithSecurityHeaders(stub);
      return Direct(secured, Some(sessionId));
    }
    var i := 0;
    while i < |SecurityHeaders|
      invariant 0 <= i <= |SecurityHeaders|
      invariant asset.entries == ApplyEntries(old(asset.entries), SecurityHeaders[..i])
    {
      var (k, v) := SecurityHeaders[i];
      if !(k == Csp && k in asset.entries) {
        asset.entries := asset.entries[k := v];
      }
      assert SecurityHeaders[..i + 1][..i] == SecurityHeaders[..i];
      i := i + 1;
    }
    assert SecurityHeaders[..i] == SecurityHeaders;
    served := AssetItself;
  }
}
