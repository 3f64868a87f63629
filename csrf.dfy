// CSRF token handling (csrf.js): the token is read from the
// `csrf_token` cookie, normalised, and installed as the page's global
// token; a refresh asks the server and is shared by concurrent callers;
// a request wrapper retries once after a CSRF error. The cookie string
// and the server's answers are parameters.

module CsrfModel {
  import opened Common

  const CsrfCookie: string := "csrf_token"
  const CsrfPlaceholder: string := "{{ csrf_token }}"

  // ---- strings ----

  /** `s.indexOf(t)`: the first position where `t` occurs. */
  function IndexOf(s: string, t: string): (r: Option<nat>)
    ensures r.Some? ==> r.value + |t| <= |s| && s[r.value..r.value + |t|] == t
    decreases |s|
  {
    if StartsWith(s, t) then Some(0)
    else if |s| == 0 then None
    else match IndexOf(s[1..], t)
      case None => None
      case Some(i) => Some(i + 1)
  }

  /** `s.split(sep)` for a non-empty separator. */
  function Split(s: string, sep: string): (parts: seq<string>)
    requires |sep| > 0
    ensures |parts| >= 1
    decreases |s|
  {
    match IndexOf(s, sep)
    case None => [s]
    case Some(i) => [s[..i]] + Split(s[i + |sep|..], sep)
  }

  /** `t` is nowhere in `s` when its first character is not. */
  lemma {:induction false} IndexOfMissingChar(s: string, t: string)
    requires |t| > 0 && t[0] !in s
    ensures IndexOf(s, t) == None
    decreases |s|
  {
    if |s| > 0 {
      assert t[0] !in s[1..] by {
        forall c | c in s[1..] ensures c in s { }
      }
      IndexOfMissingChar(s[1..], t);
      assert s[0] != t[0];
      assert |t| <= |s| ==> s[..|t|][0] == s[0];
    }
  }

  /** A prefix without the separator's first character is skipped over. */
  lemma {:induction false} IndexOfSkip(a: string, b: string, t: string)
    requires |t| > 0 && t[0] !in a
    ensures IndexOf(a + b, t) == (match IndexOf(b, t) case None => None case Some(i) => Some(|a| + i))
    decreases |a|
  {
    if |a| > 0 {
      assert (a + b)[1..] == a[1..] + b;
      assert t[0] !in a[1..] by {
        forall c | c in a[1..] ensures c in a { }
      }
      IndexOfSkip(a[1..], b, t);
      assert (a + b)[0] == a[0] != t[0];
      assert |t| <= |a + b| ==> (a + b)[..|t|][0] == (a + b)[0];
    } else {
      assert a + b == b;
    }
  }

  /** The text before the first `;`: it holds no `;`. */
  lemma FirstSegment(x: string)
    ensures ';' !in Split(x, ";")[0]
  {
    IndexOfFirst(x, ";");
    var k := match IndexOf(x, ";") case None => |x| case Some(i) => i;
    assert Split(x, ";")[0] == x[..k];
    forall j | 0 <= j < k
      ensures x[j] != ';'
    {
      assert !StartsWith(x[j..], ";");
      assert x[j..][..1] == [x[j]];
    }
  }

  /** No occurrence starts before the one `IndexOf` finds. */
  lemma {:induction false} IndexOfFirst(s: string, t: string)
    ensures IndexOf(s, t).Some? ==> forall j :: 0 <= j < IndexOf(s, t).value ==> !StartsWith(s[j..], t)
    ensures IndexOf(s, t).None? ==> forall j :: 0 <= j <= |s| ==> !StartsWith(s[j..], t)
    decreases |s|
  {
    if !StartsWith(s, t) && |s| > 0 {
      IndexOfFirst(s[1..], t);
      forall j | 1 <= j <= |s|
        ensures s[j..] == s[1..][j - 1..]
      {
      }
    }
  }

  // ---- readCookie / normalizeToken ----

  /** The separator `readCookie` splits on. */
  function Needle(name: string): string
  {
    "; " + name + "="
  }

  /** `readCookie(name)` over `document.cookie`: a value only when the
      cookie is named exactly once; the value ends at the next `;`, and an
      empty one is `null`. */
  function ReadCookie(cookie: string, name: string): Option<string>
  {
    var parts := Split("; " + cookie, Needle(name));
    if |parts| == 2 then
      var v := Split(parts[1], ";")[0];
      if v == "" then None else Some(v)
    else None
  }

  /** A value read is non-empty and holds no `;`. */
  lemma ReadCookieValue(cookie: string, name: string)
    ensures ReadCookie(cookie, name).Some? ==>
      ReadCookie(cookie, name).value != "" && ';' !in ReadCookie(cookie, name).value
  {
    var parts := Split("; " + cookie, Needle(name));
    if |parts| == 2 {
      FirstSegment(parts[1]);
    }
  }

  /** The only cookie, `name=v`, reads back as `v` when `v` is a non-empty
      value without `;`. */
  lemma ReadCookieRoundTrip(name: string, v: string)
    requires v != "" && ';' !in v
    ensures ReadCookie(name + "=" + v, name) == Some(v)
  {
    var n := Needle(name);
    var s := "; " + (name + "=" + v);
    assert s == n + v;
    assert StartsWith(s, n);
    assert IndexOf(s, n) == Some(0);
    assert s[|n|..] == v;
    IndexOfMissingChar(v, n);
    assert Split(v, n) == [v];
    assert Split(s, n) == [""] + [v];
    IndexOfMissingChar(v, ";");
    assert Split(v, ";") == [v];
  }

  /** A cookie named twice reads as `null`. */
  lemma ReadCookieDuplicate(name: string, v: string, w: string)
    requires ';' !in v && ';' !in w
    ensures ReadCookie(name + "=" + v + "; " + name + "=" + w, name) == None
  {
    var n := Needle(name);
    var s := "; " + (name + "=" + v + "; " + name + "=" + w);
    assert s == n + (v + n + w);
    assert StartsWith(s, n);
    assert IndexOf(s, n) == Some(0);
    var rest := v + n + w;
    assert s[|n|..] == rest;
    IndexOfSkip(v, n + w, n);
    assert v + (n + w) == rest;
    assert StartsWith(n + w, n);
    assert IndexOf(rest, n) == Some(|v|);
    assert rest[|v| + |n|..] == w;
    IndexOfMissingChar(w, n);
    assert Split(w, n) == [w];
    assert |Split(rest, n)| == 2;
    assert |Split(s, n)| == 3;
  }

  /** `normalizeToken`: `None` stands for any value that is not a string. */
  function NormalizeToken(token: Option<string>): (r: Option<string>)
    ensures r.None? <==> token.None? || token.value == CsrfPlaceholder || token.value == ""
    ensures r.Some? ==> r == token
  {
    if token.None? || token.value == CsrfPlaceholder || token.value == "" then None else token
  }

  /** Normalising twice is normalising once, and the result is a usable
      token or nothing. */
  lemma NormalizeIdempotent(token: Option<string>)
    ensures NormalizeToken(NormalizeToken(token)) == NormalizeToken(token)
    ensures NormalizeToken(token).Some? ==> Truthy(NormalizeToken(token)) && NormalizeToken(token).value != CsrfPlaceholder
  {
  }

  // ---- isCSRFApiError ----

  /** A server error as the request layer sees it; `None` fields are
      missing or not strings (not an array for `messages`). */
  datatype ApiError = ApiError(excType: Option<string>, message: Option<string>, messages: Option<seq<Option<string>>>)

  predicate MentionsCsrf(m: string)
  {
    Contains(ToLower(m), "csrf")
  }

  /** `isCSRFApiError(error)`; `None` is a falsy error. */
  predicate IsCsrfApiError(e: Option<ApiError>)
  {
    e.Some? &&
    (e.value.excType == Some("CSRFTokenError") ||
     (e.value.message.Some? && MentionsCsrf(e.value.message.value)) ||
     (e.value.messages.Some? &&
      exists i :: 0 <= i < |e.value.messages.value| && e.value.messages.value[i].Some? &&
        MentionsCsrf(e.value.messages.value[i].value)))
  }

  lemma {:induction false} ContainsAt(s: string, t: string, i: nat)
    requires i + |t| <= |s| && s[i..i + |t|] == t
    ensures Contains(s, t)
    decreases i
  {
    if i > 0 {
      assert s[1..][i - 1..i - 1 + |t|] == t;
      ContainsAt(s[1..], t, i - 1);
    }
  }

  /** The word is found whatever its case and wherever it stands. */
  lemma MentionAnywhere(p: string, w: string, q: string)
    requires ToLower(w) == "csrf"
    ensures MentionsCsrf(p + w + q)
  {
    var l := ToLower(p + w + q);
    assert l[|p|..|p| + 4] == ToLower(w);
    ContainsAt(l, "csrf", |p|);
  }

  /** A falsy error is never a CSRF error; the exception type alone is
      enough; a message mentioning CSRF in any case is enough, so is one
      such string among `messages`. */
  lemma IsCsrfApiErrorFacts(e: ApiError, p: string, w: string, q: string)
    requires ToLower(w) == "csrf"
    ensures !IsCsrfApiError(None)
    ensures IsCsrfApiError(Some(e.(excType := Some("CSRFTokenError"))))
    ensures IsCsrfApiError(Some(e.(message := Some(p + w + q))))
    ensures IsCsrfApiError(Some(e.(messages := Some([None, Some(p + w + q)]))))
    ensures e.excType != Some("CSRFTokenError") && (e.message.None? || !MentionsCsrf(e.message.value)) && e.messages.None? ==>
      !IsCsrfApiError(Some(e))
  {
    MentionAnywhere(p, w, q);
    var ms := [None, Some(p + w + q)];
    assert ms[1].Some? && MentionsCsrf(ms[1].value);
  }

  // ---- createCSRFAwareRequest ----

  datatype RequestOutcome = Returned(value: string) | Threw(error: Option<ApiError>)

  /** `csrfAwareRequest(...args)`: `attempt(k)` is how run `k` of the
      original request ends, `refreshed` what the forced token refresh
      yields. The result and the number of runs. */
  function CsrfAware(attempt: nat -> RequestOutcome, refreshed: bool): (RequestOutcome, nat)
  {
    var first := attempt(0);
    if first.Returned? then (first, 1)
    else if IsCsrfApiError(first.error) && refreshed then (attempt(1), 2)
    else (first, 1)
  }

  /** The original runs once or twice; a second time exactly after a CSRF
      error and a successful refresh, whose outcome is then the result;
      otherwise the first outcome, error included, is passed on unchanged. */
  lemma CsrfAwareFacts(attempt: nat -> RequestOutcome, refreshed: bool)
    ensures var (r, runs) := CsrfAware(attempt, refreshed);
      1 <= runs <= 2 &&
      (runs == 2 <==> attempt(0).Threw? && IsCsrfApiError(attempt(0).error) && refreshed) &&
      (runs == 2 ==> r == attempt(1)) && (runs == 1 ==> r == attempt(0))
  {
  }

  // ---- the global token and the refresh ----

  /** What `setGlobalToken` logs: the first ten characters and whether the
      token came from a response. */
  datatype Announcement = Announcement(prefix: string, fromResponse: bool)

  /** `window.csrf_token`, `lastKnownToken`, whether `refreshPromise` is
      set, the number of refresh requests sent, and the log. */
  datatype CsrfState = CsrfState(windowToken: Option<string>, lastKnownToken: Option<string>, refreshing: bool,
                                 fetches: nat, announced: seq<Announcement>)

  function Prefix(t: string): string
  {
    if |t| <= 10 then t else t[..10]
  }

  /** `setGlobalToken(token, source)`. */
  function TokenSet(s: CsrfState, token: Option<string>, fromResponse: bool): (CsrfState, Option<string>)
  {
    if !Truthy(token) then (s, None)
    else
      var announced := if token != s.lastKnownToken then s.announced + [Announcement(Prefix(token.value), fromResponse)]
                       else s.announced;
      (s.(windowToken := token, lastKnownToken := token, announced := announced), token)
  }

  /** `getCSRFTokenFromCookie` over the cookie string. */
  function FromCookie(s: CsrfState, cookie: string): (CsrfState, Option<string>)
  {
    var token := NormalizeToken(ReadCookie(cookie, CsrfCookie));
    if token.Some? then (TokenSet(s, token, false).0, token) else (s, None)
  }

  /** How `ensureCSRFToken` goes on: settled at once, joined to the refresh
      in flight, or a new refresh started. */
  datatype EnsureStep = Done(result: bool) | Joined | Started

  /** The synchronous part of `ensureCSRFToken({ forceRefresh })`. */
  function Ensured(s: CsrfState, forceRefresh: bool, cookie: string): (CsrfState, EnsureStep)
  {
    var (s1, existing) := if forceRefresh then (s, None) else FromCookie(s, cookie);
    if existing.Some? then (s1, Done(true))
    else if s1.refreshing then (s1, Joined)
    else (s1.(refreshing := true, fetches := s1.fetches + 1), Started)
  }

  /** How the refresh request ends: it throws, or answers with a status,
      `response.ok` and the `csrf_token` of its JSON body. */
  datatype FetchOutcome = FetchThrew | Response(status: int, ok: bool, csrfToken: Option<string>)

  /** The end of the refresh started by `Ensured`: `cookie` is the cookie
      string once the response has arrived. */
  function Finished(s: CsrfState, response: FetchOutcome, cookie: string): (CsrfState, bool)
  {
    if response.FetchThrew? || response.status == 401 || response.status == 403 then (s.(refreshing := false), false)
    else
      var (s1, fromCookie) := FromCookie(s, cookie);
      if fromCookie.Some? then (s1.(refreshing := false), true)
      else
        var fromResponse := NormalizeToken(response.csrfToken);
        if fromResponse.Some? then (TokenSet(s, fromResponse, true).0.(refreshing := false), true)
        else (s.(refreshing := false), false)
  }

  /** A falsy token changes nothing; otherwise it becomes both the global
      and the last known token and is logged exactly when it differs from
      the last known one; setting the same token again changes nothing. */
  lemma TokenSetFacts(s: CsrfState, token: Option<string>, fromResponse: bool)
    ensures var (t, r) := TokenSet(s, token, fromResponse);
      (!Truthy(token) ==> t == s && r.None?) &&
      (Truthy(token) ==>
        r == token && t.windowToken == token && t.lastKnownToken == token &&
        t.refreshing == s.refreshing && t.fetches == s.fetches &&
        |t.announced| == |s.announced| + (if token != s.lastKnownToken then 1 else 0))
    ensures var t := TokenSet(s, token, fromResponse).0;
      TokenSet(t, token, fromResponse).0 == t
  {
  }

  /** Without forcing, a usable cookie token settles at once without a
      request; otherwise a refresh already in flight is joined and no
      second request is sent; only a new refresh sends one. */
  lemma EnsuredFacts(s: CsrfState, forceRefresh: bool, cookie: string)
    ensures var (t, step) := Ensured(s, forceRefresh, cookie);
      var token := NormalizeToken(ReadCookie(cookie, CsrfCookie));
      (!forceRefresh && token.Some? <==> step == Done(true)) &&
      (step == Done(true) ==> t.windowToken == token && t.fetches == s.fetches) &&
      (step == Joined <==> step != Done(true) && s.refreshing) &&
      (step == Joined ==> t == s) &&
      (step == Started ==> t.refreshing && t.fetches == s.fetches + 1 && t.windowToken == s.windowToken) &&
      t.fetches <= s.fetches + 1
  {
  }

  /** Two calls before the first refresh ends send at most one request. */
  lemma SingleFlight(s: CsrfState, f1: bool, c1: string, f2: bool, c2: string)
    ensures Ensured(Ensured(s, f1, c1).0, f2, c2).0.fetches <= s.fetches + 1
  {
    EnsuredFacts(s, f1, c1);
    EnsuredFacts(Ensured(s, f1, c1).0, f2, c2);
  }

  /** The refresh always clears the shared promise. It yields true exactly
      when a usable token arrived, by cookie first, then in the body, and
      then that token is installed; an unauthenticated answer or a
      throwing request yields false and changes no token. */
  lemma FinishedFacts(s: CsrfState, response: FetchOutcome, cookie: string)
    ensures var (t, ok) := Finished(s, response, cookie);
      !t.refreshing && t.fetches == s.fetches && (ok ==> Truthy(t.windowToken) && t.windowToken == t.lastKnownToken)
    ensures var (t, ok) := Finished(s, response, cookie);
      response.FetchThrew? || response.status == 401 || response.status == 403 ==>
        !ok && t.windowToken == s.windowToken && t.lastKnownToken == s.lastKnownToken
    ensures var (t, ok) := Finished(s, response, cookie);
      var fromCookie := NormalizeToken(ReadCookie(cookie, CsrfCookie));
      response.Response? && response.status != 401 && response.status != 403 ==>
        (ok <==> fromCookie.Some? || NormalizeToken(response.csrfToken).Some?) &&
        (fromCookie.Some? ==> t.windowToken == fromCookie) &&
        (fromCookie.None? && NormalizeToken(response.csrfToken).Some? ==> t.windowToken == response.csrfToken)
  {
  }
}

module Csrf {
  import opened Common
  import opened CsrfModel

  /** The module-level state of the token helpers. */
  class CsrfClient {
    var windowToken: Option<string>
    var lastKnownToken: Option<string>
    var refreshing: bool
    var fetches: nat
    var announced: seq<Announcement>

    function State(): CsrfState
      reads this
    {
      CsrfState(windowToken, lastKnownToken, refreshing, fetches, announced)
    }

    constructor(initial: Option<string>)
      ensures State() == CsrfState(initial, None, false, 0, [])
    {
      windowToken := initial;
      lastKnownToken := None;
      refreshing := false;
      fetches := 0;
      announced := [];
    }

    method SetGlobalToken(token: Option<string>, fromResponse: bool) returns (r: Option<string>)
      modifies this`windowToken, this`lastKnownToken, this`announced
      ensures (State(), r) == TokenSet(old(State()), token, fromResponse)
    {
      if !Truthy(token) {
        return None;
      }
      windowToken := token;
      if token != lastKnownToken {
        announced := announced + [Announcement(Prefix(token.value), fromResponse)];
        lastKnownToken := token;
      }
      r := token;
    }

    method GetCSRFTokenFromCookie(cookie: string) returns (token: Option<string>)
      modifies this`windowToken, this`lastKnownToken, this`announced
      ensures (State(), token) == FromCookie(old(State()), cookie)
    {
      token := NormalizeToken(ReadCookie(cookie, CsrfCookie));
      if token.Some? {
        var _ := SetGlobalToken(token, false);
      }
    }

    method EnsureCSRFToken(forceRefresh: bool, cookie: string) returns (step: EnsureStep)
      modifies this
      ensures (State(), step) == Ensured(old(State()), forceRefresh, cookie)
    {
      if !forceRefresh {
        var existing := GetCSRFTokenFromCookie(cookie);
        if existing.Some? {
          return Done(true);
        }
      }
      if refreshing {
        return Joined;
      }
      refreshing := true;
      fetches := fetches + 1;
      step := Started;
    }

    /** The body of the refresh promise, from the response on; the
        `finally` clears the shared promise. */
    method FinishRefresh(response: FetchOutcome, cookie: string) returns (ok: bool)
      modifies this
      ensures (State(), ok) == Finished(old(State()), response, cookie)
    {
      if response.FetchThrew? || response.status == 401 || response.status == 403 {
        ok := false;
      } else {
        var fromCookie := GetCSRFTokenFromCookie(cookie);
        if fromCookie.Some? {
          ok := true;
        } else {
          var fromResponse := NormalizeToken(response.csrfToken);
          if fromResponse.Some? {
            var _ := SetGlobalToken(fromResponse, true);
            ok := true;
          } else {
            ok := false;
          }
        }
      }
      refreshing := false;
    }
  }
}
