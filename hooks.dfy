/**
 * The request gate `handle` of src/hooks.server.js: public paths go straight
 * to the route; every other request needs a token from the `x-auth-token`
 * header or the `token` query parameter that getTokenPayload accepts, and the
 * accepted claims are copied into `event.locals` before the route runs.
 */
module Hooks {
  import opened JsString
  import Auth

  /** A value stored in `event.locals`. */
  datatype LocalValue = Str(s: string) | Undefined | List(items: seq<string>)

  /** Lines 6-15: the paths that skip authentication. */
  predicate IsPublicPath(path: string) {
    || path == "/"
    || path == "/auth"
    || path == "/forms"
    || path == "/.well-known/placenet/admin"
    || path == "/.well-known/placenet/views"
    || StartsWith(path, "/form/")
    || StartsWith(path, "/admin/forms/")
    || StartsWith(path, "/admin/submissions/")
  }

  /** Lines 20-24: the header, or the query parameter when the header is absent or empty. */
  function SelectToken(header: Option<string>, query: Option<string>): Option<string> {
    if Truthy(header) then header else query
  }

  /** Line 31: one leading comma is removed and the rest trimmed. */
  function StripLeadingComma(token: string): string {
    if StartsWith(token, ",") then Trim(token[1..]) else token
  }

  function ValueOf(s: Option<string>): LocalValue {
    match s
    case None => Undefined
    case Some(v) => Str(v)
  }

  /** Lines 39-44: the object merged into `event.locals`. */
  function Context(claims: Auth.Claims): map<string, LocalValue> {
    map[
      "domain_id" := ValueOf(claims.domainId),
      "avatar_id" := Str(if Truthy(claims.avatarId) then claims.avatarId.value else "default"),
      "role" := ValueOf(claims.role),
      "domain_tags" := List(if claims.domainTags.Some? then claims.domainTags.value else [])
    ]
  }

  /** The four fields the gate writes into `event.locals`. */
  const ContextKeys: set<string> := {"domain_id", "avatar_id", "role", "domain_tags"}

  /** What the gate decides for a request. */
  datatype Decision =
    | PassThrough                                    // resolve with locals untouched
    | Reject(status: int, message: string)           // `throw error(status, { message })`
    | Authenticated(context: map<string, LocalValue>) // merge context, then resolve
    | Crashed                                        // getTokenPayload threw

  /** Lines 4-47 as a decision on the request's path, header and query parameter. */
  function Gate(path: string, header: Option<string>, query: Option<string>, verify: Auth.Verifier): Decision {
    if IsPublicPath(path) then PassThrough
    else
      var token := SelectToken(header, query);
      if !Truthy(token) then Reject(401, "Not authenticated")
      else
        match Auth.GetTokenPayload(Some(StripLeadingComma(token.value)), verify)
        case Thrown => Crashed
        case Rejected => Reject(401, "Invalid token")
        case Verified(claims) => Authenticated(Context(claims))
  }

  /** The SvelteKit request event: its fixed inputs and the mutable `locals`. */
  class Event {
    const path: string
    const header: Option<string>   // headers.get('x-auth-token')
    const query: Option<string>    // url.searchParams.get('token')
    var locals: map<string, LocalValue>
    var resolveCalls: nat          // how often `resolve(event)` ran

    constructor(path: string, header: Option<string>, query: Option<string>, locals: map<string, LocalValue>)
      ensures this.path == path && this.header == header && this.query == query
      ensures this.locals == locals && resolveCalls == 0
    {
      this.path := path;
      this.header := header;
      this.query := query;
      this.locals := locals;
      resolveCalls := 0;
    }
  }

  /** What `handle` returns or throws. */
  datatype Response = Resolved | HttpError(status: int, message: string) | Threw

  method Resolve(event: Event) returns (r: Response)
    modifies event
    ensures event.resolveCalls == old(event.resolveCalls) + 1
    ensures event.locals == old(event.locals)
    ensures r == Resolved
  {
    event.resolveCalls := event.resolveCalls + 1;
    r := Resolved;
  }

  /** `handle({ event, resolve })`. */
  method Handle(event: Event, verify: Auth.Verifier) returns (r: Response)
    modifies event
    ensures var d := Gate(event.path, event.header, event.query, verify);
      && (d.PassThrough? || d.Authenticated? ==>
            r == Resolved && event.resolveCalls == old(event.resolveCalls) + 1)
      && (d.Reject? ==>
            r == HttpError(d.status, d.message) && event.resolveCalls == old(event.resolveCalls))
      && (d.Crashed? ==> r == Threw && event.resolveCalls == old(event.resolveCalls))
      && event.locals == (if d.Authenticated? then old(event.locals) + d.context else old(event.locals))
    ensures forall k :: k in old(event.locals) && k !in ContextKeys ==>
      k in event.locals && event.locals[k] == old(event.locals)[k]
  {
    if IsPublicPath(event.path) {
      r := Resolve(event);
      return;
    }
    var token := event.header;
    if !Truthy(token) {
      token := event.query;
    }
    if !Truthy(token) {
      return HttpError(401, "Not authenticated");
    }
    var cleanToken := StripLeadingComma(token.value);
    var payload := Auth.GetTokenPayload(Some(cleanToken), verify);
    match payload
    case Thrown => r := Threw;
    case Rejected => r := HttpError(401, "Invalid token");
    case Verified(claims) =>
      event.locals := event.locals + Context(claims);
      r := Resolve(event);
  }

  // ---------------------------------------------------------------------
  // Properties of the gate

  /** The listed paths and everything under the three prefixes skip authentication. */
  lemma {:induction false} PublicPaths(rest: string)
    ensures IsPublicPath("/") && IsPublicPath("/auth") && IsPublicPath("/forms")
    ensures IsPublicPath("/.well-known/placenet/admin") && IsPublicPath("/.well-known/placenet/views")
    ensures IsPublicPath("/form/" + rest)
    ensures IsPublicPath("/admin/forms/" + rest)
    ensures IsPublicPath("/admin/submissions/" + rest)
  {
    SliceOfConcat("/form/", rest);
    SliceOfConcat("/admin/forms/", rest);
    SliceOfConcat("/admin/submissions/", rest);
  }

  /** `/user` and `/form` without the trailing slash are not exempt. */
  lemma NotPublic()
    ensures !IsPublicPath("/user")
    ensures !IsPublicPath("/form")
    ensures !IsPublicPath("/admin/forms")
  {
    assert "/user"[1] != "/form/"[1] && "/user"[1] != "/auth"[1] && "/user"[1] != "/forms"[1];
    assert "/form"[1] != "/auth"[1];
    assert "/admin/forms"[2] != "/auth"[2] && "/admin/forms"[1] != "/forms"[1];
  }

  /** A public path passes whatever the request carries: no token is read. */
  lemma PublicPathPasses(path: string, header: Option<string>, query: Option<string>, verify: Auth.Verifier)
    requires IsPublicPath(path)
    ensures Gate(path, header, query, verify) == PassThrough
  {
  }

  /** A usable header wins: the query parameter is then never looked at. */
  lemma HeaderWins(path: string, header: Option<string>, q1: Option<string>, q2: Option<string>, verify: Auth.Verifier)
    requires Truthy(header)
    ensures Gate(path, header, q1, verify) == Gate(path, header, q2, verify)
  {
  }

  /** An absent or empty header falls back to the query parameter. */
  lemma QueryFallback(path: string, header: Option<string>, query: Option<string>, verify: Auth.Verifier)
    requires !Truthy(header)
    ensures Gate(path, header, query, verify) == Gate(path, None, query, verify)
    ensures Gate(path, header, query, verify) == Gate(path, query, None, verify)
  {
  }

  /** Without a token from either source a protected path gets 401 'Not authenticated'. */
  lemma NoTokenRejected(path: string, header: Option<string>, query: Option<string>, verify: Auth.Verifier)
    requires !IsPublicPath(path) && !Truthy(header) && !Truthy(query)
    ensures Gate(path, header, query, verify) == Reject(401, "Not authenticated")
  {
  }

  /** One leading comma before a token makes no difference to the outcome. */
  lemma LeadingCommaHarmless(path: string, t: string, query: Option<string>, verify: Auth.Verifier)
    requires t != [] && !StartsWith(t, ",")
    ensures Gate(path, Some("," + t), query, verify) == Gate(path, Some(t), query, verify)
  {
    assert StripLeadingComma("," + t) == Trim(t) by {
      SliceOfConcat(",", t);
    }
    Auth.TrimmedTokenSame(t, verify);
  }

  /** `","` followed by a trimmed token loses the comma and nothing else. */
  lemma StripOneComma(u: string)
    requires Trimmed(u)
    ensures StripLeadingComma("," + u) == u
  {
    SliceOfConcat(",", u);
    TrimOfTrimmed(u);
  }

  /** Only the first comma is removed: a second one stays for getTokenPayload. */
  lemma OneCommaStripped(t: string)
    requires Trimmed(t)
    ensures StripLeadingComma("," + t) == t
    ensures StripLeadingComma(",," + t) == "," + t
  {
    StripOneComma(t);
    var u := "," + t;
    assert Trimmed(u) by {
      assert u[0] == ',';
      if t != [] { assert u[|u| - 1] == t[|t| - 1]; }
    }
    assert ",," + t == "," + u;
    StripOneComma(u);
  }

  /** A token the verifier rejects gets 401 'Invalid token'; the route never runs. */
  lemma RejectedTokenGets401(path: string, header: Option<string>, query: Option<string>, verify: Auth.Verifier)
    requires !IsPublicPath(path) && Truthy(SelectToken(header, query))
    requires Auth.GetTokenPayload(Some(StripLeadingComma(SelectToken(header, query).value)), verify) == Auth.Rejected
    ensures Gate(path, header, query, verify) == Reject(401, "Invalid token")
  {
  }

  /** The merged context: exactly four fields, with the documented defaults. */
  lemma ContextFields(claims: Auth.Claims)
    ensures Context(claims).Keys == ContextKeys
    ensures Context(claims)["domain_id"] == (if claims.domainId.Some? then Str(claims.domainId.value) else Undefined)
    ensures Context(claims)["role"] == (if claims.role.Some? then Str(claims.role.value) else Undefined)
    ensures !Truthy(claims.avatarId) ==> Context(claims)["avatar_id"] == Str("default")
    ensures Truthy(claims.avatarId) ==> Context(claims)["avatar_id"] == Str(claims.avatarId.value)
    ensures claims.domainTags.None? ==> Context(claims)["domain_tags"] == List([])
    ensures claims.domainTags.Some? ==> Context(claims)["domain_tags"] == List(claims.domainTags.value)
  {
  }
}
