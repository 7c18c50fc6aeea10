/**
 * The user page, src/routes/user/+page.server.js: `load` checks the `token`
 * query parameter (token, payload and domain, but no role) and lists the
 * active forms of the token's domain together with the user's display names.
 * It reads the forms table and changes nothing.
 */
module UserPage {
  import opened JsString
  import opened Auth
  import opened Store
  import AdminPage

  /**
   * Lines 9-21: the checks before the page loads, in order, given what
   * getTokenPayload made of the token; no role is required.
   */
  function UserAccess(token: Option<string>, payload: TokenPayload): Access {
    if !Truthy(token) then Denied(401, "Unauthorized: Missing token")
    else
      match payload
      case Thrown => Crashed
      case Rejected => Denied(401, "Unauthorized: Invalid token")
      case Verified(claims) =>
        if !Truthy(claims.domainId) then Denied(401, "Unauthorized: Invalid or missing domain_id in token")
        else Granted(claims.domainId.value)
  }

  /** Lines 36-41: what the page shows of a form. */
  datatype UserFormView = UserFormView(id: int, title: string, description: string, hashid: string)

  /** Lines 45-48: the names shown for the user; `avatar_name` may still be undefined. */
  datatype UserInfo = UserInfo(avatarName: Option<string>, domainName: string)

  datatype UserLoadResult =
    | UserDenied(status: int, message: string)   // `throw error(...)`
    | UserCrashed                                 // getTokenPayload threw
    | UserPageData(token: string, user: UserInfo, forms: map<int, UserFormView>)

  /** `a || b` for two optional strings. */
  function Or(a: Option<string>, b: Option<string>): Option<string> {
    if Truthy(a) then a else b
  }

  /** Lines 27-41: the active forms of one domain with their hashids. */
  function ActiveForms(forms: map<int, Form>, domainId: string, encode: int -> string): map<int, UserFormView> {
    map id | id in forms && forms[id].domainId == domainId && forms[id].isActive ::
      UserFormView(id, forms[id].title, forms[id].description, encode(id))
  }

  /** `load`, lines 6-55: the verifier's answer enters only through getTokenPayload (line 13). */
  function Load(token: Option<string>, verify: Verifier, forms: map<int, Form>, encode: int -> string): UserLoadResult {
    UserLoad(token, GetTokenPayload(token, verify), forms, encode)
  }

  /** Lines 9-49, given what getTokenPayload made of the token. */
  function UserLoad(token: Option<string>, payload: TokenPayload, forms: map<int, Form>, encode: int -> string): UserLoadResult {
    match UserAccess(token, payload)
    case Crashed => UserCrashed
    case Denied(status, message) => UserDenied(status, message)
    case Granted(d) =>
      var claims := payload.claims;
      var user := UserInfo(Or(claims.avatarName, claims.avatarId), OrEmpty(Or(claims.domainName, claims.domainId)));
      UserPageData(token.value, user, ActiveForms(forms, d, encode))
  }

  // ---------------------------------------------------------------------
  // Properties of the user page

  /** The first failing check decides, in the order token, payload, domain; the role is never read. */
  lemma UserChecksInOrder(token: Option<string>, payload: TokenPayload)
    ensures !Truthy(token) ==> UserAccess(token, payload) == Denied(401, "Unauthorized: Missing token")
    ensures Truthy(token) && payload == Rejected ==>
      UserAccess(token, payload) == Denied(401, "Unauthorized: Invalid token")
    ensures Truthy(token) && payload == Thrown ==> UserAccess(token, payload) == Crashed
    ensures forall claims :: Truthy(token) && payload == Verified(claims) ==>
      UserAccess(token, payload) ==
        if Truthy(claims.domainId) then Granted(claims.domainId.value)
        else Denied(401, "Unauthorized: Invalid or missing domain_id in token")
  {
  }

  /** Any token the admin panel accepts opens the user page for the same domain. */
  lemma AdminMayUseUserPage(token: Option<string>, payload: TokenPayload)
    requires AdminPage.AdminAccess(token, payload).Granted?
    ensures UserAccess(token, payload) == AdminPage.AdminAccess(token, payload)
  {
  }

  /** A verified token with a domain but without the admin role opens the user page and not the panel. */
  lemma NonAdminTokenAccepted(token: Option<string>, payload: TokenPayload)
    requires Truthy(token) && payload.Verified?
    requires payload.claims.role != Some("admin")
    requires Truthy(payload.claims.domainId)
    ensures UserAccess(token, payload) == Granted(payload.claims.domainId.value)
    ensures AdminPage.AdminAccess(token, payload) == Denied(401, "Unauthorized: Admin role required")
  {
  }

  /** The page lists exactly the active forms of the token's domain, with their own fields. */
  lemma PageListsActiveDomainForms(token: Option<string>, payload: TokenPayload, forms: map<int, Form>, encode: int -> string)
    requires UserAccess(token, payload).Granted?
    ensures var d := UserAccess(token, payload).domainId;
      var page := UserLoad(token, payload, forms, encode);
      && page.UserPageData?
      && page.token == token.value
      && page.forms.Keys == (set id | id in forms && forms[id].domainId == d && forms[id].isActive)
      && forall id :: id in page.forms ==>
           page.forms[id] == UserFormView(id, forms[id].title, forms[id].description, encode(id))
  {
  }

  /** Forms of other domains and inactive forms never reach the page. */
  lemma OtherFormsHidden(token: Option<string>, payload: TokenPayload, forms: map<int, Form>, encode: int -> string, id: int)
    requires UserAccess(token, payload).Granted?
    requires id in forms && (!forms[id].isActive || forms[id].domainId != UserAccess(token, payload).domainId)
    ensures id !in UserLoad(token, payload, forms, encode).forms
  {
  }

  /** Lines 45-48: each name falls back to the corresponding id when it is absent or empty. */
  lemma DisplayNamesFallBack(token: Option<string>, payload: TokenPayload, forms: map<int, Form>, encode: int -> string)
    requires UserAccess(token, payload).Granted?
    ensures var claims := payload.claims;
      var user := UserLoad(token, payload, forms, encode).user;
      && (Truthy(claims.avatarName) ==> user.avatarName == claims.avatarName)
      && (!Truthy(claims.avatarName) ==> user.avatarName == claims.avatarId)
      && (Truthy(claims.domainName) ==> user.domainName == claims.domainName.value)
      && (!Truthy(claims.domainName) ==> user.domainName == claims.domainId.value)
      && user.domainName != []
  {
  }

  /** A refused request gets no page: deny with 401, or the exception of getTokenPayload. */
  lemma RefusedGetsNoPage(token: Option<string>, payload: TokenPayload, forms: map<int, Form>, encode: int -> string)
    requires !UserAccess(token, payload).Granted?
    ensures !UserLoad(token, payload, forms, encode).UserPageData?
    ensures UserLoad(token, payload, forms, encode).UserDenied? ==> UserLoad(token, payload, forms, encode).status == 401
  {
  }
}
