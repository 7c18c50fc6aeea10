/**
 * The embedded admin panel, src/routes/.well-known/placenet/admin/+page.server.js:
 * `load` and the form actions `createForm`, `deleteForm`, `duplicateForm`
 * and `toggleActive`. Each one first runs a fixed sequence of authorisation
 * checks on the `token` query parameter and then reads or changes only the
 * forms of the token's domain.
 *
 * Every operation is a pure step on the Tables value (its specification, with
 * the lemmas below) and a method on the Database that performs the same step
 * in place.
 */
module AdminPage {
  import opened JsString
  import opened Auth
  import opened Store

  /**
   * Lines 9-25 (and the same checks with the same messages at lines 82-101),
   * given what getTokenPayload made of the token.
   */
  function AdminAccess(token: Option<string>, payload: TokenPayload): Access {
    if !Truthy(token) then Denied(401, "Unauthorized: Missing token")
    else
      match payload
      case Thrown => Crashed
      case Rejected => Denied(401, "Unauthorized: Invalid token")
      case Verified(claims) =>
        if claims.role != Some("admin") then Denied(401, "Unauthorized: Admin role required")
        else if !Truthy(claims.domainId) then Denied(401, "Unauthorized: Invalid or missing domain_id in token")
        else Granted(claims.domainId.value)
  }

  /** Lines 141-149, 189-197 and 250-258: the same checks, one message for all but the first. */
  function ActionAccess(token: Option<string>, payload: TokenPayload): Access {
    if !Truthy(token) then Denied(401, "Unauthorized: Missing token")
    else
      match payload
      case Thrown => Crashed
      case Rejected => Denied(401, "Unauthorized")
      case Verified(claims) =>
        if claims.role != Some("admin") || !Truthy(claims.domainId) then Denied(401, "Unauthorized")
        else Granted(claims.domainId.value)
  }

  /** A form as `load` returns it: the row, its hashid and its number of submissions. */
  datatype AdminFormView = AdminFormView(id: int, form: Form, hashid: string, submissionCount: nat)

  datatype LoadResult =
    | LoadFailed(status: int, message: string)   // `throw error(...)`
    | LoadCrashed                                 // getTokenPayload threw
    | Loaded(token: string, forms: map<int, AdminFormView>)

  /** What an action returns: `fail(status, ...)`, a success object, or an exception. */
  datatype ActionResult =
    | Failed(status: int, message: string)
    | Succeeded(message: string, formId: Option<string>)
    | ActionCrashed

  /** Lines 45-60: the forms of one domain with their hashids and submission counts. */
  function DomainForms(forms: map<int, Form>, domainId: string, encode: int -> string, submissions: int -> nat): map<int, AdminFormView> {
    map id | id in forms && forms[id].domainId == domainId :: AdminFormView(id, forms[id], encode(id), submissions(id))
  }

  // ---------------------------------------------------------------------
  // The operations as steps on the tables

  /** `load`, lines 6-70. */
  function LoadStep(t: Tables, token: Option<string>, payload: TokenPayload, encode: int -> string, submissions: int -> nat): (LoadResult, Tables) {
    match AdminAccess(token, payload)
    case Crashed => (LoadCrashed, t)
    case Denied(status, message) => (LoadFailed(status, message), t)
    case Granted(d) =>
      var t' := if d in t.domains then t else t.(domains := t.domains + {d});
      (Loaded(token.value, DomainForms(t'.forms, d, encode, submissions)), t')
  }

  /** `actions.createForm`, lines 73-132. */
  function CreateFormStep(t: Tables, token: Option<string>, title: Option<string>, description: Option<string>,
                          payload: TokenPayload, encode: int -> string, activeByDefault: bool): (ActionResult, Tables) {
    var title := OrEmpty(title);
    var description := OrEmpty(description);
    match AdminAccess(token, payload)
    case Crashed => (ActionCrashed, t)
    case Denied(status, message) => (Failed(status, message), t)
    case Granted(d) =>
      if title == [] then (Failed(400, "Form title is required"), t)
      else
        var form := Form(d, title, description, "[]", activeByDefault);
        (Succeeded("Form created successfully", Some(encode(t.nextId))),
         t.(forms := t.forms[t.nextId := form], nextId := t.nextId + 1))
  }

  /** `actions.deleteForm`, lines 134-180. */
  function DeleteFormStep(t: Tables, token: Option<string>, formId: Option<int>, payload: TokenPayload): (ActionResult, Tables) {
    match ActionAccess(token, payload)
    case Crashed => (ActionCrashed, t)
    case Denied(status, message) => (Failed(status, message), t)
    case Granted(d) =>
      if formId.None? then (Failed(400, "No form ID provided"), t)
      else if FindFirst(t.forms, formId.value, d).None? then (Failed(404, "Form not found"), t)
      else (Succeeded("Form deleted successfully", None), t.(forms := t.forms - {formId.value}))
  }

  /** The copy `duplicateForm` inserts (lines 219-227). */
  function Copy(original: Form, domainId: string): Form {
    Form(domainId, original.title + " (Copia)", original.description, original.fields, false)
  }

  /** `actions.duplicateForm`, lines 182-240. */
  function DuplicateFormStep(t: Tables, token: Option<string>, formId: Option<int>, payload: TokenPayload): (ActionResult, Tables) {
    match ActionAccess(token, payload)
    case Crashed => (ActionCrashed, t)
    case Denied(status, message) => (Failed(status, message), t)
    case Granted(d) =>
      if formId.None? then (Failed(400, "No form ID provided"), t)
      else
        match FindFirst(t.forms, formId.value, d)
        case None => (Failed(404, "Form not found"), t)
        case Some(original) =>
          (Succeeded("Formulario duplicado exitosamente", None),
           t.(forms := t.forms[t.nextId := Copy(original, d)], nextId := t.nextId + 1))
  }

  /** Line 246: the submitted flag, which is true only for the exact string 'true'. */
  function SubmittedActive(isActive: Option<string>): bool {
    isActive == Some("true")
  }

  /** Line 286: the success message names the new state. */
  function ToggleMessage(nowActive: bool): string {
    if nowActive then "Form activated successfully" else "Form deactivated successfully"
  }

  /** `actions.toggleActive`, lines 242-293. */
  function ToggleActiveStep(t: Tables, token: Option<string>, formId: Option<int>, isActive: Option<string>,
                            payload: TokenPayload): (ActionResult, Tables) {
    var nowActive := !SubmittedActive(isActive);
    match ActionAccess(token, payload)
    case Crashed => (ActionCrashed, t)
    case Denied(status, message) => (Failed(status, message), t)
    case Granted(d) =>
      if formId.None? then (Failed(400, "No form ID provided"), t)
      else
        match FindFirst(t.forms, formId.value, d)
        case None => (Failed(404, "Form not found"), t)
        case Some(form) =>
          (Succeeded(ToggleMessage(nowActive), None),
           t.(forms := t.forms[formId.value := form.(isActive := nowActive)]))
  }

  // ---------------------------------------------------------------------
  // The operations on the database, in place. Each calls `getPayload` for
  // getTokenPayload (`t => GetTokenPayload(t, verify)` in the running
  // system), and the step functions above say what follows from its answer.

  method Load(db: Database, token: Option<string>, getPayload: Option<string> -> TokenPayload, encode: int -> string, submissions: int -> nat)
    returns (r: LoadResult)
    requires db.Valid()
    modifies db
    ensures db.Valid()
    ensures (r, db.Snapshot()) == LoadStep(old(db.Snapshot()), token, getPayload(token), encode, submissions)
  {
    var payload := getPayload(token);
    var access := AdminAccess(token, payload);
    match access
    case Crashed => r := LoadCrashed;
    case Denied(status, message) => r := LoadFailed(status, message);
    case Granted(d) =>
      if d !in db.domains {
        db.CreateDomain(d);
      }
      r := Loaded(token.value, DomainForms(db.forms, d, encode, submissions));
  }

  method CreateForm(db: Database, token: Option<string>, title: Option<string>, description: Option<string>,
                    getPayload: Option<string> -> TokenPayload, encode: int -> string)
    returns (r: ActionResult)
    requires db.Valid()
    modifies db
    ensures db.Valid()
    ensures (r, db.Snapshot()) == CreateFormStep(old(db.Snapshot()), token, title, description, getPayload(token), encode, db.activeByDefault)
  {
    var title := OrEmpty(title);
    var description := OrEmpty(description);
    var payload := getPayload(token);
    var access := AdminAccess(token, payload);
    match access
    case Crashed => r := ActionCrashed;
    case Denied(status, message) => r := Failed(status, message);
    case Granted(d) =>
      if title == [] {
        return Failed(400, "Form title is required");
      }
      ghost var before := db.Snapshot();
      var form := Form(d, title, description, "[]", db.activeByDefault);
      var id := db.CreateForm(form);
      r := Succeeded("Form created successfully", Some(encode(id)));
      assert db.Snapshot() == before.(forms := before.forms[before.nextId := form], nextId := before.nextId + 1);
  }

  method DeleteForm(db: Database, token: Option<string>, formId: Option<int>, getPayload: Option<string> -> TokenPayload)
    returns (r: ActionResult)
    requires db.Valid()
    modifies db
    ensures db.Valid()
    ensures (r, db.Snapshot()) == DeleteFormStep(old(db.Snapshot()), token, formId, getPayload(token))
  {
    var payload := getPayload(token);
    var access := ActionAccess(token, payload);
    match access
    case Crashed => r := ActionCrashed;
    case Denied(status, message) => r := Failed(status, message);
    case Granted(d) =>
      if formId.None? {
        return Failed(400, "No form ID provided");
      }
      var form := FindFirst(db.forms, formId.value, d);
      if form.None? {
        return Failed(404, "Form not found");
      }
      db.DeleteForm(formId.value);
      r := Succeeded("Form deleted successfully", None);
  }

  method DuplicateForm(db: Database, token: Option<string>, formId: Option<int>, getPayload: Option<string> -> TokenPayload)
    returns (r: ActionResult)
    requires db.Valid()
    modifies db
    ensures db.Valid()
    ensures (r, db.Snapshot()) == DuplicateFormStep(old(db.Snapshot()), token, formId, getPayload(token))
  {
    var payload := getPayload(token);
    var access := ActionAccess(token, payload);
    match access
    case Crashed => r := ActionCrashed;
    case Denied(status, message) => r := Failed(status, message);
    case Granted(d) =>
      if formId.None? {
        return Failed(400, "No form ID provided");
      }
      var original := FindFirst(db.forms, formId.value, d);
      if original.None? {
        return Failed(404, "Form not found");
      }
      ghost var before := db.Snapshot();
      var copy := Copy(original.value, d);
      var _ := db.CreateForm(copy);
      r := Succeeded("Formulario duplicado exitosamente", None);
      assert db.Snapshot() == before.(forms := before.forms[before.nextId := copy], nextId := before.nextId + 1);
  }

  method ToggleActive(db: Database, token: Option<string>, formId: Option<int>, isActive: Option<string>, getPayload: Option<string> -> TokenPayload)
    returns (r: ActionResult)
    requires db.Valid()
    modifies db
    ensures db.Valid()
    ensures (r, db.Snapshot()) == ToggleActiveStep(old(db.Snapshot()), token, formId, isActive, getPayload(token))
  {
    var submitted := SubmittedActive(isActive);
    var payload := getPayload(token);
    var access := ActionAccess(token, payload);
    match access
    case Crashed => r := ActionCrashed;
    case Denied(status, message) => r := Failed(status, message);
    case Granted(d) =>
      if formId.None? {
        return Failed(400, "No form ID provided");
      }
      var form := FindFirst(db.forms, formId.value, d);
      if form.None? {
        return Failed(404, "Form not found");
      }
      db.SetActive(formId.value, !submitted);
      r := Succeeded(ToggleMessage(!submitted), None);
  }

  // ---------------------------------------------------------------------
  // Properties of the admin panel

  /** Lines 9-25: the first failing check decides, in the order token, payload, role, domain. */
  lemma AdminChecksInOrder(token: Option<string>, payload: TokenPayload)
    ensures !Truthy(token) ==> AdminAccess(token, payload) == Denied(401, "Unauthorized: Missing token")
    ensures Truthy(token) && payload == Rejected ==>
      AdminAccess(token, payload) == Denied(401, "Unauthorized: Invalid token")
    ensures Truthy(token) && payload == Thrown ==> AdminAccess(token, payload) == Crashed
    ensures forall claims :: Truthy(token) && payload == Verified(claims) ==>
      AdminAccess(token, payload) ==
        if claims.role != Some("admin") then Denied(401, "Unauthorized: Admin role required")
        else if !Truthy(claims.domainId) then Denied(401, "Unauthorized: Invalid or missing domain_id in token")
        else Granted(claims.domainId.value)
  {
  }

  /** The admin ladder and the actions' combined check admit the same tokens for the same domain. */
  lemma AccessChecksAgree(token: Option<string>, payload: TokenPayload)
    ensures AdminAccess(token, payload).Granted? <==> ActionAccess(token, payload).Granted?
    ensures AdminAccess(token, payload).Granted? ==> AdminAccess(token, payload) == ActionAccess(token, payload)
    ensures AdminAccess(token, payload).Crashed? <==> ActionAccess(token, payload).Crashed?
    ensures AdminAccess(token, payload).Denied? ==>
      AdminAccess(token, payload).status == 401 && ActionAccess(token, payload).status == 401
  {
  }

  /** Lines 31-64: a successful load leaves the token's domain in `domains` and lists exactly its forms. */
  lemma LoadListsDomainForms(t: Tables, token: Option<string>, payload: TokenPayload, encode: int -> string, submissions: int -> nat)
    requires AdminAccess(token, payload).Granted?
    ensures var d := AdminAccess(token, payload).domainId;
      var step := LoadStep(t, token, payload, encode, submissions);
      && step.1.domains == t.domains + {d}
      && (d in t.domains ==> step.1 == t)
      && step.1.forms == t.forms && step.1.nextId == t.nextId
      && step.0.Loaded? && step.0.token == token.value
      && step.0.forms.Keys == (set id | id in t.forms && t.forms[id].domainId == d)
      && forall id :: id in step.0.forms ==>
           step.0.forms[id] == AdminFormView(id, t.forms[id], encode(id), submissions(id))
  {
  }

  /** A refused load changes nothing. */
  lemma RefusedLoadChangesNothing(t: Tables, token: Option<string>, payload: TokenPayload, encode: int -> string, submissions: int -> nat)
    requires !AdminAccess(token, payload).Granted?
    ensures LoadStep(t, token, payload, encode, submissions).1 == t
    ensures !LoadStep(t, token, payload, encode, submissions).0.Loaded?
  {
  }

  /** Authorisation comes before the title: a bad token without a title is a 401, not a 400. */
  lemma CreateChecksAuthBeforeTitle(t: Tables, token: Option<string>, title: Option<string>, description: Option<string>,
                                    payload: TokenPayload, encode: int -> string, activeByDefault: bool)
    requires !AdminAccess(token, payload).Granted?
    ensures var step := CreateFormStep(t, token, title, description, payload, encode, activeByDefault);
      && step.1 == t
      && (step.0.Failed? ==> step.0.status == 401)
      && (step.0.ActionCrashed? <==> AdminAccess(token, payload).Crashed?)
  {
  }

  /** An absent or empty title is a 400 and inserts nothing. */
  lemma CreateNeedsTitle(t: Tables, token: Option<string>, title: Option<string>, description: Option<string>,
                         payload: TokenPayload, encode: int -> string, activeByDefault: bool)
    requires AdminAccess(token, payload).Granted? && !Truthy(title)
    ensures CreateFormStep(t, token, title, description, payload, encode, activeByDefault)
      == (Failed(400, "Form title is required"), t)
  {
  }

  /** A successful create adds exactly one form, in the token's domain, with no fields. */
  lemma CreateAddsOneForm(t: Tables, token: Option<string>, title: Option<string>, description: Option<string>,
                          payload: TokenPayload, encode: int -> string, activeByDefault: bool)
    requires Fresh(t) && AdminAccess(token, payload).Granted? && Truthy(title)
    ensures var d := AdminAccess(token, payload).domainId;
      var step := CreateFormStep(t, token, title, description, payload, encode, activeByDefault);
      && t.nextId !in t.forms
      && step.1.forms.Keys == t.forms.Keys + {t.nextId}
      && (forall id :: id in t.forms ==> step.1.forms[id] == t.forms[id])
      && step.1.forms[t.nextId].domainId == d
      && step.1.forms[t.nextId].title == title.value
      && (Truthy(description) ==> step.1.forms[t.nextId].description == description.value)
      && (!Truthy(description) ==> step.1.forms[t.nextId].description == "")
      && step.1.forms[t.nextId].fields == "[]"
      && step.1.forms[t.nextId].isActive == activeByDefault
      && |step.1.forms| == |t.forms| + 1
      && step.1.domains == t.domains
      && step.0 == Succeeded("Form created successfully", Some(encode(t.nextId)))
  {
  }

  /** The combined authorisation check comes before the form id, in all three actions. */
  lemma ActionsCheckAuthBeforeFormId(t: Tables, token: Option<string>, formId: Option<int>, isActive: Option<string>, payload: TokenPayload)
    requires !ActionAccess(token, payload).Granted?
    ensures var result := DeleteFormStep(t, token, formId, payload).0;
      && result == DuplicateFormStep(t, token, formId, payload).0
      && result == ToggleActiveStep(t, token, formId, isActive, payload).0
      && (result.Failed? ==> result.status == 401)
    ensures DeleteFormStep(t, token, formId, payload).1 == t
    ensures DuplicateFormStep(t, token, formId, payload).1 == t
    ensures ToggleActiveStep(t, token, formId, isActive, payload).1 == t
  {
  }

  /** An authorised request without a form id is a 400 and changes nothing. */
  lemma ActionsNeedFormId(t: Tables, token: Option<string>, isActive: Option<string>, payload: TokenPayload)
    requires ActionAccess(token, payload).Granted?
    ensures DeleteFormStep(t, token, None, payload) == (Failed(400, "No form ID provided"), t)
    ensures DuplicateFormStep(t, token, None, payload) == (Failed(400, "No form ID provided"), t)
    ensures ToggleActiveStep(t, token, None, isActive, payload) == (Failed(400, "No form ID provided"), t)
  {
  }

  /** A form that does not exist or belongs to another domain is a 404 and changes nothing. */
  lemma ForeignFormNotFound(t: Tables, token: Option<string>, id: int, isActive: Option<string>, payload: TokenPayload)
    requires ActionAccess(token, payload).Granted?
    requires id !in t.forms || t.forms[id].domainId != ActionAccess(token, payload).domainId
    ensures DeleteFormStep(t, token, Some(id), payload) == (Failed(404, "Form not found"), t)
    ensures DuplicateFormStep(t, token, Some(id), payload) == (Failed(404, "Form not found"), t)
    ensures ToggleActiveStep(t, token, Some(id), isActive, payload) == (Failed(404, "Form not found"), t)
  {
  }

  /**
   * `t'` differs from `t` only in forms of domain `d`: every form of another
   * domain is still there unchanged, every new or changed form is in `d`,
   * and `domains` is the same.
   */
  ghost predicate ScopedTo(t: Tables, t': Tables, d: string) {
    && (forall id :: id in t.forms && t.forms[id].domainId != d ==> id in t'.forms && t'.forms[id] == t.forms[id])
    && (forall id :: id in t'.forms && (id !in t.forms || t'.forms[id] != t.forms[id]) ==> t'.forms[id].domainId == d)
    && t'.domains == t.domains
  }

  /** A create touches no form of another domain: the only new form is in the token's domain. */
  lemma CreateStaysInDomain(t: Tables, token: Option<string>, title: Option<string>, description: Option<string>,
                            payload: TokenPayload, encode: int -> string, activeByDefault: bool)
    requires Fresh(t) && AdminAccess(token, payload).Granted?
    ensures ScopedTo(t, CreateFormStep(t, token, title, description, payload, encode, activeByDefault).1,
                     AdminAccess(token, payload).domainId)
  {
  }

  /** A delete removes no form of another domain. */
  lemma DeleteStaysInDomain(t: Tables, token: Option<string>, formId: Option<int>, payload: TokenPayload)
    requires ActionAccess(token, payload).Granted?
    ensures ScopedTo(t, DeleteFormStep(t, token, formId, payload).1, ActionAccess(token, payload).domainId)
  {
  }

  /** A duplicate touches no form of another domain: the copy is in the token's domain. */
  lemma DuplicateStaysInDomain(t: Tables, token: Option<string>, formId: Option<int>, payload: TokenPayload)
    requires Fresh(t) && ActionAccess(token, payload).Granted?
    ensures ScopedTo(t, DuplicateFormStep(t, token, formId, payload).1, ActionAccess(token, payload).domainId)
  {
  }

  /** A toggle changes no form of another domain. */
  lemma ToggleStaysInDomain(t: Tables, token: Option<string>, formId: Option<int>, isActive: Option<string>, payload: TokenPayload)
    requires ActionAccess(token, payload).Granted?
    ensures ScopedTo(t, ToggleActiveStep(t, token, formId, isActive, payload).1, ActionAccess(token, payload).domainId)
  {
  }

  /** Every step keeps the autoincrement counter above the ids in use. */
  lemma LoadKeepsIdsFresh(t: Tables, token: Option<string>, payload: TokenPayload, encode: int -> string, submissions: int -> nat)
    requires Fresh(t)
    ensures Fresh(LoadStep(t, token, payload, encode, submissions).1)
  {
  }

  lemma CreateKeepsIdsFresh(t: Tables, token: Option<string>, title: Option<string>, description: Option<string>,
                            payload: TokenPayload, encode: int -> string, activeByDefault: bool)
    requires Fresh(t)
    ensures Fresh(CreateFormStep(t, token, title, description, payload, encode, activeByDefault).1)
  {
  }

  lemma DeleteKeepsIdsFresh(t: Tables, token: Option<string>, formId: Option<int>, payload: TokenPayload)
    requires Fresh(t)
    ensures Fresh(DeleteFormStep(t, token, formId, payload).1)
  {
  }

  lemma DuplicateKeepsIdsFresh(t: Tables, token: Option<string>, formId: Option<int>, payload: TokenPayload)
    requires Fresh(t)
    ensures Fresh(DuplicateFormStep(t, token, formId, payload).1)
  {
  }

  lemma ToggleKeepsIdsFresh(t: Tables, token: Option<string>, formId: Option<int>, isActive: Option<string>, payload: TokenPayload)
    requires Fresh(t)
    ensures Fresh(ToggleActiveStep(t, token, formId, isActive, payload).1)
  {
  }

  /** Deleting removes that one form of the token's domain and nothing else. */
  lemma DeleteRemovesOne(t: Tables, token: Option<string>, id: int, payload: TokenPayload)
    requires ActionAccess(token, payload).Granted?
    requires id in t.forms && t.forms[id].domainId == ActionAccess(token, payload).domainId
    ensures var step := DeleteFormStep(t, token, Some(id), payload);
      && step.0 == Succeeded("Form deleted successfully", None)
      && step.1.forms.Keys == t.forms.Keys - {id}
      && (forall k :: k in step.1.forms ==> step.1.forms[k] == t.forms[k])
      && step.1.domains == t.domains
  {
  }

  /** Duplicating inserts one inactive "(Copia)" of the form and leaves the original as it was. */
  lemma DuplicateAddsCopy(t: Tables, token: Option<string>, id: int, payload: TokenPayload)
    requires Fresh(t) && ActionAccess(token, payload).Granted?
    requires id in t.forms && t.forms[id].domainId == ActionAccess(token, payload).domainId
    ensures var original := t.forms[id];
      var step := DuplicateFormStep(t, token, Some(id), payload);
      && step.0 == Succeeded("Formulario duplicado exitosamente", None)
      && t.nextId !in t.forms
      && step.1.forms == t.forms[t.nextId := step.1.forms[t.nextId]]
      && step.1.forms[t.nextId].domainId == original.domainId
      && step.1.forms[t.nextId].title == original.title + " (Copia)"
      && step.1.forms[t.nextId].description == original.description
      && step.1.forms[t.nextId].fields == original.fields
      && !step.1.forms[t.nextId].isActive
      && step.1.forms[id] == original
  {
  }

  /** The toggle message says "activated" exactly when the form is now active. */
  lemma ToggleMessageNamesState(nowActive: bool)
    ensures ToggleMessage(nowActive) == "Form activated successfully" <==> nowActive
    ensures ToggleMessage(nowActive) == "Form deactivated successfully" <==> !nowActive
  {
    assert "Form activated successfully"[5] != "Form deactivated successfully"[5];
  }

  /**
   * Toggling stores the negation of the submitted flag, whatever is stored,
   * changes nothing else, and reports the new state.
   */
  lemma ToggleStoresNegatedSubmission(t: Tables, token: Option<string>, id: int, isActive: Option<string>, payload: TokenPayload)
    requires ActionAccess(token, payload).Granted?
    requires id in t.forms && t.forms[id].domainId == ActionAccess(token, payload).domainId
    ensures var step := ToggleActiveStep(t, token, Some(id), isActive, payload);
      && step.1.forms == t.forms[id := t.forms[id].(isActive := isActive != Some("true"))]
      && step.1.domains == t.domains && step.1.nextId == t.nextId
      && step.0 == Succeeded(ToggleMessage(isActive != Some("true")), None)
  {
  }
}
