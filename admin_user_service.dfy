/**
 * The admin-user service: role normalisation, the validation of create and
 * update requests (every failing rule reported, in rule order), the mapping
 * of store failures to HTTP errors, and the records the service stores.
 * The store is a map from id to record; bcrypt is a hash function given as
 * a parameter.
 */
module AdminUserService {
  import opened Common
  import opened Text
  import ValidateMiddleware
  import ErrorMiddleware

  datatype Role = ADMIN | WAREHOUSE

  /** The role name the store keeps. */
  function RoleName(role: Role): string
  {
    match role
    case ADMIN => "ADMIN"
    case WAREHOUSE => "WAREHOUSE"
  }

  const MSG_ID_INVALID := "ID admin tidak valid"
  const MSG_NOT_FOUND := "Admin tidak ditemukan"
  const MSG_DELETE_FAILED := "Admin tidak bisa dihapus"
  const MSG_USERNAME_TAKEN := "Username sudah digunakan"
  const MSG_FAILED := "Validasi gagal"

  /** The messages of `createAdminUser`, in rule order. */
  const CREATE_MESSAGES: seq<string> := [
    "Nama wajib diisi",
    "Jabatan wajib diisi",
    "Nomor Telp wajib diisi",
    "Username wajib diisi",
    "Password wajib diisi",
    "Role harus admin atau warehouse"]

  /** The messages of `updateAdminUser`: the same rules without the password. */
  const UPDATE_MESSAGES: seq<string> := [
    "Nama wajib diisi",
    "Jabatan wajib diisi",
    "Nomor Telp wajib diisi",
    "Username wajib diisi",
    "Role harus admin atau warehouse"]

  /** Every rule has its own message. */
  lemma MessagesDistinct()
    ensures Distinct(CREATE_MESSAGES) && Distinct(UPDATE_MESSAGES)
  {
  }

  /** `isNonEmptyString`, the same rule the request validators use. */
  predicate IsNonEmptyString(v: JsValue)
  {
    ValidateMiddleware.IsNonEmptyString(v)
  }

  /**
   * What `ADMIN_ROLES[key]` reads: one of the table's own two roles, or a
   * member every object inherits. Only two inherited members have an
   * all-lower-case name, and both are truthy objects.
   */
  datatype RoleValue = Own(role: Role) | Inherited(name: string)

  /** The lower-case names of the members an object literal inherits. */
  const INHERITED_KEYS: seq<string> := ["constructor", "__proto__"]

  /**
   * `normalizeRole`: a string, trimmed and lower-cased, that names one of the
   * two roles, or an inherited member of the lookup table; anything else has
   * no role.
   */
  function NormalizeRole(role: JsValue): (r: Option<RoleValue>)
    ensures r == Some(Own(ADMIN)) <==> role.Str? && ToLower(Trim(role.s)) == "admin"
    ensures r == Some(Own(WAREHOUSE)) <==> role.Str? && ToLower(Trim(role.s)) == "warehouse"
    ensures (r.Some? && r.value.Inherited?) <==> role.Str? && ToLower(Trim(role.s)) in INHERITED_KEYS
    ensures r.Some? && r.value.Inherited? ==> r.value.name == ToLower(Trim(role.s))
    ensures r.None? <==> (!role.Str? || (ToLower(Trim(role.s)) != "admin" && ToLower(Trim(role.s)) != "warehouse" &&
                                         ToLower(Trim(role.s)) !in INHERITED_KEYS))
  {
    if !role.Str? then None
    else
      var key := ToLower(Trim(role.s));
      if key == "admin" then Some(Own(ADMIN))
      else if key == "warehouse" then Some(Own(WAREHOUSE))
      else if key in INHERITED_KEYS then Some(Inherited(key))
      else None
  }

  /** "Constructor" passes as a role: the lookup finds the inherited constructor. */
  lemma ConstructorPassesAsRole()
    ensures NormalizeRole(Str("Constructor")) == Some(Inherited("constructor"))
  {
    TrimNoop("Constructor");
    LowerIs("Constructor", "constructor");
  }

  /** So does "__proto__": the lookup finds the inherited prototype. */
  lemma ProtoPassesAsRole()
    ensures NormalizeRole(Str("__proto__")) == Some(Inherited("__proto__"))
  {
    TrimNoop("__proto__");
    LowerIs("__proto__", "__proto__");
  }

  /** A role read back from the store normalises to itself. */
  lemma StoredRoleNormalizes(role: Role)
    ensures NormalizeRole(Str(RoleName(role))) == Some(Own(role))
  {
    if role == ADMIN {
      AdminNormalizes();
    } else {
      WarehouseNormalizes();
    }
  }

  lemma AdminNormalizes()
    ensures NormalizeRole(Str("ADMIN")) == Some(Own(ADMIN))
  {
    TrimNoop("ADMIN");
    LowerIs("ADMIN", "admin");
  }

  lemma WarehouseNormalizes()
    ensures NormalizeRole(Str("WAREHOUSE")) == Some(Own(WAREHOUSE))
  {
    TrimNoop("WAREHOUSE");
    LowerIs("WAREHOUSE", "warehouse");
  }

  lemma LowerIs(s: string, t: string)
    requires |s| == |t| && forall i :: 0 <= i < |s| ==> LowerChar(s[i]) == t[i]
    ensures ToLower(s) == t
  {
  }

  // ---------------------------------------------------------------------
  // handlePrismaError
  // ---------------------------------------------------------------------

  /** `err.meta.target`: absent, one field name, or a list of them. */
  datatype Target = NoTarget | OneField(field: string) | Fields(fields: seq<string>)

  /** A failure the store reports: its error code and the fields involved. */
  datatype StoreError = StoreError(code: string, target: Target)

  /** What `handlePrismaError` throws: an HTTP error, or the store's own error unchanged. */
  datatype Thrown = Http(error: HttpError) | Rethrown(cause: StoreError)

  /** The fields a target names; a single empty name is not a target at all. */
  function TargetFields(t: Target): seq<string>
  {
    match t
    case NoTarget => []
    case OneField(f) => if f == "" then [] else [f]
    case Fields(fs) => fs
  }

  /**
   * `handlePrismaError`: a unique-constraint violation on the username is a
   * 409; every other failure is thrown on unchanged.
   */
  function HandlePrismaError(err: StoreError): (r: Thrown)
    ensures r.Http? <==> err.code == "P2002" && "username" in TargetFields(err.target)
    ensures r.Http? ==> r.error == HttpError(409, MSG_USERNAME_TAKEN, None)
    ensures r.Rethrown? ==> r.cause == err
  {
    if err.code == "P2002" && err.target != NoTarget && !(err.target.OneField? && err.target.field == "") then
      var targets := if err.target.Fields? then err.target.fields else [err.target.field];
      if "username" in targets then Http(HttpError(409, MSG_USERNAME_TAKEN, None)) else Rethrown(err)
    else Rethrown(err)
  }

  /**
   * The store's refusal of a role outside its enumeration (an inherited
   * member of the lookup table): a validation error without an error code,
   * raised before any record is looked at.
   */
  const ROLE_REFUSED := StoreError("", NoTarget)

  /** That refusal is not a unique violation, so it is thrown on unchanged. */
  lemma RoleRefusedRethrown()
    ensures HandlePrismaError(ROLE_REFUSED) == Rethrown(ROLE_REFUSED)
  {
  }

  /**
   * An error thrown on unchanged has no HTTP status, so whatever the store's
   * message, the error middleware answers it with a 500.
   */
  lemma RethrownIs500(message: Option<string>)
    ensures ErrorMiddleware.HandleError(ErrorMiddleware.ThrownError(None, message, None), false).reply.status == 500
  {
  }

  /** The unique violation the store raises for a username that is already taken. */
  const DUPLICATE_USERNAME := StoreError("P2002", Fields(["username"]))

  /** A taken username is reported as a 409. */
  lemma DuplicateUsernameIs409()
    ensures HandlePrismaError(DUPLICATE_USERNAME) == Http(HttpError(409, MSG_USERNAME_TAKEN, None))
  {
    assert "username" in TargetFields(DUPLICATE_USERNAME.target);
  }

  // ---------------------------------------------------------------------
  // Records and requests
  // ---------------------------------------------------------------------

  /** A stored admin user, kept under its id. */
  datatype Admin = Admin(name: string, position: string, phone: string, username: string, role: Role, passwordHash: string)

  /** What a reply shows of an admin: the fields `adminSelect` picks, which leave out the password hash. */
  datatype AdminView = AdminView(id: string, name: string, position: string, phone: string, role: Role, username: string)

  /** `select: adminSelect` on the admin stored under `id`. */
  function View(id: string, a: Admin): AdminView
  {
    AdminView(id, a.name, a.position, a.phone, a.role, a.username)
  }

  /** A reply never depends on the password hash, and shows every other stored field. */
  lemma ViewHidesHash(id: string, a: Admin, b: Admin)
    ensures View(id, a) == View(id, b) <==>
      a.name == b.name && a.position == b.position && a.phone == b.phone && a.role == b.role && a.username == b.username
  {
  }

  /** The fields of an admin-user request body. */
  datatype AdminBody = AdminBody(name: JsValue, position: JsValue, phone: JsValue, username: JsValue, password: JsValue, role: JsValue)

  /** A text the store keeps: non-empty and without white space at either end. */
  predicate Trimmed(s: string)
  {
    s != "" && Trim(s) == s
  }

  /** Which of the create rules fail, in rule order. */
  function CreateFailures(body: AdminBody): seq<bool>
  {
    [!IsNonEmptyString(body.name), !IsNonEmptyString(body.position), !IsNonEmptyString(body.phone),
     !IsNonEmptyString(body.username), !IsNonEmptyString(body.password), NormalizeRole(body.role).None?]
  }

  /** Which of the update rules fail, in rule order. */
  function UpdateFailures(body: AdminBody): seq<bool>
  {
    [!IsNonEmptyString(body.name), !IsNonEmptyString(body.position), !IsNonEmptyString(body.phone),
     !IsNonEmptyString(body.username), NormalizeRole(body.role).None?]
  }

  /** Every create rule holds. */
  predicate CreateValid(body: AdminBody)
  {
    && IsNonEmptyString(body.name) && IsNonEmptyString(body.position) && IsNonEmptyString(body.phone)
    && IsNonEmptyString(body.username) && IsNonEmptyString(body.password) && NormalizeRole(body.role).Some?
  }

  /** Every update rule holds: the create rules without the password. */
  predicate UpdateValid(body: AdminBody)
  {
    && IsNonEmptyString(body.name) && IsNonEmptyString(body.position) && IsNonEmptyString(body.phone)
    && IsNonEmptyString(body.username) && NormalizeRole(body.role).Some?
  }

  /** What a create or update ends in: the record stored and the reply that shows it, or what it throws. */
  datatype Saved = Stored(record: Admin, reply: AdminView) | Threw(thrown: Thrown)

  /** Some admin other than `except` already has the username. */
  predicate UsernameInUse(admins: map<string, Admin>, except: string, username: string)
  {
    exists k :: k in admins && k != except && admins[k].username == username
  }

  /**
   * The record the store keeps for a valid request: the four texts trimmed,
   * the normalised role and the password hash.
   */
  function StoredRecord(body: AdminBody, role: Role, passwordHash: string): (a: Admin)
    requires UpdateValid(body)
    ensures Trimmed(a.name) && Trimmed(a.position) && Trimmed(a.phone) && Trimmed(a.username)
    ensures a.name == Trim(body.name.s) && a.position == Trim(body.position.s)
    ensures a.phone == Trim(body.phone.s) && a.username == Trim(body.username.s)
    ensures a.role == role && a.passwordHash == passwordHash
  {
    TrimmedText(body.name);
    TrimmedText(body.position);
    TrimmedText(body.phone);
    TrimmedText(body.username);
    Admin(Trim(body.name.s), Trim(body.position.s), Trim(body.phone.s), Trim(body.username.s), role, passwordHash)
  }

  /** Trimming a non-blank string gives a text the store keeps. */
  lemma TrimmedText(v: JsValue)
    requires IsNonEmptyString(v)
    ensures Trimmed(Trim(v.s))
  {
    TrimNoop(Trim(v.s));
  }

  /**
   * Six `if (rule fails) errors.push(message)` statements in a row: the
   * messages of the failing rules, in rule order.
   */
  method PushSix(messages: seq<string>, f0: bool, f1: bool, f2: bool, f3: bool, f4: bool, f5: bool) returns (errors: seq<string>)
    requires |messages| == 6
    ensures errors == Selected(messages, [f0, f1, f2, f3, f4, f5], 6)
  {
    ghost var flags := [f0, f1, f2, f3, f4, f5];
    errors := [];
    if f0 { errors := errors + [messages[0]]; }
    assert errors == Selected(messages, flags, 1);
    if f1 { errors := errors + [messages[1]]; }
    assert errors == Selected(messages, flags, 2);
    if f2 { errors := errors + [messages[2]]; }
    assert errors == Selected(messages, flags, 3);
    if f3 { errors := errors + [messages[3]]; }
    assert errors == Selected(messages, flags, 4);
    if f4 { errors := errors + [messages[4]]; }
    assert errors == Selected(messages, flags, 5);
    if f5 { errors := errors + [messages[5]]; }
  }

  /** The same with five rules. */
  method PushFive(messages: seq<string>, f0: bool, f1: bool, f2: bool, f3: bool, f4: bool) returns (errors: seq<string>)
    requires |messages| == 5
    ensures errors == Selected(messages, [f0, f1, f2, f3, f4], 5)
  {
    ghost var flags := [f0, f1, f2, f3, f4];
    errors := [];
    if f0 { errors := errors + [messages[0]]; }
    assert errors == Selected(messages, flags, 1);
    if f1 { errors := errors + [messages[1]]; }
    assert errors == Selected(messages, flags, 2);
    if f2 { errors := errors + [messages[2]]; }
    assert errors == Selected(messages, flags, 3);
    if f3 { errors := errors + [messages[3]]; }
    assert errors == Selected(messages, flags, 4);
    if f4 { errors := errors + [messages[4]]; }
  }

  /** Six rules report nothing exactly when none of them fails. */
  lemma NoneOfSix<T>(xs: seq<T>, a: bool, b: bool, c: bool, d: bool, e: bool, f: bool)
    requires |xs| == 6
    ensures Selected(xs, [a, b, c, d, e, f], 6) == [] <==> !a && !b && !c && !d && !e && !f
  {
    var flags := [a, b, c, d, e, f];
    SelectedEmpty(xs, flags, 6);
    assert flags[0] == a && flags[1] == b && flags[2] == c && flags[3] == d && flags[4] == e && flags[5] == f;
  }

  /** Five rules report nothing exactly when none of them fails. */
  lemma NoneOfFive<T>(xs: seq<T>, a: bool, b: bool, c: bool, d: bool, e: bool)
    requires |xs| == 5
    ensures Selected(xs, [a, b, c, d, e], 5) == [] <==> !a && !b && !c && !d && !e
  {
    var flags := [a, b, c, d, e];
    SelectedEmpty(xs, flags, 5);
    assert flags[0] == a && flags[1] == b && flags[2] == c && flags[3] == d && flags[4] == e;
  }

  // ---------------------------------------------------------------------
  // createAdminUser
  // ---------------------------------------------------------------------

  /**
   * `createAdminUser`: the failing rules are reported together as one 400;
   * otherwise the trimmed fields are stored with the hash of the trimmed
   * password, unless another admin already has the username. A role that
   * names an inherited member passes the checks and is refused by the store,
   * which is thrown on unchanged.
   */
  method CreateAdminUser(body: AdminBody, admins: map<string, Admin>, newId: string, hash: string -> string)
    returns (r: Saved)
    ensures !CreateValid(body) ==>
      r == Threw(Http(HttpError(400, MSG_FAILED, Some(Selected(CREATE_MESSAGES, CreateFailures(body), 6)))))
    ensures CreateValid(body) && NormalizeRole(body.role).value.Inherited? ==> r == Threw(Rethrown(ROLE_REFUSED))
    ensures CreateValid(body) && NormalizeRole(body.role).value.Own? && UsernameInUse(admins, newId, Trim(body.username.s)) ==>
      r == Threw(Http(HttpError(409, MSG_USERNAME_TAKEN, None)))
    ensures CreateValid(body) && NormalizeRole(body.role).value.Own? && !UsernameInUse(admins, newId, Trim(body.username.s)) ==>
      var a := StoredRecord(body, NormalizeRole(body.role).value.role, hash(Trim(body.password.s)));
      r == Stored(a, View(newId, a))
  {
    var errors := PushSix(CREATE_MESSAGES, !IsNonEmptyString(body.name), !IsNonEmptyString(body.position),
      !IsNonEmptyString(body.phone), !IsNonEmptyString(body.username), !IsNonEmptyString(body.password),
      NormalizeRole(body.role).None?);
    CreatePassesIff(body);
    if |errors| > 0 {
      return Threw(Http(HttpError(400, MSG_FAILED, Some(errors))));
    }
    var role := NormalizeRole(body.role).value;
    var passwordHash := hash(Trim(body.password.s));
    if role.Inherited? {
      RoleRefusedRethrown();
      return Threw(HandlePrismaError(ROLE_REFUSED));
    }
    if UsernameInUse(admins, newId, Trim(body.username.s)) {
      DuplicateUsernameIs409();
      return Threw(HandlePrismaError(DUPLICATE_USERNAME));
    }
    var record := StoredRecord(body, role.role, passwordHash);
    r := Stored(record, View(newId, record));
  }

  /** Each create message is reported exactly when its rule fails. */
  lemma CreateMessagesIff(body: AdminBody)
    ensures var errors := Selected(CREATE_MESSAGES, CreateFailures(body), 6);
      && (CREATE_MESSAGES[0] in errors <==> !IsNonEmptyString(body.name))
      && (CREATE_MESSAGES[1] in errors <==> !IsNonEmptyString(body.position))
      && (CREATE_MESSAGES[2] in errors <==> !IsNonEmptyString(body.phone))
      && (CREATE_MESSAGES[3] in errors <==> !IsNonEmptyString(body.username))
      && (CREATE_MESSAGES[4] in errors <==> !IsNonEmptyString(body.password))
      && (CREATE_MESSAGES[5] in errors <==> NormalizeRole(body.role).None?)
  {
    var flags := CreateFailures(body);
    MessagesDistinct();
    SelectedMembership(CREATE_MESSAGES, flags, 6, 0);
    SelectedMembership(CREATE_MESSAGES, flags, 6, 1);
    SelectedMembership(CREATE_MESSAGES, flags, 6, 2);
    SelectedMembership(CREATE_MESSAGES, flags, 6, 3);
    SelectedMembership(CREATE_MESSAGES, flags, 6, 4);
    SelectedMembership(CREATE_MESSAGES, flags, 6, 5);
  }

  // ---------------------------------------------------------------------
  // updateAdminUser
  // ---------------------------------------------------------------------

  /**
   * `updateAdminUser`: a missing id is a 400 before anything else; then the
   * validation as for create, without the password; an unknown id is a
   * 404 and a username another admin has is a 409. The password hash is
   * replaced only when a non-blank password is given. A role that names an
   * inherited member is refused by the store before the record is looked
   * up, and thrown on unchanged.
   */
  method UpdateAdminUser(id: Option<string>, body: AdminBody, admins: map<string, Admin>, hash: string -> string)
    returns (r: Saved)
    ensures !Present(id) ==> r == Threw(Http(Fail400(MSG_ID_INVALID)))
    ensures Present(id) && !UpdateValid(body) ==>
      r == Threw(Http(HttpError(400, MSG_FAILED, Some(Selected(UPDATE_MESSAGES, UpdateFailures(body), 5)))))
    ensures Present(id) && UpdateValid(body) && NormalizeRole(body.role).value.Inherited? ==> r == Threw(Rethrown(ROLE_REFUSED))
    ensures Present(id) && UpdateValid(body) && NormalizeRole(body.role).value.Own? && id.value !in admins ==>
      r == Threw(Http(Fail404(MSG_NOT_FOUND)))
    ensures Present(id) && UpdateValid(body) && NormalizeRole(body.role).value.Own? && id.value in admins &&
            UsernameInUse(admins, id.value, Trim(body.username.s)) ==>
      r == Threw(Http(HttpError(409, MSG_USERNAME_TAKEN, None)))
    ensures Present(id) && UpdateValid(body) && NormalizeRole(body.role).value.Own? && id.value in admins &&
            !UsernameInUse(admins, id.value, Trim(body.username.s)) ==>
      var a := StoredRecord(body, NormalizeRole(body.role).value.role,
                            if IsNonEmptyString(body.password) then hash(Trim(body.password.s))
                            else admins[id.value].passwordHash);
      r == Stored(a, View(id.value, a))
  {
    if !Present(id) {
      return Threw(Http(Fail400(MSG_ID_INVALID)));
    }
    var errors := PushFive(UPDATE_MESSAGES, !IsNonEmptyString(body.name), !IsNonEmptyString(body.position),
      !IsNonEmptyString(body.phone), !IsNonEmptyString(body.username), NormalizeRole(body.role).None?);
    UpdatePassesIff(body);
    if |errors| > 0 {
      return Threw(Http(HttpError(400, MSG_FAILED, Some(errors))));
    }
    var role := NormalizeRole(body.role).value;
    if role.Inherited? {
      RoleRefusedRethrown();
      return Threw(HandlePrismaError(ROLE_REFUSED));
    }
    if id.value !in admins {
      return Threw(Http(Fail404(MSG_NOT_FOUND)));
    }
    var passwordHash := admins[id.value].passwordHash;
    if IsNonEmptyString(body.password) {
      passwordHash := hash(Trim(body.password.s));
    }
    if UsernameInUse(admins, id.value, Trim(body.username.s)) {
      DuplicateUsernameIs409();
      return Threw(HandlePrismaError(DUPLICATE_USERNAME));
    }
    var record := StoredRecord(body, role.role, passwordHash);
    r := Stored(record, View(id.value, record));
  }

  /**
   * Each update message is reported exactly when its rule fails; the
   * password is never required.
   */
  lemma UpdateMessagesIff(body: AdminBody)
    ensures var errors := Selected(UPDATE_MESSAGES, UpdateFailures(body), 5);
      && (UPDATE_MESSAGES[0] in errors <==> !IsNonEmptyString(body.name))
      && (UPDATE_MESSAGES[1] in errors <==> !IsNonEmptyString(body.position))
      && (UPDATE_MESSAGES[2] in errors <==> !IsNonEmptyString(body.phone))
      && (UPDATE_MESSAGES[3] in errors <==> !IsNonEmptyString(body.username))
      && (UPDATE_MESSAGES[4] in errors <==> NormalizeRole(body.role).None?)
  {
    var flags := UpdateFailures(body);
    MessagesDistinct();
    SelectedMembership(UPDATE_MESSAGES, flags, 5, 0);
    SelectedMembership(UPDATE_MESSAGES, flags, 5, 1);
    SelectedMembership(UPDATE_MESSAGES, flags, 5, 2);
    SelectedMembership(UPDATE_MESSAGES, flags, 5, 3);
    SelectedMembership(UPDATE_MESSAGES, flags, 5, 4);
  }

  /** A create request is refused with no message at all exactly when it is valid. */
  lemma CreatePassesIff(body: AdminBody)
    ensures Selected(CREATE_MESSAGES, CreateFailures(body), 6) == [] <==> CreateValid(body)
  {
    NoneOfSix(CREATE_MESSAGES, !IsNonEmptyString(body.name), !IsNonEmptyString(body.position), !IsNonEmptyString(body.phone),
      !IsNonEmptyString(body.username), !IsNonEmptyString(body.password), NormalizeRole(body.role).None?);
  }

  /** The same for an update request. */
  lemma UpdatePassesIff(body: AdminBody)
    ensures Selected(UPDATE_MESSAGES, UpdateFailures(body), 5) == [] <==> UpdateValid(body)
  {
    NoneOfFive(UPDATE_MESSAGES, !IsNonEmptyString(body.name), !IsNonEmptyString(body.position), !IsNonEmptyString(body.phone),
      !IsNonEmptyString(body.username), NormalizeRole(body.role).None?);
  }

  // ---------------------------------------------------------------------
  // getAdminUserById / deleteAdminUser
  // ---------------------------------------------------------------------

  /**
   * `getAdminUserById`: 400 for a missing id, 404 for an unknown one, else
   * the stored admin as `adminSelect` shows it, without its password hash.
   */
  function GetAdminUserById(id: Option<string>, admins: map<string, Admin>): (r: Result<AdminView>)
    ensures !Present(id) ==> r == Err(Fail400(MSG_ID_INVALID))
    ensures Present(id) && id.value !in admins ==> r == Err(Fail404(MSG_NOT_FOUND))
    ensures Present(id) && id.value in admins ==> r == Ok(View(id.value, admins[id.value]))
  {
    if !Present(id) then Err(Fail400(MSG_ID_INVALID))
    else if id.value !in admins then Err(Fail404(MSG_NOT_FOUND))
    else Ok(View(id.value, admins[id.value]))
  }

  /** A delete's reply (the removed admin as `adminSelect` shows it) and the admins that remain. */
  datatype Deletion = Deletion(deleted: AdminView, admins: map<string, Admin>)

  /**
   * `deleteAdminUser`: 400 for a missing id, 404 for an unknown one, and 400
   * for any other refusal of the store (an admin other records still refer
   * to).
   */
  function DeleteAdminUser(id: Option<string>, admins: map<string, Admin>, inUse: set<string>): (r: Result<Deletion>)
    ensures !Present(id) ==> r == Err(Fail400(MSG_ID_INVALID))
    ensures Present(id) && id.value !in admins ==> r == Err(Fail404(MSG_NOT_FOUND))
    ensures Present(id) && id.value in admins && id.value in inUse ==> r == Err(Fail400(MSG_DELETE_FAILED))
    ensures r.Ok? ==>
      && Present(id) && id.value in admins && id.value !in inUse
      && r.value.deleted == View(id.value, admins[id.value])
      && r.value.admins.Keys == admins.Keys - {id.value}
      && forall k :: k in r.value.admins ==> r.value.admins[k] == admins[k]
  {
    if !Present(id) then Err(Fail400(MSG_ID_INVALID))
    else if id.value !in admins then Err(Fail404(MSG_NOT_FOUND))
    else if id.value in inUse then Err(Fail400(MSG_DELETE_FAILED))
    else Ok(Deletion(View(id.value, admins[id.value]), admins - {id.value}))
  }

  /** Once deleted, an admin is not found any more, and a second delete is a 404. */
  lemma DeletedIsGone(id: Option<string>, admins: map<string, Admin>, inUse: set<string>)
    requires DeleteAdminUser(id, admins, inUse).Ok?
    ensures var after := DeleteAdminUser(id, admins, inUse).value.admins;
      && GetAdminUserById(id, after) == Err(Fail404(MSG_NOT_FOUND))
      && DeleteAdminUser(id, after, inUse) == Err(Fail404(MSG_NOT_FOUND))
  {
  }
}
