/**
 * The single-file application's own rules outside its calendar and notification copies: the
 * permission lists per user type, the permission check, and the two registration handlers.
 *
 * Form fields are `FormData.get` values (`None` for a missing field); `localStorage`, alerts and
 * screens are not part of this model.
 */
module BackupApp {
  import opened Wrappers

  // ---------------------------------------------------------------- permissions

  const ClientPermissions: seq<string> := ["view_appointments", "book_appointment", "cancel_appointment", "rate_service"]
  const BarberPermissions: seq<string> := ["view_appointments", "manage_schedule", "view_earnings", "manage_services"]
  const Everything: string := "*"

  /** `getUserPermissions`: the fixed list of the type, `['*']` for an administrator, none for any other type. */
  function GetUserPermissions(userType: string): (r: seq<string>)
    ensures userType == "admin" <==> r == [Everything]
    ensures userType !in {"cliente", "barbeiro", "admin"} <==> r == []
    ensures userType in {"cliente", "barbeiro"} ==> Everything !in r && |r| == 4 && "view_appointments" in r
  {
    match userType
    case "cliente" => ClientPermissions
    case "barbeiro" => BarberPermissions
    case "admin" => [Everything]
    case _ => []
  }

  /** The signed-in user as `hasPermission` sees it; `permissions` may be absent. */
  datatype SessionUser = SessionUser(userType: string, permissions: Option<seq<string>>)

  /** `hasPermission`: no user has none; otherwise the wildcard or the permission itself must be listed. */
  function HasPermission(currentUser: Option<SessionUser>, permission: string): (r: bool)
    ensures currentUser.None? ==> !r
    ensures currentUser.Some? ==>
      (r <==> var ps := currentUser.value.permissions.GetOr([]); Everything in ps || permission in ps)
  {
    match currentUser
    case None => false
    case Some(u) =>
      var ps := u.permissions.GetOr([]);
      Everything in ps || permission in ps
  }

  /** A user carrying its type's list: an administrator may do anything, a client may book but not manage a schedule. */
  lemma PermissionsByType(permission: string)
    ensures HasPermission(Some(SessionUser("admin", Some(GetUserPermissions("admin")))), permission)
    ensures HasPermission(Some(SessionUser("cliente", Some(GetUserPermissions("cliente")))), "book_appointment")
    ensures !HasPermission(Some(SessionUser("cliente", Some(GetUserPermissions("cliente")))), "manage_schedule")
    ensures !HasPermission(Some(SessionUser("barbeiro", Some(GetUserPermissions("barbeiro")))), "rate_service")
  {
  }

  /** A user without a permission list, or of an unknown type, is refused everything. */
  lemma NoListNoPermission(userType: string, permission: string)
    requires userType !in {"cliente", "barbeiro", "admin"}
    ensures !HasPermission(Some(SessionUser(userType, None)), permission)
    ensures !HasPermission(Some(SessionUser(userType, Some(GetUserPermissions(userType)))), permission)
  {
  }

  // ---------------------------------------------------------------- registration

  /** The fields the registration forms submit. */
  datatype RegistrationForm = RegistrationForm(name: Option<string>, email: Option<string>, password: Option<string>,
                                               confirmPassword: Option<string>, phone: Option<string>)

  /** A stored user: the form's fields (the confirmation included), the type, an id and a creation time. */
  datatype StoredUser = StoredUser(id: int, name: string, email: string, password: string,
                                   confirmPassword: Option<string>, phone: Option<string>, userType: string,
                                   createdAt: string)

  const NameTooShort := "Nome deve ter pelo menos 2 caracteres"
  const InvalidEmail := "Email inválido"
  const PasswordTooShort := "Senha deve ter pelo menos 6 caracteres"
  const PasswordMismatch := "Senhas não coincidem"
  const EmailTaken := "Email já cadastrado"

  predicate NameOk(f: RegistrationForm) { f.name.Some? && |f.name.value| >= 2 }
  predicate EmailOk(f: RegistrationForm) { f.email.Some? && '@' in f.email.value }
  predicate PasswordOk(f: RegistrationForm) { f.password.Some? && |f.password.value| >= 6 }

  /**
   * The first failing check of the form, in the handlers' order (name, email, password length,
   * confirmation), before the list of users is read.
   */
  function FormError(f: RegistrationForm): (r: Option<string>)
    ensures r.None? <==> NameOk(f) && EmailOk(f) && PasswordOk(f) && f.confirmPassword == f.password
    ensures r == Some(NameTooShort) <==> !NameOk(f)
    ensures r == Some(InvalidEmail) <==> NameOk(f) && !EmailOk(f)
    ensures r == Some(PasswordTooShort) <==> NameOk(f) && EmailOk(f) && !PasswordOk(f)
    ensures r == Some(PasswordMismatch) <==> NameOk(f) && EmailOk(f) && PasswordOk(f) && f.confirmPassword != f.password
  {
    if f.name.None? || |f.name.value| < 2 then Some(NameTooShort)
    else if f.email.None? || '@' !in f.email.value then Some(InvalidEmail)
    else if f.password.None? || |f.password.value| < 6 then Some(PasswordTooShort)
    else if f.password != f.confirmPassword then Some(PasswordMismatch)
    else None
  }

  predicate EmailInUse(users: seq<StoredUser>, email: string)
  {
    exists i :: 0 <= i < |users| && users[i].email == email
  }

  /** The list of registered users the handlers read, extend and write back. */
  class RegisteredUsers {
    var users: seq<StoredUser>

    constructor (users: seq<StoredUser>)
      ensures this.users == users
    {
      this.users := users;
    }

    /** Whether some stored user has the email: `existingUsers.find(user => user.email === email)`. */
    method Exists(email: string) returns (found: bool)
      ensures found <==> EmailInUse(users, email)
    {
      found := false;
      var i := 0;
      while i < |users|
        invariant i <= |users|
        invariant found <==> exists j :: 0 <= j < i && users[j].email == email
      {
        if users[i].email == email {
          found := true;
        }
        i := i + 1;
      }
    }

    /**
     * `handleClienteRegistration` (type `cliente`) and `handleBarbeiroRegistration` (type
     * `barbeiro`): the first failing check, or an email already in use, leaves the list as it was;
     * otherwise exactly one user is appended.
     */
    method HandleRegistration(f: RegistrationForm, userType: string, id: int, now: string) returns (r: Result<StoredUser>)
      modifies this`users
      ensures FormError(f).Some? ==> r == Err(FormError(f).value) && users == old(users)
      ensures FormError(f).None? && EmailInUse(old(users), f.email.value) ==>
        r == Err(EmailTaken) && users == old(users)
      ensures r.Ok? <==> FormError(f).None? && !EmailInUse(old(users), f.email.value)
      ensures r.Ok? ==>
        users == old(users) + [r.value] &&
        r.value == StoredUser(id, f.name.value, f.email.value, f.password.value, f.confirmPassword, f.phone, userType, now)
    {
      var error := FormError(f);
      if error.Some? {
        return Err(error.value);
      }
      var taken := Exists(f.email.value);
      if taken {
        return Err(EmailTaken);
      }
      var u := StoredUser(id, f.name.value, f.email.value, f.password.value, f.confirmPassword, f.phone, userType, now);
      users := users + [u];
      r := Ok(u);
    }

    /**
     * Two registrations with the same email, of either type: once the first succeeds, the second
     * is refused (by its own first failing check, or as an email in use) and only the first user
     * is kept.
     */
    method RegisterSameEmailTwice(f: RegistrationForm, g: RegistrationForm, firstType: string, secondType: string,
                                  id1: int, id2: int, now: string) returns (first: Result<StoredUser>, second: Result<StoredUser>)
      requires f.email == g.email
      modifies this`users
      ensures first.Ok? ==> second.Err? && users == old(users) + [first.value]
      ensures first.Ok? && FormError(g).None? ==> second == Err(EmailTaken)
    {
      first := HandleRegistration(f, firstType, id1, now);
      ghost var afterFirst := users;
      second := HandleRegistration(g, secondType, id2, now);
      if first.Ok? && FormError(g).None? {
        assert afterFirst[|afterFirst| - 1].email == g.email.value;
        assert EmailInUse(afterFirst, g.email.value);
      }
    }
  }

}
