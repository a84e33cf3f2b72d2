/**
 * The static client application: password scoring and the strength meter, the client
 * registration checks and the offline `registerUser`, the seven-day saved login, the
 * notification `lida` flag behind the badge, and the booking confirmation.
 *
 * Form fields, `localStorage` entries, ids and clocks are parameters; screens, modals, toasts and
 * the simulated delays are not part of this model.
 */
module ClientApp {
  import opened Wrappers
  import opened Strings
  import opened Sequences
  import AccessControl

  // ---------------------------------------------------------------- passwords

  predicate HasUpper(p: string) { exists i :: 0 <= i < |p| && 'A' <= p[i] <= 'Z' }
  predicate HasLower(p: string) { exists i :: 0 <= i < |p| && 'a' <= p[i] <= 'z' }
  predicate HasDigit(p: string) { exists i :: 0 <= i < |p| && IsDigit(p[i]) }
  predicate IsSpecial(c: char) { c in "@$!%*?&" }
  predicate HasSpecial(p: string) { exists i :: 0 <= i < |p| && IsSpecial(p[i]) }

  datatype Requirements = Requirements(length: bool, uppercase: bool, lowercase: bool, number: bool, special: bool)

  datatype PasswordCheck = PasswordCheck(requirements: Requirements, score: nat, isValid: bool)

  function CountTrue(r: Requirements): nat
  {
    (if r.length then 1 else 0) + (if r.uppercase then 1 else 0) + (if r.lowercase then 1 else 0) +
    (if r.number then 1 else 0) + (if r.special then 1 else 0)
  }

  /** `validatePassword`: valid exactly when all five requirements hold. */
  function ValidatePassword(p: string): (r: PasswordCheck)
    ensures r.requirements == Requirements(|p| >= 8, HasUpper(p), HasLower(p), HasDigit(p), HasSpecial(p))
    ensures r.score <= 5
    ensures r.isValid <==> |p| >= 8 && HasUpper(p) && HasLower(p) && HasDigit(p) && HasSpecial(p)
  {
    var req := Requirements(|p| >= 8, HasUpper(p), HasLower(p), HasDigit(p), HasSpecial(p));
    var score := CountTrue(req);
    PasswordCheck(req, score, score == 5)
  }

  /** A password of eight characters or more with each kind of character is valid; one missing any kind is not. */
  lemma ValidPasswordExample()
    ensures ValidatePassword("Barba@2024").isValid
    ensures !ValidatePassword("barba@2024").isValid
  {
    assert 'B' == "Barba@2024"[0];
    assert 'a' == "Barba@2024"[1];
    assert IsDigit("Barba@2024"[6]);
    assert IsSpecial("Barba@2024"[5]);
    assert !HasUpper("barba@2024");
  }

  datatype Strength = Weak | Medium | Strong

  /** The level rule of `updatePasswordStrength`. */
  function Level(score: nat): Strength
  {
    if score >= 4 then Strong else if score >= 3 then Medium else Weak
  }

  function Rank(s: Strength): nat
  {
    match s
    case Weak => 0
    case Medium => 1
    case Strong => 2
  }

  function StrengthText(s: Strength): string
  {
    match s
    case Weak => "Fraca"
    case Medium => "Média"
    case Strong => "Forte"
  }

  /** A higher score never shows a weaker level, and a valid password always shows as strong. */
  lemma LevelMonotone(p: string, q: string)
    ensures ValidatePassword(p).score <= ValidatePassword(q).score ==>
      Rank(Level(ValidatePassword(p).score)) <= Rank(Level(ValidatePassword(q).score))
    ensures ValidatePassword(p).isValid ==> Level(ValidatePassword(p).score) == Strong
    ensures |p| < 8 && !HasSpecial(p) ==> Level(ValidatePassword(p).score) != Strong
  {
  }

  /** A strength bar: its plain class, or the class of the level it is filled with. */
  datatype Bar = Plain | Filled(level: Strength)

  /**
   * `updatePasswordStrength`: every bar is reset; an empty password shows no text; otherwise the
   * first `min(score, bars)` bars are filled with the level and the text names it.
   */
  method UpdatePasswordStrength(password: string, bars: array<Bar>) returns (text: string)
    modifies bars
    ensures var score := ValidatePassword(password).score;
      forall i :: 0 <= i < bars.Length ==>
        bars[i] == if password != [] && i < score then Filled(Level(score)) else Plain
    ensures text == if password == [] then "" else "Força da senha: " + StrengthText(Level(ValidatePassword(password).score))
  {
    var b := 0;
    while b < bars.Length
      invariant b <= bars.Length
      invariant forall i :: 0 <= i < b ==> bars[i] == Plain
    {
      bars[b] := Plain;
      b := b + 1;
    }
    if |password| == 0 {
      return "";
    }
    var score := ValidatePassword(password).score;
    var level := Level(score);
    var n := if score < bars.Length then score else bars.Length;
    var i := 0;
    while i < n
      invariant i <= n
      invariant forall j :: 0 <= j < bars.Length ==> bars[j] == if j < i then Filled(level) else Plain
    {
      bars[i] := Filled(level);
      i := i + 1;
    }
    text := "Força da senha: " + StrengthText(level);
  }

  // ---------------------------------------------------------------- registration

  /** `^[^\s@]+@[^\s@]+\.[^\s@]+$`: no whitespace, one '@' with text before it, and a dot inside the part after it. */
  predicate IsEmail(s: string)
  {
    (forall i :: 0 <= i < |s| ==> !IsSpace(s[i])) &&
    exists a :: 0 < a < |s| && s[a] == '@' && '@' !in s[..a] && '@' !in s[a + 1..] &&
      exists d :: a + 1 < d < |s| - 1 && s[d] == '.'
  }

  /** What the client registration form submits. */
  datatype ClientForm = ClientForm(name: string, email: string, password: string, confirmPassword: string,
                                   terms: bool, phone: string)

  const NameTooShort := "Nome deve ter pelo menos 2 caracteres"
  const InvalidEmail := "E-mail inválido"
  const WeakPassword := "Senha deve conter: maiúscula, minúscula, número e símbolo"
  const PasswordMismatch := "Senhas não coincidem"
  const TermsRequired := "Você deve aceitar os termos de uso"

  /** The message `m` when the check fails (`c`), nothing otherwise. */
  function When(c: bool, m: string): (r: seq<string>)
    ensures forall x :: x in r <==> c && x == m
    ensures r == [] <==> !c
  {
    if c then [m] else []
  }

  /** The field errors `handleClienteRegistration` shows, in the order it checks them. */
  function ClientFormErrors(f: ClientForm): (errors: seq<string>)
    ensures NameTooShort in errors <==> |Trim(f.name)| < 2
    ensures InvalidEmail in errors <==> !IsEmail(f.email)
    ensures WeakPassword in errors <==> !ValidatePassword(f.password).isValid
    ensures PasswordMismatch in errors <==> f.password != f.confirmPassword
    ensures TermsRequired in errors <==> !f.terms
    ensures errors == [] <==> |Trim(f.name)| >= 2 && IsEmail(f.email) && ValidatePassword(f.password).isValid &&
                              f.password == f.confirmPassword && f.terms
  {
    When(|Trim(f.name)| < 2, NameTooShort) +
    When(!IsEmail(f.email), InvalidEmail) +
    When(!ValidatePassword(f.password).isValid, WeakPassword) +
    When(f.password != f.confirmPassword, PasswordMismatch) +
    When(!f.terms, TermsRequired)
  }

  /** A string without whitespace is its own `trim()`. */
  lemma {:induction false} TrimWithoutSpaces(s: string)
    requires forall i :: 0 <= i < |s| ==> !IsSpace(s[i])
    ensures Trim(s) == s
  {
    assert TrimStart(s) == s;
    assert TrimEnd(s) == s;
  }

  /** An accepted email is stored lower-cased, with nothing trimmed from it. */
  lemma AcceptedEmailNotTrimmed(f: ClientForm)
    requires ClientFormErrors(f) == []
    ensures Trim(ToLower(f.email)) == ToLower(f.email)
  {
    var l := ToLower(f.email);
    forall i | 0 <= i < |l| ensures !IsSpace(l[i]) {
      assert !IsSpace(f.email[i]);
    }
    TrimWithoutSpaces(l);
  }

  datatype User = User(id: int, name: string, email: string, password: string, userType: string,
                       phone: Option<string>, createdAt: string, isActive: bool)

  /** The `registrationData` built from an accepted form. */
  function RegistrationData(f: ClientForm, id: int, now: string): User
  {
    User(id, Trim(f.name), Trim(ToLower(f.email)), f.password, "cliente",
         if f.phone == "" then None else Some(f.phone), now, true)
  }

  const EmailTaken := "E-mail já cadastrado"

  function EmailIndex(users: seq<User>, email: string): (r: Option<nat>)
    ensures r.Some? ==> r.value < |users| && users[r.value].email == email
    ensures r.Some? ==> forall j :: 0 <= j < r.value ==> users[j].email != email
    ensures r.None? <==> forall i :: 0 <= i < |users| ==> users[i].email != email
  {
    FirstIndex(users, (u: User) => u.email == email)
  }

  predicate UniqueEmails(users: seq<User>)
  {
    forall i, j :: 0 <= i < |users| && 0 <= j < |users| && users[i].email == users[j].email ==> i == j
  }

  datatype Appointment = Appointment(id: int, barber: string, service: string, date: string, time: string,
                                     status: string, price: int)

  datatype Barber = Barber(id: string, name: string)
  datatype Service = Service(id: string, name: string, price: int)

  /** A notification of the client dashboard, with its `lida` (read) flag. */
  datatype ClientNotification = ClientNotification(id: int, kind: string, message: string, read: bool)

  predicate NotRead(n: ClientNotification) { !n.read }

  /** The badge: `notificacoes.filter(n => !n.lida).length`. */
  function UnreadBadge(ns: seq<ClientNotification>): (n: nat)
    ensures n <= |ns|
    ensures n == 0 <==> forall i :: 0 <= i < |ns| ==> ns[i].read
  {
    CountWhere(ns, NotRead)
  }

  function NotificationIndex(ns: seq<ClientNotification>, id: int): (r: Option<nat>)
    ensures r.Some? ==> r.value < |ns| && ns[r.value].id == id && forall j :: 0 <= j < r.value ==> ns[j].id != id
    ensures r.None? <==> forall i :: 0 <= i < |ns| ==> ns[i].id != id
  {
    FirstIndex(ns, (n: ClientNotification) => n.id == id)
  }

  /** Setting one notification's flag changes the badge by one when the flag was clear, and not at all otherwise. */
  lemma MarkingChangesBadgeByOne(ns: seq<ClientNotification>, k: nat)
    requires k < |ns|
    ensures UnreadBadge(ns[k := ns[k].(read := true)]) == UnreadBadge(ns) - (if ns[k].read then 0 else 1)
  {
    CountWhereUpdate(ns, k, ns[k].(read := true), NotRead);
  }

  const MissingFields := "Por favor, preencha todos os campos"
  const NoSuchOption := "Cannot read properties of undefined (reading 'nome')"

  function FindBarber(bs: seq<Barber>, id: string): (r: Option<Barber>)
    ensures r.Some? ==> r.value in bs && r.value.id == id
    ensures r.Some? ==> exists i :: 0 <= i < |bs| && bs[i] == r.value && forall j :: 0 <= j < i ==> bs[j].id != id
    ensures r.None? <==> forall i :: 0 <= i < |bs| ==> bs[i].id != id
  {
    Find(bs, (x: Barber) => x.id == id)
  }

  function FindService(ss: seq<Service>, id: string): (r: Option<Service>)
    ensures r.Some? ==> r.value in ss && r.value.id == id
    ensures r.Some? ==> exists i :: 0 <= i < |ss| && ss[i] == r.value && forall j :: 0 <= j < i ==> ss[j].id != id
    ensures r.None? <==> forall i :: 0 <= i < |ss| ==> ss[i].id != id
  {
    Find(ss, (x: Service) => x.id == id)
  }

  // ---------------------------------------------------------------- saved login

  const SevenDays: int := 7 * 24 * 60 * 60 * 1000

  /** The three `localStorage` entries of a saved login; `None` is a missing entry. */
  datatype SavedLogin = SavedLogin(isLoggedIn: Option<string>, currentUser: Option<string>, loginTime: Option<string>)

  predicate Truthy(v: Option<string>) { v.Some? && v.value != "" }

  /** The saved login is complete and `now - parseInt(loginTime)` is under seven days (a `NaN` difference is not). */
  predicate StillValid(saved: SavedLogin, now: int)
  {
    saved.isLoggedIn == Some("true") && Truthy(saved.currentUser) && Truthy(saved.loginTime) &&
    match AccessControl.ParseInt(saved.loginTime.value)
    case None => false
    case Some(t) => now - t < SevenDays
  }

  /** `checkSavedLogin`: the saved user when still valid; a complete but expired login is removed. */
  function CheckSavedLogin(saved: SavedLogin, now: int): (r: (Option<string>, SavedLogin))
    ensures r.0.Some? <==> StillValid(saved, now)
    ensures r.0.Some? ==> r.0 == saved.currentUser && r.1 == saved
    ensures r.0.None? && saved.isLoggedIn == Some("true") && Truthy(saved.currentUser) && Truthy(saved.loginTime) ==>
      r.1 == SavedLogin(None, None, None)
    ensures r.0.None? && !(saved.isLoggedIn == Some("true") && Truthy(saved.currentUser) && Truthy(saved.loginTime)) ==>
      r.1 == saved
  {
    if saved.isLoggedIn == Some("true") && Truthy(saved.currentUser) && Truthy(saved.loginTime) then
      if StillValid(saved, now) then (saved.currentUser, saved) else (None, SavedLogin(None, None, None))
    else (None, saved)
  }

  /** Once a check finds a login expired, no later check restores anything. */
  lemma ExpiryIsFinal(saved: SavedLogin, now: int, later: int)
    requires now <= later
    requires CheckSavedLogin(saved, now).0.None?
    ensures CheckSavedLogin(CheckSavedLogin(saved, now).1, later).0.None?
    ensures CheckSavedLogin(saved, later).0.None?
  {
  }

  /** A login saved at `t` is restored just before seven days have passed and not at seven days. */
  lemma SevenDayBoundary(user: string, t: nat)
    requires user != ""
    ensures CheckSavedLogin(SavedLogin(Some("true"), Some(user), Some(NatToString(t))), t + SevenDays - 1).0 == Some(user)
    ensures CheckSavedLogin(SavedLogin(Some("true"), Some(user), Some(NatToString(t))), t + SevenDays).0.None?
  {
    AccessControl.ParseIntOfSpelling(t, "");
    assert NatToString(t) + "" == NatToString(t);
  }

  // ---------------------------------------------------------------- the application state

  /** The client application's data: registered users, the client's appointments and notifications. */
  class ClientState {
    var registeredUsers: seq<User>
    var appointments: seq<Appointment>
    var notifications: seq<ClientNotification>

    constructor (users: seq<User>, notifications: seq<ClientNotification>)
      ensures registeredUsers == users && appointments == [] && this.notifications == notifications
    {
      registeredUsers := users;
      appointments := [];
      this.notifications := notifications;
    }

    /** `registerUser`: an email already in the list fails; otherwise exactly one active user is appended. */
    method RegisterUser(user: User) returns (r: Result<User>)
      modifies this`registeredUsers
      ensures EmailIndex(old(registeredUsers), user.email).Some? ==>
        r == Err(EmailTaken) && registeredUsers == old(registeredUsers)
      ensures EmailIndex(old(registeredUsers), user.email).None? ==>
        r == Ok(user.(isActive := true)) && registeredUsers == old(registeredUsers) + [user.(isActive := true)]
      ensures UniqueEmails(old(registeredUsers)) ==> UniqueEmails(registeredUsers)
    {
      if EmailIndex(registeredUsers, user.email).Some? {
        return Err(EmailTaken);
      }
      var newUser := user.(isActive := true);
      registeredUsers := registeredUsers + [newUser];
      r := Ok(newUser);
    }

    /** `handleClienteRegistration`: the field errors, or the result of registering the trimmed, lower-cased data. */
    method HandleClientRegistration(f: ClientForm, id: int, now: string) returns (errors: seq<string>, r: Option<Result<User>>)
      modifies this`registeredUsers
      ensures errors == ClientFormErrors(f)
      ensures errors != [] ==> r.None? && registeredUsers == old(registeredUsers)
      ensures errors == [] ==>
        (r.Some? && (r.value.Ok? ==> registeredUsers == old(registeredUsers) + [RegistrationData(f, id, now)]))
      ensures errors == [] ==> (r.value.Err? <==> EmailIndex(old(registeredUsers), ToLower(f.email)).Some?)
    {
      errors := ClientFormErrors(f);
      if errors != [] {
        return errors, None;
      }
      AcceptedEmailNotTrimmed(f);
      var res := RegisterUser(RegistrationData(f, id, now));
      r := Some(res);
    }

    /** `markAsRead`: the first notification with the id is marked read; nothing else changes. */
    method MarkAsRead(id: int)
      modifies this`notifications
      ensures match NotificationIndex(old(notifications), id)
        case None => notifications == old(notifications)
        case Some(k) => notifications == old(notifications)[k := old(notifications)[k].(read := true)]
      ensures UnreadBadge(notifications) <= UnreadBadge(old(notifications))
    {
      var k := NotificationIndex(notifications, id);
      if k.Some? {
        MarkingChangesBadgeByOne(notifications, k.value);
        notifications := notifications[k.value := notifications[k.value].(read := true)];
      }
    }

    /** The unread count shown on every badge. */
    method UpdateNotificationBadge() returns (count: nat)
      ensures count == UnreadBadge(notifications)
    {
      count := 0;
      var i := |notifications|;
      while i > 0
        invariant 0 <= i <= |notifications|
        invariant count == UnreadBadge(notifications[i..])
      {
        i := i - 1;
        assert notifications[i..][1..] == notifications[i + 1..];
        if !notifications[i].read {
          count := count + 1;
        }
      }
    }

    /**
     * `confirmarAgendamento`: all four fields are required; the chosen barber and service must
     * exist; then one confirmed appointment at the service's price is appended.
     */
    method ConfirmAppointment(barbers: seq<Barber>, services: seq<Service>, barberId: string, serviceId: string,
                              date: string, time: string, id: int) returns (r: Result<Appointment>)
      modifies this`appointments
      ensures barberId == "" || serviceId == "" || date == "" || time == "" ==>
        r == Err(MissingFields) && appointments == old(appointments)
      ensures r.Ok? ==>
        (appointments == old(appointments) + [r.value] &&
         r.value.status == "confirmado" && r.value.date == date && r.value.time == time &&
         (exists s :: s in services && s.id == serviceId && r.value.price == s.price && r.value.service == s.name) &&
         (exists b :: b in barbers && b.id == barberId && r.value.barber == b.name))
      ensures r.Err? ==> appointments == old(appointments)
      ensures barberId != "" && serviceId != "" && date != "" && time != "" ==>
        (r.Ok? <==> FindBarber(barbers, barberId).Some? && FindService(services, serviceId).Some?)
    {
      if barberId == "" || serviceId == "" || date == "" || time == "" {
        return Err(MissingFields);
      }
      var barber := FindBarber(barbers, barberId);
      var service := FindService(services, serviceId);
      if barber.None? || service.None? {
        return Err(NoSuchOption);
      }
      var a := Appointment(id, barber.value.name, service.value.name, date, time, "confirmado", service.value.price);
      appointments := appointments + [a];
      r := Ok(a);
    }
  }
}
