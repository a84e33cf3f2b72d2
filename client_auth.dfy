/**
 * The client authentication service as it runs in a static deployment: offline registration and
 * login against the stored list of users, the 24-hour session kept in `localStorage`, roles, and
 * the profile update that merges fields into the signed-in user and the stored one.
 *
 * A user is a JSON object; it is modelled as a map from field names to their values written as
 * text, so that `{ ...a, ...b }` is the right-biased union `a + b`. Ids, clocks and the mock tokens
 * are parameters.
 */
module ClientAuth {
  import opened Wrappers
  import opened Strings
  import opened Sequences
  import AccessControl

  /** A JSON object with its fields written as text; a missing key is `undefined` or `null`. */
  type Record = map<string, string>

  function Get(r: Record, field: string): Option<string>
  {
    if field in r then Some(r[field]) else None
  }

  // ---------------------------------------------------------------- names from emails

  /** `extractNameFromEmail`: the part before the first '@', with its first character upper-cased. */
  function ExtractNameFromEmail(email: string): (r: string)
    ensures |r| == |FirstField(email, '@')|
    ensures r != [] ==> r[0] == ToUpperChar(email[0]) && r[1..] == FirstField(email, '@')[1..]
    ensures '@' !in email ==> |r| == |email|
  {
    var name := FirstField(email, '@');
    if name == [] then [] else [ToUpperChar(name[0])] + name[1..]
  }

  /** The name of `local@domain` is `local` capitalised, whatever the domain. */
  lemma NameOfAddress(local: string, domain: string)
    requires '@' !in local && local != []
    ensures ExtractNameFromEmail(local + "@" + domain) == [ToUpperChar(local[0])] + local[1..]
  {
    FieldsOfJoined(local, '@', domain);
  }

  /** An address that starts with '@' gives an empty name. */
  lemma EmptyLocalPart(domain: string)
    ensures ExtractNameFromEmail("@" + domain) == ""
  {
    FieldsOfJoined("", '@', domain);
    assert "" + "@" + domain == "@" + domain;
  }

  // ---------------------------------------------------------------- the session store

  const SessionDuration: int := 24 * 60 * 60 * 1000

  /** The `localStorage` entries of a session; `None` is a missing entry. */
  datatype SessionStore = SessionStore(authToken: Option<string>, refreshToken: Option<string>,
                                       savedUser: Option<Record>, loginTime: Option<string>,
                                       isLoggedIn: Option<string>)

  const NoSession := SessionStore(None, None, None, None, None)

  predicate Truthy(v: Option<string>) { v.Some? && v.value != "" }

  /** `now - parseInt(loginTime)` is under the session duration; a `NaN` difference is not. */
  predicate Fresh(loginTime: Option<string>, now: int)
  {
    Truthy(loginTime) &&
    match AccessControl.ParseInt(loginTime.value)
    case None => false
    case Some(t) => now - t < SessionDuration
  }

  /** A session `restoreSession` keeps: a token, a saved user and a login time under 24 hours old. */
  predicate Restorable(s: SessionStore, now: int)
  {
    Truthy(s.authToken) && s.savedUser.Some? && Fresh(s.loginTime, now)
  }

  /** A session stored at `t` is still restorable one millisecond before 24 hours and not at 24 hours. */
  lemma DayBoundary(user: Record, token: string, t: nat)
    requires token != ""
    ensures Restorable(SessionStore(Some(token), None, Some(user), Some(NatToString(t)), Some("true")), t + SessionDuration - 1)
    ensures !Restorable(SessionStore(Some(token), None, Some(user), Some(NatToString(t)), Some("true")), t + SessionDuration)
  {
    AccessControl.ParseIntOfSpelling(t, "");
    assert NatToString(t) + "" == NatToString(t);
  }

  /**
   * The user `loginOffline` keeps in the session: the listed fields of the stored user and no
   * other (a stored password stays out); `avatar || null` drops an empty avatar.
   */
  function SessionFields(u: Record): (r: Record)
    ensures forall k :: k in r ==> k in u && r[k] == u[k]
    ensures forall k :: k in r ==> k in {"id", "name", "email", "userType", "phone", "avatar"}
    ensures forall k :: k in u && k in {"id", "name", "email", "userType", "phone"} ==> k in r
    ensures "avatar" in r <==> "avatar" in u && u["avatar"] != ""
  {
    map k | k in u && k in {"id", "name", "email", "userType", "phone", "avatar"} && !(k == "avatar" && u[k] == "") :: u[k]
  }

  /** Index of the first stored user with the email and the type. */
  function FindLogin(users: seq<Record>, email: string, userType: string): (r: Option<nat>)
    ensures r.Some? ==> r.value < |users| && Get(users[r.value], "email") == Some(email) &&
                        Get(users[r.value], "userType") == Some(userType)
    ensures r.Some? ==> forall j :: 0 <= j < r.value ==>
                          !(Get(users[j], "email") == Some(email) && Get(users[j], "userType") == Some(userType))
    ensures r.None? <==> forall j :: 0 <= j < |users| ==>
                          !(Get(users[j], "email") == Some(email) && Get(users[j], "userType") == Some(userType))
  {
    FirstIndex(users, (u: Record) => Get(u, "email") == Some(email) && Get(u, "userType") == Some(userType))
  }

  /** Index of the first stored user whose field has the same value as `v` (both missing counts as the same). */
  function FindSame(users: seq<Record>, field: string, v: Option<string>): (r: Option<nat>)
    ensures r.Some? ==> r.value < |users| && Get(users[r.value], field) == v &&
                        forall j :: 0 <= j < r.value ==> Get(users[j], field) != v
    ensures r.None? <==> forall j :: 0 <= j < |users| ==> Get(users[j], field) != v
  {
    FirstIndex(users, (u: Record) => Get(u, field) == v)
  }

  const EmailRequired := "Email é obrigatório"
  const EmailTaken := "Email já cadastrado"

  /** The record `registerOffline` stores: `{ id, ...userData, createdAt, isActive: true, emailVerified: false }`. */
  function NewRegisteredUser(userData: Record, id: string, now: string): (r: Record)
    ensures Get(r, "isActive") == Some("true") && Get(r, "emailVerified") == Some("false") && Get(r, "createdAt") == Some(now)
    ensures "id" in r && (r["id"] == if "id" in userData then userData["id"] else id)
    ensures forall k :: k in userData && k !in {"createdAt", "isActive", "emailVerified"} ==> k in r && r[k] == userData[k]
    ensures forall k :: k in r ==> k in userData || k in {"id", "createdAt", "isActive", "emailVerified"}
  {
    map["id" := id] + userData + map["createdAt" := now, "isActive" := "true", "emailVerified" := "false"]
  }

  /** The object `updateProfile` builds: `{ ...user, ...profileData }`. */
  function Merge(user: Record, profile: Record): (r: Record)
    ensures forall k :: k in profile ==> k in r && r[k] == profile[k]
    ensures forall k :: k in user && k !in profile ==> k in r && r[k] == user[k]
    ensures forall k :: k in r ==> k in user || k in profile
  {
    user + profile
  }

  /** Merging the same profile twice changes nothing more. */
  lemma MergeIdempotent(user: Record, profile: Record)
    ensures Merge(Merge(user, profile), profile) == Merge(user, profile)
  {
  }

  class AuthService {
    var currentUser: Option<Record>
    var registeredUsers: seq<Record>
    var session: SessionStore

    /**
     * The constructor runs `init`, whose `restoreSession` signs in the user of a restorable
     * session and clears any other; `now` is the clock reading it uses.
     */
    constructor (registeredUsers: seq<Record>, session: SessionStore, now: int)
      ensures this.registeredUsers == registeredUsers
      ensures Restorable(session, now) ==> currentUser == session.savedUser && this.session == session
      ensures !Restorable(session, now) ==> currentUser.None? && this.session == NoSession
    {
      currentUser := None;
      this.registeredUsers := registeredUsers;
      this.session := session;
      new;
      var _ := RestoreSession(now);
    }

    /** `hasRole`: a current user whose `userType` is the role. */
    predicate HasRole(role: string)
      reads this
    {
      currentUser.Some? && Get(currentUser.value, "userType") == Some(role)
    }

    /** `handleLoginSuccess`: the user becomes current and the whole session is stored. */
    method HandleLoginSuccess(user: Record, token: string, refreshToken: string, now: nat)
      modifies this`currentUser, this`session
      ensures currentUser == Some(user)
      ensures session == SessionStore(Some(token), Some(refreshToken), Some(user), Some(NatToString(now)), Some("true"))
    {
      currentUser := Some(user);
      session := SessionStore(Some(token), Some(refreshToken), Some(user), Some(NatToString(now)), Some("true"));
    }

    /**
     * `loginOffline`: the first stored user with the lower-cased, trimmed email and the type signs
     * in, whatever the password; failing that, any non-empty email signs in a demo user; an empty
     * one is refused.
     */
    method LoginOffline(email: string, password: string, userType: string, demoId: string, token: string, refreshToken: string, now: nat)
      returns (r: Result<Record>)
      modifies this`currentUser, this`session
      ensures var key := Trim(ToLower(email));
        match FindLogin(old(registeredUsers), key, userType)
        case Some(k) => r == Ok(SessionFields(old(registeredUsers)[k]))
        case None =>
          if email == "" then r == Err(EmailRequired)
          else r == Ok(map["id" := demoId, "name" := ExtractNameFromEmail(email), "email" := key, "userType" := userType])
      ensures r.Ok? ==> currentUser == Some(r.value)
      ensures r.Ok? ==> session == SessionStore(Some(token), Some(refreshToken), Some(r.value), Some(NatToString(now)), Some("true"))
      ensures r.Ok? ==> HasRole(userType) && forall role :: HasRole(role) ==> role == userType
      ensures r.Err? ==> currentUser == old(currentUser) && session == old(session)
    {
      var key := Trim(ToLower(email));
      var k := FindLogin(registeredUsers, key, userType);
      if k.Some? {
        var user := SessionFields(registeredUsers[k.value]);
        assert Get(user, "userType") == Some(userType) by {
          assert "userType" in registeredUsers[k.value];
        }
        HandleLoginSuccess(user, token, refreshToken, now);
        return Ok(user);
      }
      if email != "" {
        var demo := map["id" := demoId, "name" := ExtractNameFromEmail(email), "email" := key, "userType" := userType];
        HandleLoginSuccess(demo, token, refreshToken, now);
        return Ok(demo);
      }
      r := Err(EmailRequired);
    }

    /** `registerOffline`: an email already stored (or missing on both sides) is refused; otherwise one user is appended. */
    method RegisterOffline(userData: Record, id: string, now: string) returns (r: Result<Record>)
      modifies this`registeredUsers
      ensures FindSame(old(registeredUsers), "email", Get(userData, "email")).Some? ==>
        r == Err(EmailTaken) && registeredUsers == old(registeredUsers)
      ensures FindSame(old(registeredUsers), "email", Get(userData, "email")).None? ==>
        r == Ok(NewRegisteredUser(userData, id, now)) && registeredUsers == old(registeredUsers) + [r.value]
    {
      if FindSame(registeredUsers, "email", Get(userData, "email")).Some? {
        return Err(EmailTaken);
      }
      var u := NewRegisteredUser(userData, id, now);
      registeredUsers := registeredUsers + [u];
      r := Ok(u);
    }

    /** `clearSession`: no current user and no session entries. */
    method ClearSession()
      modifies this`currentUser, this`session
      ensures currentUser.None? && session == NoSession
    {
      currentUser := None;
      session := NoSession;
    }

    /** `validateToken` in a static deployment: the saved user while the login is under 24 hours old. */
    method ValidateToken(now: int) returns (user: Option<Record>)
      modifies this`currentUser
      ensures user.Some? <==> session.savedUser.Some? && Fresh(session.loginTime, now)
      ensures user.Some? ==> user == session.savedUser && currentUser == user
      ensures user.None? ==> currentUser == old(currentUser)
    {
      if session.savedUser.Some? && Fresh(session.loginTime, now) {
        currentUser := session.savedUser;
        return session.savedUser;
      }
      user := None;
    }

    /** `restoreSession` in a static deployment: a restorable session signs its user in; any other is cleared. */
    method RestoreSession(now: int) returns (restored: bool)
      modifies this`currentUser, this`session
      ensures restored <==> Restorable(old(session), now)
      ensures restored ==> currentUser == old(session).savedUser && session == old(session)
      ensures !restored ==> currentUser.None? && session == NoSession
    {
      if Truthy(session.authToken) && Fresh(session.loginTime, now) {
        var user := ValidateToken(now);
        if user.Some? {
          currentUser := user;
          return true;
        }
      }
      ClearSession();
      restored := false;
    }

    /** After `clearSession` (a logout), `restoreSession` at any time restores nobody and leaves the session empty. */
    method ClearThenRestore(now: int) returns (restored: bool)
      modifies this`currentUser, this`session
      ensures !restored && currentUser.None? && session == NoSession
    {
      ClearSession();
      restored := RestoreSession(now);
    }

    /**
     * `updateProfile` in a static deployment: the profile is merged into the current user, which
     * is also saved as the session's user, and into the first stored user with the same id, and
     * into no other.
     */
    method UpdateProfile(profile: Record) returns (updated: Record)
      modifies this`currentUser, this`registeredUsers, this`session
      ensures updated == Merge(old(currentUser).GetOr(map[]), profile) && currentUser == Some(updated)
      ensures session == old(session).(savedUser := Some(updated))
      ensures |registeredUsers| == |old(registeredUsers)|
      ensures match FindSame(old(registeredUsers), "id", Get(updated, "id"))
        case None => registeredUsers == old(registeredUsers)
        case Some(k) => registeredUsers == old(registeredUsers)[k := Merge(old(registeredUsers)[k], profile)]
    {
      updated := Merge(currentUser.GetOr(map[]), profile);
      currentUser := Some(updated);
      session := session.(savedUser := Some(updated));
      var k := FindSame(registeredUsers, "id", Get(updated, "id"));
      if k.Some? {
        registeredUsers := registeredUsers[k.value := Merge(registeredUsers[k.value], profile)];
      }
    }
  }

}
