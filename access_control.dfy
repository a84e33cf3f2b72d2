/**
 * The API's access middleware: the bearer token of the `Authorization` header, authentication
 * against the user table, the role check `authorize(...roles)` and the owner-or-admin check.
 *
 * Token verification (`jsonwebtoken` with the server's secret) is a parameter: a function from the
 * token to the user id it carries, or `None` when the token is invalid or expired.
 */
module AccessControl {
  import opened Wrappers
  import opened Sequences
  import opened Strings

  const TokenRequiredMessage := "Token de acesso requerido"
  const TokenInvalidMessage := "Token inválido ou expirado"
  const UserMissingMessage := "Usuário não encontrado"
  const NotAuthenticatedMessage := "Usuário não autenticado"
  const ForbiddenRoleMessage := "Acesso negado. Permissões insuficientes."
  const ForbiddenOwnerMessage := "Acesso negado. Você só pode acessar seus próprios dados."

  /** A row of the `users` table as `req.user` holds it. */
  datatype User = User(id: int, name: string, email: string, userType: string)

  /** What a middleware does with a request: call `next()` with the request's user, or answer with an error. */
  datatype Outcome = Next(user: User) | Deny(status: nat, message: string)

  // ---------------------------------------------------------------- authenticateToken

  /** `authHeader && authHeader.split(' ')[1]`, with `None` for a missing or empty word. */
  function BearerToken(header: Option<string>): (r: Option<string>)
    ensures r.Some? ==> r.value != [] && ' ' !in r.value
    ensures header.None? ==> r.None?
  {
    match header
    case None => None
    case Some(h) =>
      match RestAfter(h, ' ')
      case None => None
      case Some(rest) => var t := FirstField(rest, ' '); if t == [] then None else Some(t)
  }

  /** `"Bearer <token>"`, with or without further words, yields the token. */
  lemma BearerRoundTrip(scheme: string, token: string, more: string)
    requires ' ' !in scheme && ' ' !in token && token != []
    ensures BearerToken(Some(scheme + " " + token)) == Some(token)
    ensures BearerToken(Some(scheme + " " + token + " " + more)) == Some(token)
  {
    FieldsOfJoined(scheme, ' ', token);
    FieldsOfJoined(scheme, ' ', token + " " + more);
    FieldsOfJoined(token, ' ', more);
    assert scheme + " " + token == scheme + [' '] + token;
    assert scheme + " " + token + " " + more == scheme + [' '] + (token + " " + more);
    assert token + " " + more == token + [' '] + more;
    assert IndexOf(token, ' ').None?;
  }

  /** A header with a single word, such as the bare token, carries no token. */
  lemma SingleWordHasNoToken(h: string)
    requires ' ' !in h
    ensures BearerToken(Some(h)) == None
  {
  }

  /** The first user of the table with that id (the query selects by primary key). */
  function FindUser(users: seq<User>, id: int): (r: Option<User>)
    ensures r.Some? ==> r.value in users && r.value.id == id
    ensures r.None? <==> forall u :: u in users ==> u.id != id
  {
    Find(users, (u: User) => u.id == id)
  }

  /** `authenticateToken`: no token is 401; a token that does not verify, or whose user is gone, is 403. */
  function Authenticate(header: Option<string>, verify: string -> Option<int>, users: seq<User>): (r: Outcome)
    ensures BearerToken(header).None? <==> r == Deny(401, TokenRequiredMessage)
    ensures r.Next? <==>
      BearerToken(header).Some? && verify(BearerToken(header).value).Some? &&
      exists u :: u in users && u.id == verify(BearerToken(header).value).value
    ensures r.Next? ==> r.user in users && Some(r.user.id) == verify(BearerToken(header).value)
    ensures r.Deny? ==> r.status in {401, 403}
  {
    match BearerToken(header)
    case None => Deny(401, TokenRequiredMessage)
    case Some(token) =>
      match verify(token)
      case None => Deny(403, TokenInvalidMessage)
      case Some(userId) =>
        match FindUser(users, userId)
        case None => Deny(403, UserMissingMessage)
        case Some(user) => Next(user)
  }

  // ---------------------------------------------------------------- authorize

  /** `authorize(...allowedRoles)`: 401 without a user, 403 for a type outside the list, else `next()`. */
  function Authorize(user: Option<User>, allowedRoles: seq<string>): (r: Outcome)
    ensures r.Next? <==> user.Some? && user.value.userType in allowedRoles
    ensures r.Next? ==> r.user == user.value
    ensures user.None? ==> r == Deny(401, NotAuthenticatedMessage)
    ensures user.Some? && user.value.userType !in allowedRoles ==> r == Deny(403, ForbiddenRoleMessage)
  {
    if user.None? then Deny(401, NotAuthenticatedMessage)
    else if user.value.userType !in allowedRoles then Deny(403, ForbiddenRoleMessage)
    else Next(user.value)
  }

  /** Allowing more roles never takes access away. */
  lemma AuthorizeMonotone(user: Option<User>, fewer: seq<string>, more: seq<string>)
    requires forall role :: role in fewer ==> role in more
    ensures Authorize(user, fewer).Next? ==> Authorize(user, more).Next?
  {
  }

  // ---------------------------------------------------------------- authorizeOwnerOrAdmin

  /** The longest prefix of decimal digits. */
  function LeadingDigits(s: string): (r: string)
    ensures r <= s && AllDigits(r)
    ensures |r| < |s| ==> !IsDigit(s[|r|])
  {
    if s == [] || !IsDigit(s[0]) then []
    else [s[0]] + LeadingDigits(s[1..])
  }

  predicate IsHexDigit(c: char)
  {
    IsDigit(c) || 'a' <= c <= 'f' || 'A' <= c <= 'F'
  }

  function HexDigitValue(c: char): (v: nat)
    requires IsHexDigit(c)
    ensures v < 16
  {
    if IsDigit(c) then DigitValue(c)
    else if 'a' <= c <= 'f' then c as int - 'a' as int + 10
    else c as int - 'A' as int + 10
  }

  /** The longest prefix of hexadecimal digits. */
  function LeadingHexDigits(s: string): (r: string)
    ensures r <= s && forall i :: 0 <= i < |r| ==> IsHexDigit(r[i])
    ensures |r| < |s| ==> !IsHexDigit(s[|r|])
  {
    if s == [] || !IsHexDigit(s[0]) then []
    else [s[0]] + LeadingHexDigits(s[1..])
  }

  function HexValue(s: string): nat
    requires forall i :: 0 <= i < |s| ==> IsHexDigit(s[i])
  {
    if s == [] then 0 else HexValue(s[..|s| - 1]) * 16 + HexDigitValue(s[|s| - 1])
  }

  /** After the sign, `0x` or `0X` switches `parseInt` without a radix to base 16. */
  predicate HexPrefixed(u: string)
  {
    |u| >= 2 && u[0] == '0' && (u[1] == 'x' || u[1] == 'X')
  }

  /**
   * `parseInt(s)` without a radix: leading white space, an optional sign, then either `0x`/`0X`
   * and the longest run of hexadecimal digits, or the longest run of decimal digits; `None` is
   * `NaN` (no digit at all).
   */
  function ParseInt(s: string): (r: Option<int>)
    ensures var t := TrimStart(s);
      var u := if t != [] && (t[0] == '-' || t[0] == '+') then t[1..] else t;
      r.Some? <==> (if HexPrefixed(u) then LeadingHexDigits(u[2..]) != [] else LeadingDigits(u) != [])
    ensures r.Some? && r.value < 0 ==> TrimStart(s)[0] == '-'
  {
    var t := TrimStart(s);
    var signed := t != [] && (t[0] == '-' || t[0] == '+');
    var u := if signed then t[1..] else t;
    var magnitude :=
      if HexPrefixed(u) then
        var x := LeadingHexDigits(u[2..]);
        if x == [] then None else Some(HexValue(x))
      else
        var d := LeadingDigits(u);
        if d == [] then None else Some(DigitsValue(d));
    match magnitude
    case None => None
    case Some(m) => Some(if signed && t[0] == '-' then -(m as int) else m)
  }

  lemma LeadingDigitsOfJoined(d: string, suffix: string)
    requires AllDigits(d)
    requires suffix == [] || !IsDigit(suffix[0])
    ensures LeadingDigits(d + suffix) == d
  {
    if d != [] {
      assert (d + suffix)[1..] == d[1..] + suffix;
      LeadingDigitsOfJoined(d[1..], suffix);
    }
  }

  /** Text that starts with a digit and not with `0x` is read in base 10. */
  lemma DecimalParse(s: string)
    requires s != [] && IsDigit(s[0]) && !HexPrefixed(s)
    ensures ParseInt(s) == if LeadingDigits(s) == [] then None else Some(DigitsValue(LeadingDigits(s)))
  {
    assert TrimStart(s) == s;
  }

  /** `parseInt` reads a decimal number back, whatever non-digit text follows it (`"12abc"` is 12). */
  lemma ParseIntOfSpelling(n: nat, suffix: string)
    requires suffix == [] || !IsDigit(suffix[0])
    requires n != 0 || suffix == [] || (suffix[0] != 'x' && suffix[0] != 'X')
    ensures ParseInt(NatToString(n) + suffix) == Some(n)
  {
    NatToStringValue(n);
    var d := NatToString(n);
    var s := d + suffix;
    assert s[0] == d[0] && IsDigit(s[0]);
    assert !HexPrefixed(s) by {
      if |s| >= 2 && s[0] == '0' {
        assert n == 0 || |d| >= 2 by {
          if n != 0 && |d| == 1 {
            OneDigit(d);
          }
        }
        assert s[1] == (if |d| >= 2 then d[1] else suffix[0]);
      }
    }
    LeadingDigitsOfJoined(d, suffix);
    DecimalParse(s);
  }

  /** `authorizeOwnerOrAdmin`: an admin, or a user whose id is the number `parseInt` reads from the path. */
  function AuthorizeOwnerOrAdmin(requestedId: string, user: User): (r: Outcome)
    ensures r.Next? <==> user.userType == "admin" || ParseInt(requestedId) == Some(user.id)
    ensures r.Next? ==> r.user == user
    ensures r.Deny? ==> r == Deny(403, ForbiddenOwnerMessage)
  {
    if user.userType == "admin" || ParseInt(requestedId) == Some(user.id) then Next(user)
    else Deny(403, ForbiddenOwnerMessage)
  }

  /** A user reaches their own record, also through a path with trailing text after the id. */
  lemma OwnerReachesOwnRecord(user: User, suffix: string)
    requires user.id >= 0
    requires suffix == [] || !IsDigit(suffix[0])
    requires user.id != 0 || suffix == [] || (suffix[0] != 'x' && suffix[0] != 'X')
    ensures AuthorizeOwnerOrAdmin(NatToString(user.id) + suffix, user).Next?
  {
    ParseIntOfSpelling(user.id, suffix);
  }

  /** A user who is not an admin cannot reach another user's record. */
  lemma OthersRecordDenied(user: User, other: nat)
    requires user.userType != "admin" && other != user.id
    ensures AuthorizeOwnerOrAdmin(NatToString(other), user) == Deny(403, ForbiddenOwnerMessage)
  {
    ParseIntOfSpelling(other, "");
    assert NatToString(other) + "" == NatToString(other);
  }

  /** A path id in hexadecimal reaches the user with that number: `"0x10"` is user 16. */
  lemma HexPathReachesUser(user: User)
    requires user.id == 16
    ensures ParseInt("0x10") == Some(16)
    ensures AuthorizeOwnerOrAdmin("0x10", user).Next?
  {
    var s := "0x10";
    assert TrimStart(s) == s;
    assert HexPrefixed(s);
    assert s[2..] == "10";
    assert LeadingHexDigits("10") == "10";
    assert "10"[..1] == "1" && "1"[..0] == [];
  }

  /** A path id with no digits reads as `NaN`, which equals no id: only an admin passes. */
  lemma NonNumericIdOnlyAdmin(requestedId: string, user: User)
    requires requestedId == [] || (!IsDigit(requestedId[0]) && !IsSpace(requestedId[0]) && requestedId[0] != '-' && requestedId[0] != '+')
    ensures AuthorizeOwnerOrAdmin(requestedId, user).Next? <==> user.userType == "admin"
  {
  }
}
