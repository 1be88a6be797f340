/** The Formik validators of the login and signup forms. A validator returns
    a map from field name to message; the form may be submitted when the map
    is empty. A form field that is absent is None; JavaScript truthiness makes
    the empty string count as absent too. */
module Validation {
  import opened Common

  const EmailRequired := "Email Required"
  const InvalidEmail := "Invalid email address"
  const PasswordRequired := "Password Required"
  const NameRequired := "Name Required"
  const RoleRequired := "Role Required"

  /** The text of the signup form's first role option, which has no value
      attribute and so submits its text. */
  const RolePlaceholder := "Select User Type"

  /** The values the signup form's role selector can submit. */
  const RoleOptions: seq<string> := [RolePlaceholder, "HOST", "RENTER"]

  type Errors = map<string, string>

  datatype LoginValues = LoginValues(email: Option<string>, password: Option<string>)

  datatype SignupValues = SignupValues(
    email: Option<string>, password: Option<string>, name: Option<string>, role: Option<string>)

  // The character classes of /^[A-Z0-9._%+-]+@[A-Z0-9.-]+\.[A-Z]{2,}$/i. The
  // pattern has no u flag, so case-insensitive matching folds ASCII letters only.

  predicate IsAsciiLetter(c: char) {
    'A' <= c <= 'Z' || 'a' <= c <= 'z'
  }

  predicate IsAsciiAlnum(c: char) {
    IsAsciiLetter(c) || '0' <= c <= '9'
  }

  predicate IsLocalChar(c: char) {
    IsAsciiAlnum(c) || c == '.' || c == '_' || c == '%' || c == '+' || c == '-'
  }

  predicate IsDomainChar(c: char) {
    IsAsciiAlnum(c) || c == '.' || c == '-'
  }

  predicate AllLocal(s: string) {
    forall i :: 0 <= i < |s| ==> IsLocalChar(s[i])
  }

  predicate AllDomain(s: string) {
    forall i :: 0 <= i < |s| ==> IsDomainChar(s[i])
  }

  predicate AllLetters(s: string) {
    forall i :: 0 <= i < |s| ==> IsAsciiLetter(s[i])
  }

  /** `s` splits as a local part, '@' at `at`, a domain, '.' at `dot` and a
      top-level domain of at least two letters. */
  predicate EmailSplit(s: string, at: int, dot: int) {
    0 < at && at + 1 < dot && dot + 3 <= |s| && s[at] == '@' && s[dot] == '.'
    && AllLocal(s[..at]) && AllDomain(s[at + 1..dot]) && AllLetters(s[dot + 1..])
  }

  /** The language of the email pattern: the strings that split as it describes. */
  ghost predicate MatchesEmailPattern(s: string) {
    exists at: int, dot: int :: EmailSplit(s, at, dot)
  }

  /** The first position of `c` in `s`, or -1: the pattern's split is at the first '@'. */
  function IndexOf(s: string, c: char): (i: int)
    ensures i == -1 <==> c !in s
    ensures i != -1 ==> 0 <= i < |s| && s[i] == c && c !in s[..i]
  {
    if s == [] then -1
    else if s[0] == c then 0
    else
      var j := IndexOf(s[1..], c);
      assert s[1..][..if j < 0 then 0 else j] == s[1..1 + if j < 0 then 0 else j];
      if j == -1 then -1 else j + 1
  }

  /** The last position of `c` in `s`, or -1: the pattern's split is at the last '.'. */
  function LastIndexOf(s: string, c: char): (i: int)
    ensures i == -1 <==> c !in s
    ensures i != -1 ==> 0 <= i < |s| && s[i] == c && c !in s[i + 1..]
  {
    if s == [] then -1
    else if s[|s| - 1] == c then |s| - 1
    else
      var j := LastIndexOf(s[..|s| - 1], c);
      assert j != -1 ==> s[j + 1..] == s[..|s| - 1][j + 1..] + [s[|s| - 1]];
      assert s == s[..|s| - 1] + [s[|s| - 1]];
      j
  }

  /** The email test without backtracking: no character class but the one
      after '@' contains '@', and none after the final dot contains '.', so the
      only split worth trying is at the first '@' and the last '.'. */
  function EmailFormatOk(s: string): bool {
    EmailSplit(s, IndexOf(s, '@'), LastIndexOf(s, '.'))
  }

  /** The direct test accepts exactly the strings of the pattern's language. */
  lemma EmailFormatOkIffPattern(s: string)
    ensures EmailFormatOk(s) <==> MatchesEmailPattern(s)
  {
    if MatchesEmailPattern(s) {
      var at, dot :| EmailSplit(s, at, dot);
      var i := IndexOf(s, '@');
      var j := LastIndexOf(s, '.');
      assert s[at] in s && s[dot] in s;
      assert forall k :: 0 <= k < i ==> s[k] != '@' by {
        forall k | 0 <= k < i ensures s[k] != '@' { assert s[..i][k] == s[k]; }
      }
      assert forall k :: 0 <= k < at ==> s[k] != '@' by {
        forall k | 0 <= k < at ensures s[k] != '@' { assert s[..at][k] == s[k]; }
      }
      assert forall k :: j < k < |s| ==> s[k] != '.' by {
        forall k | j < k < |s| ensures s[k] != '.' { assert s[j + 1..][k - j - 1] == s[k]; }
      }
      assert forall k :: dot < k < |s| ==> s[k] != '.' by {
        forall k | dot < k < |s| ensures s[k] != '.' { assert s[dot + 1..][k - dot - 1] == s[k]; }
      }
      assert i == at && j == dot;
    }
  }

  /** The validator's email entry: required, then the pattern. */
  function EmailErrors(email: Option<string>): (errors: Errors)
    ensures errors.Keys <= {"email"}
    ensures "email" in errors <==> !(Truthy(email) && MatchesEmailPattern(email.value))
    ensures !Truthy(email) ==> errors == map["email" := EmailRequired]
    ensures Truthy(email) && !MatchesEmailPattern(email.value) ==> errors == map["email" := InvalidEmail]
  {
    if !Truthy(email) then map["email" := EmailRequired]
    else
      EmailFormatOkIffPattern(email.value);
      if !EmailFormatOk(email.value) then map["email" := InvalidEmail] else map[]
  }

  /** One "Required" entry for a field that is missing or empty. */
  function RequiredError(field: string, value: Option<string>, message: string): (errors: Errors)
    ensures field in errors <==> !Truthy(value)
    ensures errors.Keys <= {field}
    ensures field in errors ==> errors[field] == message
  {
    if !Truthy(value) then map[field := message] else map[]
  }

  /** `validateLogin`. */
  function ValidateLogin(v: LoginValues): (errors: Errors)
    ensures errors.Keys <= {"email", "password"}
    ensures "email" in errors <==> !(Truthy(v.email) && MatchesEmailPattern(v.email.value))
    ensures "email" in errors ==> errors["email"] == (if Truthy(v.email) then InvalidEmail else EmailRequired)
    ensures "password" in errors <==> !Truthy(v.password)
    ensures "password" in errors ==> errors["password"] == PasswordRequired
    ensures errors == map[] <==> Truthy(v.email) && MatchesEmailPattern(v.email.value) && Truthy(v.password)
  {
    var errors := EmailErrors(v.email) + RequiredError("password", v.password, PasswordRequired);
    assert errors == map[] <==> "email" !in errors && "password" !in errors;
    errors
  }

  // --- The role check, as written and as intended ---

  /** The JavaScript values the role check touches. */
  datatype JsValue = JsUndefined | JsBool(b: bool) | JsString(s: string)

  predicate JsTruthy(v: JsValue) {
    match v
    case JsUndefined => false
    case JsBool(b) => b
    case JsString(s) => s != ""
  }

  /** `!v`: always a boolean. */
  function LogicalNot(v: JsValue): (r: JsValue)
    ensures r.JsBool? && (r.b <==> !JsTruthy(v))
  {
    JsBool(!JsTruthy(v))
  }

  /** `a === b`: same type and same value (no number is involved here). */
  function StrictEquals(a: JsValue, b: JsValue): (r: bool)
    ensures a.JsBool? && b.JsString? ==> !r
    ensures r <==> a == b
  {
    match (a, b)
    case (JsUndefined, JsUndefined) => true
    case (JsBool(x), JsBool(y)) => x == y
    case (JsString(x), JsString(y)) => x == y
    case _ => false
  }

  function RoleValue(role: Option<string>): JsValue {
    if role.None? then JsUndefined else JsString(role.value)
  }

  /** `!values.role || !values.role === "Select User Type"`, as written: the
      right operand compares a boolean with a string, so only the left one
      ever decides. */
  function RoleMissingAsWritten(role: Option<string>): (missing: bool)
    ensures missing <==> !Truthy(role)
  {
    var value := RoleValue(role);
    !JsTruthy(value) || StrictEquals(LogicalNot(value), JsString(RolePlaceholder))
  }

  /** `!values.role || values.role === "Select User Type"`: what the check is for. */
  function RoleMissing(role: Option<string>): (missing: bool)
    ensures !missing <==> role.Some? && role.value != "" && role.value != RolePlaceholder
  {
    !Truthy(role) || role.value == RolePlaceholder
  }

  /** The placeholder option gets through the check as written, and not
      through the intended one. */
  lemma PlaceholderRolePasses()
    ensures !RoleMissingAsWritten(Some(RolePlaceholder))
    ensures RoleMissing(Some(RolePlaceholder))
  {
  }

  /** Of the values the role selector can submit, the intended check accepts
      exactly the two real roles. */
  lemma RoleMissingAcceptsRealRoles(i: int)
    requires 0 <= i < |RoleOptions|
    ensures !RoleMissing(Some(RoleOptions[i])) <==> RoleOptions[i] == "HOST" || RoleOptions[i] == "RENTER"
  {
  }

  /** The signup validator with a given role test. */
  function SignupErrors(v: SignupValues, roleMissing: bool): (errors: Errors)
    ensures errors.Keys <= {"email", "password", "name", "role"}
    ensures "role" in errors <==> roleMissing
  {
    EmailErrors(v.email)
      + RequiredError("password", v.password, PasswordRequired)
      + RequiredError("name", v.name, NameRequired)
      + (if roleMissing then map["role" := RoleRequired] else map[])
  }

  /** `validateAuth`, as written. */
  function ValidateAuthAsWritten(v: SignupValues): (errors: Errors)
    ensures errors.Keys <= {"email", "password", "name", "role"}
    ensures "role" in errors <==> !Truthy(v.role)
    ensures errors == map[] <==>
      Truthy(v.email) && MatchesEmailPattern(v.email.value) && Truthy(v.password) && Truthy(v.name) && Truthy(v.role)
  {
    SignupErrors(v, RoleMissingAsWritten(v.role))
  }

  /** `validateAuth` with the role check it was meant to have. */
  function ValidateAuth(v: SignupValues): (errors: Errors)
    ensures errors.Keys <= {"email", "password", "name", "role"}
    ensures "email" in errors <==> !(Truthy(v.email) && MatchesEmailPattern(v.email.value))
    ensures "email" in errors ==> errors["email"] == (if Truthy(v.email) then InvalidEmail else EmailRequired)
    ensures "password" in errors <==> !Truthy(v.password)
    ensures "password" in errors ==> errors["password"] == PasswordRequired
    ensures "name" in errors <==> !Truthy(v.name)
    ensures "name" in errors ==> errors["name"] == NameRequired
    ensures "role" in errors <==> !Truthy(v.role) || v.role.value == RolePlaceholder
    ensures "role" in errors ==> errors["role"] == RoleRequired
    ensures errors == map[] <==>
      Truthy(v.email) && MatchesEmailPattern(v.email.value) && Truthy(v.password) && Truthy(v.name)
      && Truthy(v.role) && v.role.value != RolePlaceholder
  {
    SignupErrors(v, RoleMissing(v.role))
  }

  /** The check as written and the intended one disagree on the placeholder
      role and nowhere else: there the written one reports no role error. */
  lemma AsWrittenDiffersOnlyOnPlaceholder(v: SignupValues)
    ensures v.role != Some(RolePlaceholder) ==> ValidateAuthAsWritten(v) == ValidateAuth(v)
    ensures v.role == Some(RolePlaceholder)
            ==> "role" !in ValidateAuthAsWritten(v) && "role" in ValidateAuth(v)
  {
  }

  /** The signup form checks its email and password exactly as the login form does. */
  lemma SignupChecksLikeLogin(v: SignupValues)
    ensures var login := ValidateLogin(LoginValues(v.email, v.password));
            var signup := ValidateAuth(v);
            forall k :: k in login <==> k in signup && (k == "email" || k == "password")
  {
  }
}
