/**
 * The login / sign-up form: the client-side validator, the error map it shows,
 * and how editing, submitting and switching mode change that map.
 */
module Login {
  import opened Wrappers
  import opened Text
  import opened Models

  datatype Field = EmailField | PasswordField

  const EmailRequired := "Email is required"
  const EmailInvalid := "Email address is invalid"
  const PasswordRequired := "Password is required"
  const PasswordShort := "Password must be at least 6 characters"
  const MinPasswordLength := 6

  /** `/\S+@\S+\.\S+/.test(s)`: somewhere in `s` a non-space character, `@`, one or
      more non-space characters, `.`, and a non-space character. The pattern is not
      anchored, so text around the match is allowed. */
  predicate EmailPattern(s: string) {
    exists p, q | 0 < p < q < |s| :: MatchAt(s, p, q)
  }

  /** A match with the `@` at `p` and the `.` at `q`. */
  predicate MatchAt(s: string, p: int, q: int) {
    && 0 < p && p + 2 <= q && q + 1 < |s|
    && !IsSpace(s[p - 1]) && s[p] == '@'
    && NoSpaceBetween(s, p, q)
    && s[q] == '.' && !IsSpace(s[q + 1])
  }

  /** No white space strictly between positions `p` and `q`. */
  predicate NoSpaceBetween(s: string, p: int, q: int)
    requires 0 <= p <= q <= |s|
  {
    forall i :: p < i < q ==> !IsSpace(s[i])
  }

  /** `validate`: the errors of the form, at most one per field. */
  function ValidationErrors(email: string, password: string): (r: map<Field, string>)
    ensures EmailField in r <==> email == "" || !EmailPattern(email)
    ensures EmailField in r ==> r[EmailField] == if email == "" then EmailRequired else EmailInvalid
    ensures PasswordField in r <==> |password| < MinPasswordLength
    ensures PasswordField in r ==>
              r[PasswordField] == if password == "" then PasswordRequired else PasswordShort
    ensures r == map[] <==> email != "" && EmailPattern(email) && |password| >= MinPasswordLength
  {
    var emailError: map<Field, string> :=
      if email == "" then map[EmailField := EmailRequired]
      else if !EmailPattern(email) then map[EmailField := EmailInvalid]
      else map[];
    var passwordError: map<Field, string> :=
      if password == "" then map[PasswordField := PasswordRequired]
      else if |password| < MinPasswordLength then map[PasswordField := PasswordShort]
      else map[];
    var r := emailError + passwordError;
    assert r == map[] <==> EmailField !in r && PasswordField !in r;
    r
  }

  /** The errors as the page state holds them: a cleared error is kept as null. */
  function Shown(errors: map<Field, string>): (r: map<Field, Option<string>>)
    ensures r.Keys == errors.Keys
    ensures forall f :: f in errors ==> r[f] == Some(errors[f])
  {
    map f | f in errors :: Some(errors[f])
  }

  /** The error clearing in `handleChange`: a truthy error of the edited field becomes
      null; every other entry is left as it was. */
  function ClearError(errors: map<Field, Option<string>>, field: Field): (r: map<Field, Option<string>>)
    ensures r.Keys == errors.Keys
    ensures field in r ==> !PresentText(r[field])
    ensures forall f :: f in errors && f != field ==> r[f] == errors[f]
    ensures field in errors && !PresentText(errors[field]) ==> r == errors
  {
    if field in errors && PresentText(errors[field]) then errors[field := None] else errors
  }

  /** The pattern is unanchored: any text may surround an address that matches. */
  lemma PatternUnanchored(s: string, before: string, after: string)
    requires EmailPattern(s)
    ensures EmailPattern(before + s + after)
  {
    var p: int, q: int :| 0 < p < q < |s| && MatchAt(s, p, q);
    assert 0 < p && p + 2 <= q && q + 1 < |s|;
    var t := before + s + after;
    var n := |before|;
    assert forall i :: 0 <= i < |s| ==> t[n + i] == s[i];
    assert NoSpaceBetween(t, n + p, n + q) by {
      forall i | n + p < i < n + q ensures !IsSpace(t[i]) {
        assert t[i] == s[i - n];
      }
    }
    assert MatchAt(t, n + p, n + q);
  }

  /** Each of the conditions is needed: no `@`, nothing before it, nothing between it
      and the dot, or nothing after the dot. */
  lemma PatternExamples()
    ensures EmailPattern("a@b.c")
    ensures !EmailPattern("ab.c") && !EmailPattern("@b.c") && !EmailPattern("a@.c")
    ensures !EmailPattern("a@b.")
  {
    assert !IsSpace('a') && !IsSpace('b') && !IsSpace('c');
    assert MatchAt("a@b.c", 1, 3);
  }

  /** The form's state. */
  class LoginForm {
    var isLogin: bool
    var email: string
    var password: string
    var errors: map<Field, Option<string>>

    /** A login form with empty fields and no errors. */
    constructor ()
      ensures isLogin && email == "" && password == "" && errors == map[]
    {
      isLogin := true;
      email := "";
      password := "";
      errors := map[];
    }

    /** `handleChange`: store the edited value and clear that field's error. */
    method HandleChange(field: Field, value: string)
      modifies this
      ensures isLogin == old(isLogin)
      ensures email == (if field == EmailField then value else old(email))
      ensures password == (if field == PasswordField then value else old(password))
      ensures errors == ClearError(old(errors), field)
    {
      if field == EmailField {
        email := value;
      } else {
        password := value;
      }
      if field in errors && PresentText(errors[field]) {
        errors := errors[field := None];
      }
    }

    /** `handleSubmit`: validate, show the errors, and send the credentials only when
        there are none. */
    method HandleSubmit() returns (sent: Option<(string, string)>)
      modifies this
      ensures isLogin == old(isLogin) && email == old(email) && password == old(password)
      ensures errors == Shown(ValidationErrors(email, password))
      ensures sent.Some? <==> ValidationErrors(email, password) == map[]
      ensures sent.Some? ==> sent.value == (email, password)
    {
      var found := ValidationErrors(email, password);
      errors := Shown(found);
      if found != map[] {
        return None;
      }
      sent := Some((email, password));
    }

    /** The link under the form: switch between login and sign-up and clear all errors. */
    method ToggleMode()
      modifies this
      ensures isLogin == !old(isLogin)
      ensures email == old(email) && password == old(password) && errors == map[]
    {
      isLogin := !isLogin;
      errors := map[];
    }
  }
}
