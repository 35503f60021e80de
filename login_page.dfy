/** The login form of src/pages/Login.js: its validator and the gate in
    front of the session's login. */
module LoginPage {
  import opened Wrappers
  import opened Text
  import AuthContext

  /** The keys of the form's error object. */
  datatype LoginField = EmailField | PasswordField | General

  const EmailRequired: string := "Email is required"
  const EmailInvalid: string := "Email is invalid"
  const PasswordRequired: string := "Password is required"
  const PasswordShort: string := "Password must be at least 6 characters"

  /** What `/\S+@\S+\.\S+/.test(s)` means: somewhere in `s` (the pattern is
      not anchored) an `@` has a non-space character before it, then at
      least one non-space character, a `.`, and a non-space character. A
      longer `\S+` run only adds characters that this already allows. */
  ghost predicate EmailPattern(s: string) {
    exists p, q :: MatchAt(s, p, q)
  }

  /** No white space in s[i..j]. */
  predicate Unspaced(s: string, i: int, j: int)
    requires 0 <= i && j <= |s|
  {
    forall k :: i <= k < j ==> !IsSpace(s[k])
  }

  /** The pattern matches with its `@` at p and its `.` at q. */
  predicate MatchAt(s: string, p: int, q: int) {
    && 0 < p && p + 1 < q && q + 1 < |s|
    && !IsSpace(s[p - 1]) && s[p] == '@'
    && Unspaced(s, p + 1, q)
    && s[q] == '.' && !IsSpace(s[q + 1])
  }

  /** From position q on, the run of non-space characters reaches a `.`
      followed by a non-space character. */
  function DotFrom(s: string, q: nat): bool
    decreases |s| - q
  {
    q + 1 < |s| && ((s[q] == '.' && !IsSpace(s[q + 1])) || (!IsSpace(s[q]) && DotFrom(s, q + 1)))
  }

  function AtHere(s: string, p: nat): bool {
    0 < p && p + 1 < |s| && !IsSpace(s[p - 1]) && s[p] == '@' && !IsSpace(s[p + 1]) && DotFrom(s, p + 2)
  }

  function AtFrom(s: string, p: nat): bool
    decreases |s| - p
  {
    p < |s| && (AtHere(s, p) || AtFrom(s, p + 1))
  }

  /** A scanner deciding the pattern: try every `@` from the left. */
  function EmailMatches(s: string): bool {
    AtFrom(s, 0)
  }

  lemma {:induction false} DotFromSound(s: string, q: nat)
    requires DotFrom(s, q)
    ensures exists r :: DotAt(s, q, r)
    decreases |s| - q
  {
    if !(s[q] == '.' && !IsSpace(s[q + 1])) {
      DotFromSound(s, q + 1);
      var r :| DotAt(s, q + 1, r);
      assert DotAt(s, q, r);
    } else {
      assert DotAt(s, q, q);
    }
  }

  /** The `.` at r ends a run of non-space characters that starts at q. */
  predicate DotAt(s: string, q: int, r: int) {
    0 <= q <= r && r + 1 < |s| && s[r] == '.' && !IsSpace(s[r + 1]) && Unspaced(s, q, r)
  }

  lemma {:induction false} DotFromComplete(s: string, q: nat, r: nat)
    requires DotAt(s, q, r)
    ensures DotFrom(s, q)
    decreases r - q
  {
    if q < r {
      DotFromComplete(s, q + 1, r);
    }
  }

  lemma {:induction false} AtFromSound(s: string, p: nat)
    requires AtFrom(s, p)
    ensures EmailPattern(s)
    decreases |s| - p
  {
    if AtHere(s, p) {
      DotFromSound(s, p + 2);
      var r :| DotAt(s, p + 2, r);
      assert MatchAt(s, p, r);
    } else {
      AtFromSound(s, p + 1);
    }
  }

  lemma {:induction false} AtFromComplete(s: string, p0: nat, p: nat, q: nat)
    requires p0 <= p && MatchAt(s, p, q)
    ensures AtFrom(s, p0)
    decreases p - p0
  {
    if p0 < p {
      AtFromComplete(s, p0 + 1, p, q);
    } else {
      DotFromComplete(s, p + 2, q);
    }
  }

  /** The scanner accepts exactly the strings the pattern matches. */
  lemma EmailMatchesIff(s: string)
    ensures EmailMatches(s) <==> EmailPattern(s)
  {
    if EmailMatches(s) {
      AtFromSound(s, 0);
    }
    if EmailPattern(s) {
      var p, q :| MatchAt(s, p, q);
      AtFromComplete(s, 0, p, q);
    }
  }

  /** The pattern is not anchored: text around a match does not matter. */
  lemma Unanchored(a: string, s: string, b: string)
    requires EmailPattern(s)
    ensures EmailPattern(a + s + b)
  {
    var p, q :| MatchAt(s, p, q);
    var t := a + s + b;
    var p', q' := |a| + p, |a| + q;
    assert t[p' - 1] == s[p - 1] && t[p'] == s[p] && t[q'] == s[q] && t[q' + 1] == s[q + 1];
    assert forall k :: p' < k < q' ==> t[k] == s[k - |a|];
    assert MatchAt(t, p', q');
  }

  /** `validateForm`: an empty email is missing, any other must match the
      pattern; an empty password is missing, any other needs six
      characters. White space counts as content for both. */
  function LoginErrors(email: string, password: string): (errs: map<LoginField, string>)
    ensures EmailField in errs <==> email == [] || !EmailMatches(email)
    ensures EmailField in errs ==> errs[EmailField] == (if email == [] then EmailRequired else EmailInvalid)
    ensures PasswordField in errs <==> |password| < 6
    ensures PasswordField in errs ==> errs[PasswordField] == (if password == [] then PasswordRequired else PasswordShort)
    ensures General !in errs
  {
    var e1: map<LoginField, string> :=
      if email == [] then map[EmailField := EmailRequired]
      else if !EmailMatches(email) then map[EmailField := EmailInvalid]
      else map[];
    if password == [] then e1[PasswordField := PasswordRequired]
    else if |password| < 6 then e1[PasswordField := PasswordShort]
    else e1
  }

  /** The form passes exactly when the email matches the pattern and the
      password has at least six characters. */
  lemma LoginValidIff(email: string, password: string)
    ensures LoginErrors(email, password) == map[] <==> EmailPattern(email) && |password| >= 6
  {
    EmailMatchesIff(email);
    if LoginErrors(email, password) != map[] {
      var k :| k in LoginErrors(email, password);
    }
  }

  lemma SampleEmails()
    ensures EmailMatches("asha@ananta.in")
    ensures !EmailMatches("asha@ananta")
  {
    assert DotFrom("asha@ananta.in", 6);
    assert AtHere("asha@ananta.in", 4);
    assert AtFrom("asha@ananta.in", 4);
  }

  /** `handleSubmit`: an invalid form shows its errors and never reaches the
      session; a valid one calls `login`, moves on to the products page on
      success and otherwise shows the returned message as the general
      error. */
  method HandleSubmit(s: AuthContext.Session, email: string, password: string, ioFault: bool)
    returns (errors: map<LoginField, string>, toProducts: bool)
    requires s.db.Valid()
    modifies s`user, s`remembered, s.db`stores
    ensures s.db.Valid()
    ensures LoginErrors(email, password) != map[] ==>
      errors == LoginErrors(email, password) && !toProducts && unchanged(s, s.db)
    ensures LoginErrors(email, password) == map[] ==>
      (toProducts <==> !ioFault && email in s.db.users && s.db.users[email].password == password)
    ensures LoginErrors(email, password) == map[] && toProducts ==> errors == map[] && s.user == Some(s.db.users[email])
    ensures LoginErrors(email, password) == map[] && !toProducts ==>
      errors == map[General := if ioFault then AuthContext.LoginFailed else AuthContext.InvalidCredentials]
      && s.user == old(s.user)
  {
    errors := LoginErrors(email, password);
    if errors != map[] {
      return errors, false;
    }
    var r := s.Login(email, password, ioFault);
    if r.Success? {
      toProducts := true;
    } else {
      errors := map[General := r.error];
      toProducts := false;
    }
  }
}
