/** The sign-up page of client/src/pages/Signup.tsx: the four password checks
    it shows while the password is typed, and the submit, which sends the form
    to the addProfile mutation whatever the checks say. */
module Signup {
  import opened Common
  import opened Text
  import Models
  import ProfileResolvers

  /** The form state: name, email and password as typed. */
  datatype SignupForm = SignupForm(name: string, email: string, password: string)

  /** One line of the checklist: its caption (the source's `label`) and whether it is met. */
  datatype Check = Check(caption: string, valid: bool)

  /** The class `[!@#$%^&*(),.?":{}|<>]`. */
  predicate IsSpecial(c: char) {
    || c == '!' || c == '@' || c == '#' || c == '$' || c == '%' || c == '^' || c == '&' || c == '*'
    || c == '(' || c == ')' || c == ',' || c == '.' || c == '?' || c == '"' || c == ':' || c == '{'
    || c == '}' || c == '|' || c == '<' || c == '>'
  }
  predicate IsLower(c: char) { 'a' <= c <= 'z' }
  predicate IsUpper(c: char) { 'A' <= c <= 'Z' }

  /** `/[...]/.test(s)` for a one-character class: a scan from the front
      that stops at the first match. */
  function Matches(s: string, inClass: char -> bool): (found: bool)
  {
    if s == [] then false
    else if inClass(s[0]) then true
    else Matches(s[1..], inClass)
  }

  /** The scan finds a match exactly when some character is in the class. */
  lemma {:induction false} MatchesIff(s: string, inClass: char -> bool)
    ensures Matches(s, inClass) <==> exists i :: 0 <= i < |s| && inClass(s[i])
  {
    if s != [] && !inClass(s[0]) {
      MatchesIff(s[1..], inClass);
      if exists i :: 0 <= i < |s| && inClass(s[i]) {
        var i :| 0 <= i < |s| && inClass(s[i]);
        assert s[1..][i - 1] == s[i];
      }
      if exists j :: 0 <= j < |s[1..]| && inClass(s[1..][j]) {
        var j :| 0 <= j < |s[1..]| && inClass(s[1..][j]);
        assert s[j + 1] == s[1..][j];
      }
    }
  }

  /** JavaScript's `length`: the number of UTF-16 code units, where a
      character beyond the Basic Multilingual Plane takes two. */
  function Utf16Length(s: string): (n: nat)
    ensures |s| <= n <= 2 * |s|
    ensures (forall i :: 0 <= i < |s| ==> s[i] as int < 0x1_0000) ==> n == |s|
  {
    if s == [] then 0
    else
      assert forall i :: 0 <= i < |s[1..]| ==> s[1..][i] == s[i + 1];
      (if s[0] as int < 0x1_0000 then 1 else 2) + Utf16Length(s[1..])
  }

  /** `passwordChecks`: length, special character, digit (`\d` is 0-9 without
      the u flag), and both letter cases. */
  function PasswordChecks(password: string): (checks: seq<Check>)
    ensures |checks| == 4
    ensures checks[0] == Check("Minimum 6 characters", Utf16Length(password) >= 6)
    ensures checks[1].caption == "One special character" &&
            (checks[1].valid <==> exists i :: 0 <= i < |password| && IsSpecial(password[i]))
    ensures checks[2].caption == "One number" &&
            (checks[2].valid <==> exists i :: 0 <= i < |password| && IsDigit(password[i]))
    ensures checks[3].caption == "One upper case and one lower case letter" &&
            (checks[3].valid <==> (exists i :: 0 <= i < |password| && IsLower(password[i]))
                                  && (exists j :: 0 <= j < |password| && IsUpper(password[j])))
  {
    MatchesIff(password, IsSpecial);
    MatchesIff(password, IsDigit);
    MatchesIff(password, IsLower);
    MatchesIff(password, IsUpper);
    [ Check("Minimum 6 characters", Utf16Length(password) >= 6),
      Check("One special character", Matches(password, IsSpecial)),
      Check("One number", Matches(password, IsDigit)),
      Check("One upper case and one lower case letter", Matches(password, IsLower) && Matches(password, IsUpper)) ]
  }

  /** handleFormSubmit: the mutation's input is the whole form state. */
  function SubmitInput(form: SignupForm): (input: ProfileResolvers.ProfileInput)
    ensures input.name == form.name && input.email == form.email && input.password == form.password
  {
    ProfileResolvers.ProfileInput(form.name, form.email, form.password)
  }

  /** The checks gate nothing: whatever they say of the password, the submit
      creates the profile (the server checks nothing either) and stores the
      password's hash. */
  lemma ChecksAreAdvisory(profiles: map<Models.Id, ProfileResolvers.Profile>, form: SignupForm, newId: Models.Id,
                          sign: ProfileResolvers.Signer)
    requires newId !in profiles
    ensures var o := ProfileResolvers.AddProfileStep(profiles, SubmitInput(form), newId, sign);
      o.result.Ok? && newId in o.profiles && o.profiles[newId].password == Models.Hash(form.password)
  {
  }

  /** A password of lower-case letters only fails the special-character,
      number and case checks, and the length check too when shorter than 6;
      it is still sent as it is. */
  lemma LowerCaseOnlyFailsChecks(form: SignupForm)
    requires forall i :: 0 <= i < |form.password| ==> IsLower(form.password[i])
    ensures var checks := PasswordChecks(form.password);
      !checks[1].valid && !checks[2].valid && !checks[3].valid && (|form.password| < 6 ==> !checks[0].valid)
    ensures SubmitInput(form).password == form.password
  {
    assert forall i :: 0 <= i < |form.password| ==> form.password[i] as int < 0x1_0000;
  }

  /** The length check counts as JavaScript does: three emoji, each beyond
      the Basic Multilingual Plane, make six code units and meet it. */
  lemma AstralCharactersCountTwice()
    ensures Utf16Length("\U{1F600}\U{1F600}\U{1F600}") == 6
    ensures PasswordChecks("\U{1F600}\U{1F600}\U{1F600}")[0].valid
  {
    var e := "\U{1F600}";
    assert "\U{1F600}\U{1F600}\U{1F600}"[1..] == e + e;
    assert (e + e)[1..] == e;
    assert e[1..] == [];
  }
}
