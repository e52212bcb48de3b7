/** The `UserData` account record of Server/src/UserSetUp.py: four fields, and
    property setters meant to check each value before storing it. Python
    values that are not strings are one case, `NonStr`, since every setter
    refuses them alike. */
module UserSetUp {
  import opened Common
  import opened Text

  datatype PyValue = Str(text: string) | NonStr

  /** The four stored attributes of an account. */
  datatype Fields = Fields(email: PyValue, password: PyValue, firstName: PyValue, lastName: PyValue)

  const EmailNotString: string := "Email must be a string."
  const InvalidEmail: string := "Invalid email format."
  const PasswordNotString: string := "Password must be a string."
  const ShortPassword: string := "Password must be at least 8 characters long."
  const FirstNameNotString: string := "First name must be a string."
  const LastNameNotString: string := "Last name must be a string."

  /** An address with an '@' whose domain, the text after the last '@',
      holds a '.'. */
  predicate WellFormedEmail(s: string) {
    exists i :: 0 <= i < |s| && s[i] == '@' && '@' !in s[i + 1..] && '.' in s[i + 1..]
  }

  /** The email setter's checks: a string first, then an '@' and a '.' in
      `value.split("@")[-1]`. Ok carries the text to store. */
  function EmailSetter(v: PyValue): (r: Result<string>)
    ensures v.NonStr? ==> r == Err(ValueError(EmailNotString))
    ensures v.Str? && r.Ok? ==> r.value == v.text
    ensures v.Str? && r.Err? ==> r.error == ValueError(InvalidEmail)
  {
    match v
    case NonStr => Err(ValueError(EmailNotString))
    case Str(s) =>
      if '@' !in s || '.' !in LastPiece(s, '@') then Err(ValueError(InvalidEmail))
      else Ok(s)
  }

  /** The split-based check accepts exactly the well-formed addresses. */
  lemma EmailSetterAcceptsIff(s: string)
    ensures EmailSetter(Str(s)).Ok? <==> WellFormedEmail(s)
  {
    if EmailSetter(Str(s)).Ok? {
      AcceptedEmailIsWellFormed(s);
    }
    if WellFormedEmail(s) {
      var i :| 0 <= i < |s| && s[i] == '@' && '@' !in s[i + 1..] && '.' in s[i + 1..];
      WellFormedEmailAccepted(s, i);
    }
  }

  lemma AcceptedEmailIsWellFormed(s: string)
    requires '@' in s && '.' in LastPiece(s, '@')
    ensures WellFormedEmail(s)
  {
    var domain := LastPiece(s, '@');
    assert domain != s;
    var i := |s| - |domain| - 1;
    assert s[i + 1..] == domain;
    assert s[i] == '@';
  }

  lemma WellFormedEmailAccepted(s: string, i: nat)
    requires i < |s| && s[i] == '@' && '@' !in s[i + 1..] && '.' in s[i + 1..]
    ensures EmailSetter(Str(s)).Ok?
  {
    assert s == s[..i] + ['@'] + s[i + 1..];
    LastPieceAfterSep(s[..i], s[i + 1..], '@');
  }

  /** The password setter: a string of at least 8 characters. */
  function PasswordSetter(v: PyValue): (r: Result<string>)
    ensures r.Ok? <==> v.Str? && |v.text| >= 8
    ensures r.Ok? ==> r.value == v.text
    ensures v.NonStr? ==> r == Err(ValueError(PasswordNotString))
    ensures v.Str? && r.Err? ==> r.error == ValueError(ShortPassword)
  {
    match v
    case NonStr => Err(ValueError(PasswordNotString))
    case Str(s) => if |s| < 8 then Err(ValueError(ShortPassword)) else Ok(s)
  }

  /** The first and last name setters: any string. */
  function NameSetter(v: PyValue, notString: string): (r: Result<string>)
    ensures r.Ok? <==> v.Str?
    ensures r.Ok? ==> r.value == v.text
    ensures r.Err? ==> r.error == ValueError(notString)
  {
    match v
    case NonStr => Err(ValueError(notString))
    case Str(s) => Ok(s)
  }

  /** What the setters were written to guarantee of a stored account. */
  predicate ValidFields(f: Fields) {
    && f.email.Str? && WellFormedEmail(f.email.text)
    && f.password.Str? && |f.password.text| >= 8
    && f.firstName.Str? && f.lastName.Str?
  }

  /** `__init__` as written: the setters are local definitions inside it and
      are never attached to the class, so the four assignments store the
      values as given. */
  function InitAsWritten(email: PyValue, password: PyValue, firstName: PyValue, lastName: PyValue): (f: Fields)
    ensures f.email == email && f.password == password
    ensures f.firstName == firstName && f.lastName == lastName
  {
    Fields(email, password, firstName, lastName)
  }

  /** `__init__` as intended: each assignment goes through its setter, in the
      order email, password, first name, last name, and the first refusal
      ends the construction. */
  function InitValidated(email: PyValue, password: PyValue, firstName: PyValue, lastName: PyValue): (r: Result<Fields>)
    ensures r.Ok? <==> EmailSetter(email).Ok? && PasswordSetter(password).Ok?
                       && NameSetter(firstName, FirstNameNotString).Ok? && NameSetter(lastName, LastNameNotString).Ok?
    ensures r.Ok? ==> r.value == Fields(email, password, firstName, lastName)
    ensures EmailSetter(email).Err? ==> r == Err(EmailSetter(email).error)
    ensures EmailSetter(email).Ok? && PasswordSetter(password).Err? ==> r == Err(PasswordSetter(password).error)
    ensures EmailSetter(email).Ok? && PasswordSetter(password).Ok? && firstName.NonStr? ==>
              r == Err(ValueError(FirstNameNotString))
    ensures EmailSetter(email).Ok? && PasswordSetter(password).Ok? && firstName.Str? && lastName.NonStr? ==>
              r == Err(ValueError(LastNameNotString))
  {
    match EmailSetter(email)
    case Err(e) => Err(e)
    case Ok(_) =>
      match PasswordSetter(password)
      case Err(e) => Err(e)
      case Ok(_) =>
        match NameSetter(firstName, FirstNameNotString)
        case Err(e) => Err(e)
        case Ok(_) =>
          match NameSetter(lastName, LastNameNotString)
          case Err(e) => Err(e)
          case Ok(_) => Ok(Fields(email, password, firstName, lastName))
  }

  /** Every account the intended constructor builds meets the setters' rules,
      and every valid account can be built. */
  lemma InitValidatedIffValid(email: PyValue, password: PyValue, firstName: PyValue, lastName: PyValue)
    ensures InitValidated(email, password, firstName, lastName).Ok? <==>
            ValidFields(Fields(email, password, firstName, lastName))
  {
    if email.Str? {
      EmailSetterAcceptsIff(email.text);
    }
  }

  /** As written, a malformed address and a 5-character password are stored,
      where the setters would have refused the address. */
  lemma UnvalidatedConstructionStoresBadValues()
    ensures var f := InitAsWritten(Str("not-an-email"), Str("short"), Str("Ada"), Str("Lovelace"));
      f.email == Str("not-an-email") && f.password == Str("short") && !ValidFields(f)
    ensures InitValidated(Str("not-an-email"), Str("short"), Str("Ada"), Str("Lovelace")) == Err(ValueError(InvalidEmail))
  {
    assert '@' !in "not-an-email";
    EmailSetterAcceptsIff("not-an-email");
  }

  /** A user account. The fields hold whatever was last stored. */
  class UserData {
    var email: PyValue
    var password: PyValue
    var firstName: PyValue
    var lastName: PyValue

    function State(): Fields
      reads this
    {
      Fields(email, password, firstName, lastName)
    }

    /** `UserData(email, password, first_name, last_name)` as written. */
    constructor (email: PyValue, password: PyValue, firstName: PyValue, lastName: PyValue)
      ensures State() == InitAsWritten(email, password, firstName, lastName)
    {
      this.email := email;
      this.password := password;
      this.firstName := firstName;
      this.lastName := lastName;
    }

    /** The email setter as intended: store the value if it passes, else
        raise and leave the account as it was. */
    method SetEmail(v: PyValue) returns (err: Option<Failure>)
      modifies this
      ensures EmailSetter(v).Ok? ==> err.None? && State() == old(State()).(email := v)
      ensures EmailSetter(v).Err? ==> err == Some(EmailSetter(v).error) && State() == old(State())
    {
      match EmailSetter(v)
      case Err(e) => return Some(e);
      case Ok(_) =>
        email := v;
        return None;
    }

    method SetPassword(v: PyValue) returns (err: Option<Failure>)
      modifies this
      ensures PasswordSetter(v).Ok? ==> err.None? && State() == old(State()).(password := v)
      ensures PasswordSetter(v).Err? ==> err == Some(PasswordSetter(v).error) && State() == old(State())
    {
      match PasswordSetter(v)
      case Err(e) => return Some(e);
      case Ok(_) =>
        password := v;
        return None;
    }

    method SetFirstName(v: PyValue) returns (err: Option<Failure>)
      modifies this
      ensures v.Str? ==> err.None? && State() == old(State()).(firstName := v)
      ensures v.NonStr? ==> err == Some(ValueError(FirstNameNotString)) && State() == old(State())
    {
      match NameSetter(v, FirstNameNotString)
      case Err(e) => return Some(e);
      case Ok(_) =>
        firstName := v;
        return None;
    }

    method SetLastName(v: PyValue) returns (err: Option<Failure>)
      modifies this
      ensures v.Str? ==> err.None? && State() == old(State()).(lastName := v)
      ensures v.NonStr? ==> err == Some(ValueError(LastNameNotString)) && State() == old(State())
    {
      match NameSetter(v, LastNameNotString)
      case Err(e) => return Some(e);
      case Ok(_) =>
        lastName := v;
        return None;
    }

    /** The body of `__init__` as intended, on the freshly allocated object:
        the four assignments through the setters, stopping at the first
        refusal. A completed run leaves a valid account. */
    method InitThroughSetters(email: PyValue, password: PyValue, firstName: PyValue, lastName: PyValue)
      returns (err: Option<Failure>)
      modifies this
      ensures err.None? <==> InitValidated(email, password, firstName, lastName).Ok?
      ensures err.Some? ==> err.value == InitValidated(email, password, firstName, lastName).error
      ensures err.None? ==> State() == InitValidated(email, password, firstName, lastName).value
                            && ValidFields(State())
    {
      InitValidatedIffValid(email, password, firstName, lastName);
      err := SetEmail(email);
      if err.Some? { return; }
      err := SetPassword(password);
      if err.Some? { return; }
      err := SetFirstName(firstName);
      if err.Some? { return; }
      err := SetLastName(lastName);
    }
  }
}
