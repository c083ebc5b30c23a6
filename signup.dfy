/** The sign-up form (src/pages/SignupPage.tsx): the three validators, the error map
    that the change handler keeps per field and that the submit handler rebuilds from
    scratch, and how a failed `signup` call is reported. */
module Signup {
  import opened Common

  // ---------------------------------------------------------------------------
  // validateEmail: /^[^\s@]+@[^\s@]+\.[^\s@]+$/

  /** A non-empty run of characters that are neither white space nor '@', what
      `[^\s@]+` matches. */
  predicate Plain(s: string)
  {
    s != [] && forall i :: 0 <= i < |s| ==> !IsSpace(s[i]) && s[i] != '@'
  }

  /** The first index of `c` in `s`. */
  function Find(s: string, c: char): (r: Option<nat>)
    ensures r.None? <==> c !in s
    ensures r.Some? ==> r.value < |s| && s[r.value] == c && c !in s[..r.value]
  {
    if s == [] then None
    else if s[0] == c then Some(0)
    else
      var r := Find(s[1..], c);
      assert s[1..] == s[1..];
      if r.None? then None
      else
        assert s[..r.value + 1] == [s[0]] + s[1..][..r.value];
        Some(r.value + 1)
  }

  /** A dot with at least one character on either side. */
  predicate HasInnerDot(s: string)
  {
    exists k :: 0 < k < |s| - 1 && s[k] == '.'
  }

  /** The local part up to the first '@', then a domain that holds an inner dot and
      no further '@'; nothing anywhere is white space. */
  predicate ValidateEmail(email: string)
  {
    match Find(email, '@')
    case None => false
    case Some(at) =>
      Plain(email[..at]) && at + 1 <= |email| && Plain(email[at + 1..]) && HasInnerDot(email[at + 1..])
  }

  lemma PlainParts(s: string, k: nat)
    requires Plain(s) && 0 < k < |s| - 1
    ensures Plain(s[..k]) && Plain(s[k + 1..])
  {
    forall i | 0 <= i < k ensures s[..k][i] == s[i] { }
    var t := s[k + 1..];
    forall i | 0 <= i < |t| ensures t[i] == s[k + 1 + i] { }
  }

  lemma PlainJoin(y: string, z: string)
    requires Plain(y) && Plain(z)
    ensures Plain(y + "." + z)
  {
    var r := y + "." + z;
    forall i | 0 <= i < |r| ensures !IsSpace(r[i]) && r[i] != '@' {
      if i < |y| {
        assert r[i] == y[i];
      } else if i > |y| {
        assert r[i] == z[i - |y| - 1];
      }
    }
  }

  /** The three parts of an address X@Y.Z. */
  ghost predicate EmailParts(email: string, x: string, y: string, z: string)
  {
    Plain(x) && Plain(y) && Plain(z) && email == x + "@" + y + "." + z
  }

  /** The check accepts exactly the addresses X@Y.Z whose three parts are non-empty and
      hold neither white space nor '@'. */
  lemma EmailShape(email: string)
    ensures ValidateEmail(email) <==> exists x, y, z :: EmailParts(email, x, y, z)
  {
    if ValidateEmail(email) {
      AcceptedHasParts(email);
    }
    if exists x, y, z :: EmailParts(email, x, y, z) {
      var x, y, z :| EmailParts(email, x, y, z);
      PartsAccepted(email, x, y, z);
    }
  }

  lemma AcceptedHasParts(email: string)
    requires ValidateEmail(email)
    ensures exists x, y, z :: EmailParts(email, x, y, z)
  {
    var at := Find(email, '@').value;
    var rest := email[at + 1..];
    var k :| 0 < k < |rest| - 1 && rest[k] == '.';
    PlainParts(rest, k);
    assert rest == rest[..k] + "." + rest[k + 1..];
    assert email == email[..at] + "@" + rest;
    assert EmailParts(email, email[..at], rest[..k], rest[k + 1..]);
  }

  lemma PartsAccepted(email: string, x: string, y: string, z: string)
    requires EmailParts(email, x, y, z)
    ensures ValidateEmail(email)
  {
    var rest := y + "." + z;
    assert email == x + "@" + rest;
    assert email[..|x|] == x;
    assert email[|x|] == '@';
    FirstAt(email, x);
    assert email[|x| + 1..] == rest;
    PlainJoin(y, z);
    assert rest[|y|] == '.';
  }

  lemma FirstAt(email: string, x: string)
    requires Plain(x) && |x| < |email| && email[..|x|] == x && email[|x|] == '@'
    ensures Find(email, '@') == Some(|x|)
  {
    assert '@' in email by { assert email[|x|] == '@'; }
  }

  // ---------------------------------------------------------------------------
  // validatePassword and validateName

  const PasswordTooShort := "비밀번호는 최소 8자 이상이어야 합니다."
  const PasswordNeedsLetter := "비밀번호에 영문자가 포함되어야 합니다."
  const PasswordNeedsDigit := "비밀번호에 숫자가 포함되어야 합니다."
  const PasswordNeedsSpecial := "비밀번호에 특수문자가 포함되어야 합니다."

  /** The character class `[!@#$%^&*(),.?":{}|<>]`. */
  const SpecialChars: string := "!@#$%^&*(),.?\":{}|<>"

  predicate IsLetter(c: char)
  {
    'A' <= c <= 'Z' || 'a' <= c <= 'z'
  }

  predicate HasLetter(s: string)
  {
    exists i :: 0 <= i < |s| && IsLetter(s[i])
  }

  predicate HasDigit(s: string)
  {
    exists i :: 0 <= i < |s| && IsDigit(s[i])
  }

  predicate HasSpecial(s: string)
  {
    exists i :: 0 <= i < |s| && s[i] in SpecialChars
  }

  datatype PasswordCheck = PasswordCheck(isValid: bool, message: string)

  /** The four rules in order; the first one broken names the message. */
  function ValidatePassword(password: string): (r: PasswordCheck)
    ensures r.isValid <==> |password| >= 8 && HasLetter(password) && HasDigit(password) && HasSpecial(password)
    ensures r.isValid <==> r.message == ""
    ensures |password| < 8 ==> r.message == PasswordTooShort
    ensures |password| >= 8 && !HasLetter(password) ==> r.message == PasswordNeedsLetter
    ensures |password| >= 8 && HasLetter(password) && !HasDigit(password) ==> r.message == PasswordNeedsDigit
    ensures |password| >= 8 && HasLetter(password) && HasDigit(password) && !HasSpecial(password) ==>
      r.message == PasswordNeedsSpecial
  {
    if |password| < 8 then PasswordCheck(false, PasswordTooShort)
    else if !HasLetter(password) then PasswordCheck(false, PasswordNeedsLetter)
    else if !HasDigit(password) then PasswordCheck(false, PasswordNeedsDigit)
    else if !HasSpecial(password) then PasswordCheck(false, PasswordNeedsSpecial)
    else PasswordCheck(true, "")
  }

  predicate ValidateName(name: string)
  {
    2 <= |Trim(name)| <= 50
  }

  /** White space around a name does not count towards its length. */
  lemma NameIgnoresSurroundingSpace(name: string)
    ensures ValidateName(" " + name + " ") <==> ValidateName(name)
  {
    TrimAround(name);
  }

  lemma TrimAround(s: string)
    ensures Trim(" " + s + " ") == Trim(s)
  {
    assert (" " + s + " ")[1..] == s + " ";
    assert TrimStart(" " + s + " ") == TrimStart(s + " ");
    TrimStartSpaceEnd(s);
  }

  /** Trimming the start of `s + " "` keeps the trailing blank at its end, and the end
      trim then drops it. */
  lemma {:induction false} TrimStartSpaceEnd(s: string)
    ensures TrimEnd(TrimStart(s + " ")) == TrimEnd(TrimStart(s))
  {
    if |s| > 0 && IsSpace(s[0]) {
      assert (s + " ")[1..] == s[1..] + " ";
      TrimStartSpaceEnd(s[1..]);
    } else if |s| == 0 {
      assert TrimStart(" ") == TrimStart(""[..0] + [] );
    } else {
      var t := s + " ";
      assert t[..|t| - 1] == s;
    }
  }

  // ---------------------------------------------------------------------------
  // The error map

  datatype Field = Email | Password | ConfirmPassword | FullName | Role

  const EmailFormatError := "올바른 이메일 형식이 아닙니다."
  const ConfirmMismatchError := "비밀번호가 일치하지 않습니다."
  const NameLengthError := "이름은 2자 이상 50자 이하여야 합니다."
  const NameRequired := "이름을 입력해주세요."
  const EmailRequired := "이메일을 입력해주세요."
  const PasswordRequired := "비밀번호를 입력해주세요."
  const ConfirmRequired := "비밀번호 확인을 입력해주세요."
  const EmailTakenError := "이미 사용 중인 이메일입니다."
  const SignupFailedText := "회원가입에 실패했습니다."
  const SignupDoneText := "회원가입이 완료되었습니다. 로그인해주세요."

  datatype Form = Form(email: string, password: string, confirmPassword: string, fullName: string, role: string)

  /** The error the change handler shows for a non-empty `value` typed into `field`,
      with `password` the password as it stood before the change. */
  function LiveError(field: Field, value: string, password: string): (e: Option<string>)
    ensures field == Role ==> e.None?
    ensures e.Some? ==> e.value != ""
  {
    match field
    case Email => if !ValidateEmail(value) then Some(EmailFormatError) else None
    case Password =>
      var c := ValidatePassword(value);
      if !c.isValid then Some(c.message) else None
    case ConfirmPassword => if password != value then Some(ConfirmMismatchError) else None
    case FullName => if !ValidateName(value) then Some(NameLengthError) else None
    case Role => None
  }

  /** The error handleSubmit records for one field: the required message for an empty
      field (a blank name counts as empty), the format message otherwise. */
  function SubmitError(f: Form, field: Field): (e: Option<string>)
    ensures e.Some? ==> e.value != ""
  {
    match field
    case FullName =>
      if IsBlank(f.fullName) then Some(NameRequired)
      else if !ValidateName(f.fullName) then Some(NameLengthError)
      else None
    case Email =>
      if f.email == "" then Some(EmailRequired)
      else if !ValidateEmail(f.email) then Some(EmailFormatError)
      else None
    case Password =>
      if f.password == "" then Some(PasswordRequired)
      else if !ValidatePassword(f.password).isValid then Some(ValidatePassword(f.password).message)
      else None
    case ConfirmPassword =>
      if f.confirmPassword == "" then Some(ConfirmRequired)
      else if f.password != f.confirmPassword then Some(ConfirmMismatchError)
      else None
    case Role => None
  }

  /** The whole error map of a submit. */
  function SubmitErrors(f: Form): (errors: map<Field, string>)
    ensures forall k :: k in errors <==> SubmitError(f, k).Some?
    ensures forall k :: k in errors ==> errors[k] == SubmitError(f, k).value
  {
    map k | k in {FullName, Email, Password, ConfirmPassword} && SubmitError(f, k).Some? :: SubmitError(f, k).value
  }

  /** A map that holds exactly the per-field errors is the submit's error map. */
  lemma SameErrors(m: map<Field, string>, f: Form)
    requires m.Keys <= {FullName, Email, Password, ConfirmPassword}
    requires FullName in m <==> SubmitError(f, FullName).Some?
    requires Email in m <==> SubmitError(f, Email).Some?
    requires Password in m <==> SubmitError(f, Password).Some?
    requires ConfirmPassword in m <==> SubmitError(f, ConfirmPassword).Some?
    requires FullName in m ==> m[FullName] == SubmitError(f, FullName).value
    requires Email in m ==> m[Email] == SubmitError(f, Email).value
    requires Password in m ==> m[Password] == SubmitError(f, Password).value
    requires ConfirmPassword in m ==> m[ConfirmPassword] == SubmitError(f, ConfirmPassword).value
    ensures m == SubmitErrors(f)
  {
    var e := SubmitErrors(f);
    forall k | k in m ensures k in e && m[k] == e[k] {
      match k
      case FullName =>
      case Email =>
      case Password =>
      case ConfirmPassword =>
    }
    forall k | k in e ensures k in m {
      match k
      case FullName =>
      case Email =>
      case Password =>
      case ConfirmPassword =>
      case Role =>
    }
  }

  /** An empty field gets its "required" message, never a format message. */
  lemma EmptyFieldsAreRequired(f: Form)
    ensures f.email == "" ==> SubmitErrors(f)[Email] == EmailRequired
    ensures f.password == "" ==> SubmitErrors(f)[Password] == PasswordRequired
    ensures f.confirmPassword == "" ==> SubmitErrors(f)[ConfirmPassword] == ConfirmRequired
    ensures IsBlank(f.fullName) ==> SubmitErrors(f)[FullName] == NameRequired
  {
  }

  /** The submit goes ahead exactly when every validator passes and the confirmation
      matches the password. */
  lemma SubmitAllowed(f: Form)
    ensures SubmitErrors(f) == map[] <==>
      ValidateName(f.fullName) && ValidateEmail(f.email) && ValidatePassword(f.password).isValid
      && f.confirmPassword == f.password
  {
    var e := SubmitErrors(f);
    if e == map[] {
      assert SubmitError(f, FullName).None? && SubmitError(f, Email).None?;
      assert SubmitError(f, Password).None? && SubmitError(f, ConfirmPassword).None?;
      assert IsBlank(f.fullName) ==> !ValidateName(f.fullName);
    } else {
      var k :| k in e;
    }
  }

  /** A duplicate-address failure: the messages that mark the address as taken. */
  predicate IsDuplicateEmail(msg: string)
  {
    Contains(msg, "이미 존재하는 이메일") || Contains(msg, "이미 존재") || Contains(msg, "중복") || Contains(msg, "409")
  }

  /** The first test is subsumed by the second. */
  lemma DuplicateTest(msg: string)
    ensures IsDuplicateEmail(msg) <==> Contains(msg, "이미 존재") || Contains(msg, "중복") || Contains(msg, "409")
  {
    ContainsPrefix(msg, "이미 존재", "하는 이메일");
    assert "이미 존재" + "하는 이메일" == "이미 존재하는 이메일";
  }

  /** Where the page goes after a submit. */
  datatype Navigation = Stay | ToLogin(message: string, email: string)

  /** The sign-up page's form state. */
  class SignupPage {
    var form: Form
    var errors: map<Field, string>
    /** The general error shown above the form. */
    var error: string
    var isLoading: bool

    constructor ()
      ensures form == Form("", "", "", "", "STUDENT") && errors == map[] && error == "" && !isLoading
    {
      form := Form("", "", "", "", "STUDENT");
      errors := map[];
      error := "";
      isLoading := false;
    }

    /** handleChange: stores the value and re-checks that field alone; an empty value
        clears its error. The confirmation is compared with the stored password. */
    method HandleChange(field: Field, value: string)
      modifies this
      ensures form == match field
        case Email => old(form).(email := value)
        case Password => old(form).(password := value)
        case ConfirmPassword => old(form).(confirmPassword := value)
        case FullName => old(form).(fullName := value)
        case Role => old(form).(role := value)
      ensures field != Role ==>
        (field in errors <==> value != "" && LiveError(field, value, old(form).password).Some?)
      ensures field != Role && field in errors ==>
        LiveError(field, value, old(form).password).Some? && errors[field] == LiveError(field, value, old(form).password).value
      ensures forall f :: f != field ==> (f in errors <==> f in old(errors))
      ensures forall f :: f != field && f in errors ==> errors[f] == old(errors)[f]
      ensures error == old(error) && isLoading == old(isLoading)
    {
      var previousPassword := form.password;
      match field {
        case Email => form := form.(email := value);
        case Password => form := form.(password := value);
        case ConfirmPassword => form := form.(confirmPassword := value);
        case FullName => form := form.(fullName := value);
        case Role => form := form.(role := value);
      }
      var newErrors := errors;
      if field == Email && value != "" && !ValidateEmail(value) {
        newErrors := newErrors[Email := EmailFormatError];
      } else if field == Email {
        newErrors := newErrors - {Email};
      }
      if field == Password && value != "" {
        var check := ValidatePassword(value);
        if !check.isValid {
          newErrors := newErrors[Password := check.message];
        } else {
          newErrors := newErrors - {Password};
        }
      } else if field == Password {
        newErrors := newErrors - {Password};
      }
      if field == ConfirmPassword && value != "" && previousPassword != value {
        newErrors := newErrors[ConfirmPassword := ConfirmMismatchError];
      } else if field == ConfirmPassword {
        newErrors := newErrors - {ConfirmPassword};
      }
      if field == FullName && value != "" && !ValidateName(value) {
        newErrors := newErrors[FullName := NameLengthError];
      } else if field == FullName {
        newErrors := newErrors - {FullName};
      }
      errors := newErrors;
    }

    /** The name check of handleSubmit: blank first, then the length rule. */
    static method NameCheck(f: Form) returns (e: Option<string>)
      ensures e == SubmitError(f, FullName)
    {
      if IsBlank(f.fullName) {
        e := Some(NameRequired);
      } else if !ValidateName(f.fullName) {
        e := Some(NameLengthError);
      } else {
        e := None;
      }
    }

    /** The address check of handleSubmit: empty first, then the format rule. */
    static method EmailCheck(f: Form) returns (e: Option<string>)
      ensures e == SubmitError(f, Email)
    {
      if f.email == "" {
        e := Some(EmailRequired);
      } else if !ValidateEmail(f.email) {
        e := Some(EmailFormatError);
      } else {
        e := None;
      }
    }

    /** The password check of handleSubmit: empty first, then the first rule that fails. */
    static method PasswordFieldCheck(f: Form) returns (e: Option<string>)
      ensures e == SubmitError(f, Password)
    {
      if f.password == "" {
        e := Some(PasswordRequired);
      } else {
        var check := ValidatePassword(f.password);
        e := if check.isValid then None else Some(check.message);
      }
    }

    /** The confirmation check of handleSubmit: empty first, then equality with the password. */
    static method ConfirmCheck(f: Form) returns (e: Option<string>)
      ensures e == SubmitError(f, ConfirmPassword)
    {
      if f.confirmPassword == "" {
        e := Some(ConfirmRequired);
      } else if f.password != f.confirmPassword {
        e := Some(ConfirmMismatchError);
      } else {
        e := None;
      }
    }

    static method CollectErrors(f: Form) returns (newErrors: map<Field, string>)
      ensures newErrors == SubmitErrors(f)
    {
      newErrors := map[];
      var name := NameCheck(f);
      if name.Some? {
        newErrors := newErrors[FullName := name.value];
      }
      var email := EmailCheck(f);
      if email.Some? {
        newErrors := newErrors[Email := email.value];
      }
      var password := PasswordFieldCheck(f);
      if password.Some? {
        newErrors := newErrors[Password := password.value];
      }
      var confirm := ConfirmCheck(f);
      if confirm.Some? {
        newErrors := newErrors[ConfirmPassword := confirm.value];
      }
      SameErrors(newErrors, f);
    }

    /** handleSubmit: the error map is rebuilt, and `signup` is called only when it is
        empty. A duplicate-address failure marks the address field; any other failure
        becomes the general error. */
    method HandleSubmit(reply: Remote<()>) returns (called: bool, nav: Navigation)
      modifies this
      ensures form == old(form)
      ensures called <==> SubmitErrors(old(form)) == map[]
      ensures !called ==> errors == SubmitErrors(old(form)) && error == "" && nav == Stay && isLoading == old(isLoading)
      ensures called ==> !isLoading
      ensures called && reply.Ok? ==>
        errors == map[] && error == "" && nav == ToLogin(SignupDoneText, old(form).email)
      ensures called && reply.Threw? ==>
        nav == Stay &&
        var msg := MessageOr(reply.error, SignupFailedText);
        (if IsDuplicateEmail(msg) then errors == map[Email := EmailTakenError] && error == ""
         else errors == map[] && error == msg)
    {
      error := "";
      var newErrors := CollectErrors(form);
      errors := newErrors;
      if |newErrors| > 0 {
        return false, Stay;
      }
      isLoading := true;
      called := true;
      match reply {
        case Ok(_) =>
          nav := ToLogin(SignupDoneText, form.email);
        case Threw(e) =>
          nav := Stay;
          var msg := MessageOr(e, SignupFailedText);
          if IsDuplicateEmail(msg) {
            errors := errors[Email := EmailTakenError];
            error := "";
          } else {
            error := msg;
          }
      }
      isLoading := false;
    }
  }

  /** Once a field has been re-entered with a valid value, its error is gone, whatever
      the other fields hold. */
  lemma ValidValueClearsError(field: Field, value: string, password: string)
    requires field == Email ==> ValidateEmail(value)
    requires field == Password ==> ValidatePassword(value).isValid
    requires field == ConfirmPassword ==> value == password
    requires field == FullName ==> ValidateName(value)
    ensures LiveError(field, value, password).None?
  {
  }
}
