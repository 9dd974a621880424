/** The sign-up form (pages/auth/RegisterPage.tsx): the password rule, the
    per-field errors of `validate`, and the submit that signs the user in. */
module RegisterPageForm {
  import opened Common
  import opened AppState

  /** The characters of the regular expression `[!@#$%^&*(),.?":{}|<>]`. */
  const SpecialChars: string := "!@#$%^&*(),.?\":{}|<>"

  predicate IsSpecial(c: char) { c in SpecialChars }

  /** `/[...]/.test(s)` for a one-character class: some character of s is in it. */
  predicate Has(s: string, cls: char -> bool) {
    exists i :: 0 <= i < |s| && cls(s[i])
  }

  lemma HasCons(s: string, cls: char -> bool)
    requires s != []
    ensures Has(s, cls) <==> cls(s[0]) || Has(s[1..], cls)
  {
    if Has(s, cls) && !cls(s[0]) {
      var i :| 0 <= i < |s| && cls(s[i]);
      assert s[1..][i - 1] == s[i];
    }
    if Has(s[1..], cls) {
      var i :| 0 <= i < |s[1..]| && cls(s[1..][i]);
      assert s[i + 1] == s[1..][i];
    }
  }

  /** Which of the four character classes occur in a password. */
  datatype CharClasses = CharClasses(upper: bool, lower: bool, digit: bool, special: bool)

  /** One pass over the password collecting the four `test` results. */
  function Classes(pwd: string): (r: CharClasses)
    ensures r.upper <==> Has(pwd, IsUpperAscii)
    ensures r.lower <==> Has(pwd, IsLowerAscii)
    ensures r.digit <==> Has(pwd, IsDigitAscii)
    ensures r.special <==> Has(pwd, IsSpecial)
    decreases |pwd|
  {
    if pwd == [] then CharClasses(false, false, false, false)
    else
      var rest := Classes(pwd[1..]);
      var c := pwd[0];
      HasCons(pwd, IsUpperAscii);
      HasCons(pwd, IsLowerAscii);
      HasCons(pwd, IsDigitAscii);
      HasCons(pwd, IsSpecial);
      CharClasses(
        IsUpperAscii(c) || rest.upper,
        IsLowerAscii(c) || rest.lower,
        IsDigitAscii(c) || rest.digit,
        IsSpecial(c) || rest.special)
  }

  /** `validatePassword`. */
  function ValidatePassword(pwd: string): (r: bool)
    ensures r ==> |pwd| >= 4
    ensures r <==>
              Has(pwd, IsUpperAscii) && Has(pwd, IsLowerAscii) && Has(pwd, IsDigitAscii)
              && Has(pwd, IsSpecial) && Utf16Length(pwd) >= 8
  {
    var c := Classes(pwd);
    c.upper && c.lower && c.digit && c.special && Utf16Length(pwd) >= 8
  }

  /** A concrete password meeting every rule. */
  lemma StrongPasswordAccepted()
    ensures ValidatePassword("Secret#2024")
  {
    var p := "Secret#2024";
    assert IsUpperAscii(p[0]) && IsLowerAscii(p[1]) && IsDigitAscii(p[7]) && IsSpecial(p[6]);
    assert Has(p, IsUpperAscii) && Has(p, IsLowerAscii) && Has(p, IsDigitAscii) && Has(p, IsSpecial);
  }

  /** The length rule counts UTF-16 units: six characters, two of them
      outside the Basic Multilingual Plane, are long enough. */
  lemma AstralCharactersCountTwice()
    ensures ValidatePassword("Aa1!\U{1F600}\U{1F600}")
  {
    var p := "Aa1!\U{1F600}\U{1F600}";
    assert IsUpperAscii(p[0]) && IsLowerAscii(p[1]) && IsDigitAscii(p[2]) && IsSpecial(p[3]);
    assert Has(p, IsUpperAscii) && Has(p, IsLowerAscii) && Has(p, IsDigitAscii) && Has(p, IsSpecial);
    assert p[1..][1..][1..][1..] == "\U{1F600}\U{1F600}";
  }

  /** ASCII passwords need eight characters. */
  lemma SevenAsciiRefused(pwd: string)
    requires |pwd| == 7 && forall i :: 0 <= i < |pwd| ==> pwd[i] as int < 128
    ensures !ValidatePassword(pwd)
  {
  }

  /** Without a special character the password is refused, however long. */
  lemma NoSpecialRefused(pwd: string)
    requires forall i :: 0 <= i < |pwd| ==> !IsSpecial(pwd[i])
    ensures !ValidatePassword(pwd)
  {
  }

  const FirstNameRequired := "First name is required"
  const LastNameRequired := "Last name is required"
  const PhoneRequired := "Phone number is required"
  const PasswordRequired := "Password is required"
  const PasswordWeak := "Password must have at least 8 chars, incl. 1 upper, 1 lower, 1 number, 1 special"

  datatype RegisterData = RegisterData(firstName: string, lastName: string, phoneNumber: string, password: string)

  const EmptyData: RegisterData := RegisterData("", "", "", "")

  /** The errors `validate` collects for the form data. */
  function RegisterErrors(data: RegisterData): (r: map<string, string>)
    ensures "firstName" in r <==> data.firstName == ""
    ensures "lastName" in r <==> data.lastName == ""
    ensures "phoneNumber" in r <==> data.phoneNumber == ""
    ensures "password" in r <==> !ValidatePassword(data.password)
    ensures r.Keys <= {"firstName", "lastName", "phoneNumber", "password"}
    ensures "firstName" in r ==> r["firstName"] == FirstNameRequired
    ensures "lastName" in r ==> r["lastName"] == LastNameRequired
    ensures "phoneNumber" in r ==> r["phoneNumber"] == PhoneRequired
    ensures "password" in r ==> r["password"] == (if data.password == "" then PasswordRequired else PasswordWeak)
  {
    PasswordStep(NameErrors(data), data.password)
  }

  /** One `if (!field) newErrors.key = message` of `validate`. */
  function AddIf(m: map<string, string>, cond: bool, key: string, msg: string): map<string, string> {
    if cond then m[key := msg] else m
  }

  /** The errors of the three text fields. */
  function NameErrors(data: RegisterData): map<string, string> {
    AddIf(AddIf(AddIf(map[], data.firstName == "", "firstName", FirstNameRequired),
                data.lastName == "", "lastName", LastNameRequired),
          data.phoneNumber == "", "phoneNumber", PhoneRequired)
  }

  /** The password branch of `validate`. */
  function PasswordStep(m: map<string, string>, pwd: string): map<string, string> {
    if pwd == "" then m["password" := PasswordRequired]
    else if !ValidatePassword(pwd) then m["password" := PasswordWeak]
    else m
  }

  /** The form is accepted exactly when every field is filled in and the
      password meets the rule. */
  lemma AcceptedIffComplete(data: RegisterData)
    ensures RegisterErrors(data) == map[] <==>
              data.firstName != "" && data.lastName != "" && data.phoneNumber != "" && ValidatePassword(data.password)
  {
    var r := RegisterErrors(data);
    if r == map[] {
      assert "firstName" !in r && "lastName" !in r && "phoneNumber" !in r && "password" !in r;
    }
  }

  /** An untouched form reports all four fields as required. */
  lemma EmptyFormErrors()
    ensures RegisterErrors(EmptyData) == map["firstName" := FirstNameRequired, "lastName" := LastNameRequired,
                                             "phoneNumber" := PhoneRequired, "password" := PasswordRequired]
  {
  }

  /** `Object.keys(m).length === 0` holds exactly for the empty map. */
  lemma EmptyIffNoKeys(m: map<string, string>)
    ensures |m| == 0 <==> m == map[]
  {
    if |m| == 0 {
      assert m.Keys == {};
    }
  }

  const AccountCreated := "Account created successfully"

  datatype Toast = NoToast | SuccessToast(text: string)

  class RegisterForm {
    var formData: RegisterData
    var showPassword: bool
    var errors: map<string, string>

    constructor ()
      ensures formData == EmptyData && !showPassword && errors == map[]
    {
      formData, showPassword, errors := EmptyData, false, map[];
    }

    /** `validate`: builds the error dictionary field by field, stores it and
        reports whether it is empty. */
    method Validate() returns (ok: bool)
      modifies this
      ensures errors == RegisterErrors(formData)
      ensures ok <==> errors == map[]
      ensures formData == old(formData) && showPassword == old(showPassword)
    {
      var d := formData;
      var newErrors: map<string, string> := map[];
      if d.firstName == "" {
        newErrors := newErrors["firstName" := FirstNameRequired];
      }
      assert newErrors == AddIf(map[], d.firstName == "", "firstName", FirstNameRequired);
      if d.lastName == "" {
        newErrors := newErrors["lastName" := LastNameRequired];
      }
      if d.phoneNumber == "" {
        newErrors := newErrors["phoneNumber" := PhoneRequired];
      }
      assert newErrors == NameErrors(d);
      if d.password == "" {
        newErrors := newErrors["password" := PasswordRequired];
      } else if !ValidatePassword(d.password) {
        newErrors := newErrors["password" := PasswordWeak];
      }
      assert newErrors == PasswordStep(NameErrors(d), d.password);
      errors := newErrors;
      ok := |newErrors| == 0;
      EmptyIffNoKeys(newErrors);
    }

    /** `handleSubmit`: a valid form shows the success toast and signs the user
        in (the sign-up itself is mocked); an invalid one only shows its errors. */
    method HandleSubmit(ctx: AppContext) returns (signedIn: bool, toast: Toast)
      modifies this, ctx
      ensures errors == RegisterErrors(old(formData)) && formData == old(formData)
      ensures showPassword == old(showPassword)
      ensures signedIn <==> RegisterErrors(old(formData)) == map[]
      ensures signedIn ==> toast == SuccessToast(AccountCreated) && ctx.State() == SignIn(old(ctx.State()))
      ensures !signedIn ==> toast == NoToast && ctx.State() == old(ctx.State())
    {
      toast := NoToast;
      signedIn := Validate();
      if signedIn {
        toast := SuccessToast(AccountCreated);
        ctx.Login();
      }
    }
  }
}
