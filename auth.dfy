/**
 * The sign-in / sign-up page (Authentication/AuthPage.jsx): the Gmail and
 * Indian-mobile validators, the per-field error map built by `validateForm`,
 * and the form state the handlers update.
 */
module Auth {
  import opened Wrappers
  import Text
  import opened ErrorMap

  datatype Field = Name | Email | Mobile | Password

  datatype FormData = FormData(name: string, email: string, mobile: string, password: string)

  const EmptyForm := FormData("", "", "", "")

  function Get(f: FormData, field: Field): string {
    match field
    case Name => f.name
    case Email => f.email
    case Mobile => f.mobile
    case Password => f.password
  }

  /** `{ ...formData, [name]: value }`. */
  function Set(f: FormData, field: Field, value: string): (r: FormData)
    ensures Get(r, field) == value
    ensures forall g | g != field :: Get(r, g) == Get(f, g)
  {
    match field
    case Name => f.(name := value)
    case Email => f.(email := value)
    case Mobile => f.(mobile := value)
    case Password => f.(password := value)
  }

  const GmailSuffix := "@gmail.com"

  const EmailOrMobileRequired := "Email or mobile is required"
  const EmailOrMobileInvalid := "Enter valid email or 10-digit mobile number"
  const GmailInvalid := "Enter a valid Gmail address"
  const PasswordRequired := "Password is required"
  const NameRequired := "Name is required"
  const MobileRequired := "Mobile number is required"
  const MobileInvalid := "Enter a valid 10-digit mobile number starting with 6-9"
  const EmailRequired := "Email is required"
  const PasswordTooShort := "Password must be at least 6 characters"
  const LoginSuccessful := "Login Successful \U{1F389}"
  const AccountCreated := "Account Created Successfully \U{1F389}"

  /** The modal's text after a successful submission in each mode. */
  function SuccessMessage(isSignIn: bool): string {
    if isSignIn then LoginSuccessful else AccountCreated
  }

  /** The character class `[a-zA-Z0-9._%+-]`. */
  predicate IsGmailLocalChar(c: char) {
    Text.IsLetter(c) || Text.IsDigit(c) || c == '.' || c == '_' || c == '%' || c == '+' || c == '-'
  }

  /** `/^[a-zA-Z0-9._%+-]+@gmail\.com$/`. */
  predicate ValidateEmail(s: string) {
    |s| > |GmailSuffix|
    && s[|s| - |GmailSuffix|..] == GmailSuffix
    && forall i | 0 <= i < |s| - |GmailSuffix| :: IsGmailLocalChar(s[i])
  }

  /** `/^[6-9]\d{9}$/`. */
  predicate ValidateMobile(s: string) {
    |s| == 10 && '6' <= s[0] <= '9' && forall i | 0 <= i < |s| :: Text.IsDigit(s[i])
  }

  /** A valid Gmail address contains the suffix the sign-in form looks for. */
  lemma ValidEmailContainsSuffix(s: string)
    requires ValidateEmail(s)
    ensures Text.Contains(s, GmailSuffix)
  {
    assert Text.OccursAt(s, GmailSuffix, |s| - |GmailSuffix|);
  }

  /** A mobile number is all digits, so it never contains the Gmail suffix. */
  lemma MobileHasNoSuffix(s: string)
    requires ValidateMobile(s)
    ensures !Text.Contains(s, GmailSuffix)
  {
    if Text.Contains(s, GmailSuffix) {
      Text.ContainsChar(s, GmailSuffix, 0);
      assert false;
    }
  }

  /** The sign-in identifier rules: required, then email-or-mobile, then a well-formed Gmail address. */
  function SignInIdentifierError(email: string): Option<string> {
    if email == "" then Some(EmailOrMobileRequired)
    else
      var isEmail := Text.Contains(email, GmailSuffix);
      var isMobile := ValidateMobile(email);
      if !(isEmail || isMobile) then Some(EmailOrMobileInvalid)
      else if isEmail && !ValidateEmail(email) then Some(GmailInvalid)
      else None
  }

  /** Both forms only require some password; sign-up also asks for six characters. */
  function PasswordError(password: string, checkLength: bool): Option<string> {
    if password == "" then Some(PasswordRequired)
    else if checkLength && |password| < 6 then Some(PasswordTooShort)
    else None
  }

  function NameError(name: string): Option<string> {
    if Text.Trim(name) == "" then Some(NameRequired) else None
  }

  function MobileError(mobile: string): Option<string> {
    if mobile == "" then Some(MobileRequired)
    else if !ValidateMobile(mobile) then Some(MobileInvalid)
    else None
  }

  function SignUpEmailError(email: string): Option<string> {
    if email == "" then Some(EmailRequired)
    else if !ValidateEmail(email) then Some(GmailInvalid)
    else None
  }

  /** The message `validateForm` records for one field, if any. */
  function FieldError(isSignIn: bool, f: FormData, field: Field): Option<string> {
    match field
    case Name => if isSignIn then None else NameError(f.name)
    case Mobile => if isSignIn then None else MobileError(f.mobile)
    case Email => if isSignIn then SignInIdentifierError(f.email) else SignUpEmailError(f.email)
    case Password => PasswordError(f.password, !isSignIn)
  }

  function Pick(g: Field, name: Option<string>, mobile: Option<string>, email: Option<string>, password: Option<string>): Option<string> {
    match g
    case Name => name
    case Mobile => mobile
    case Email => email
    case Password => password
  }

  /** The four optional messages, recorded in the order `validateForm` visits the fields. */
  function Assemble(name: Option<string>, mobile: Option<string>, email: Option<string>, password: Option<string>): map<Field, string> {
    Record(Record(Record(Record(map[], Name, name), Mobile, mobile), Email, email), Password, password)
  }

  lemma AssembleLookup(name: Option<string>, mobile: Option<string>, email: Option<string>, password: Option<string>)
    ensures forall g :: Lookup(Assemble(name, mobile, email, password), g) == Pick(g, name, mobile, email, password)
  {
    var m0 := Record(map[], Name, name);
    var m1 := Record(m0, Mobile, mobile);
    var m2 := Record(m1, Email, email);
    forall g ensures Lookup(Assemble(name, mobile, email, password), g) == Pick(g, name, mobile, email, password) {
      RecordLookup(map[], Name, name, g);
      RecordLookup(m0, Mobile, mobile, g);
      RecordLookup(m1, Email, email, g);
      RecordLookup(m2, Password, password, g);
    }
  }

  lemma PickIsFieldError(isSignIn: bool, f: FormData, g: Field)
    ensures Pick(g, FieldError(isSignIn, f, Name), FieldError(isSignIn, f, Mobile),
                 FieldError(isSignIn, f, Email), FieldError(isSignIn, f, Password))
            == FieldError(isSignIn, f, g)
  {
  }

  /** The whole error map, assembled from the four per-field messages. */
  function FormErrors(isSignIn: bool, f: FormData): map<Field, string> {
    Assemble(FieldError(isSignIn, f, Name), FieldError(isSignIn, f, Mobile),
             FieldError(isSignIn, f, Email), FieldError(isSignIn, f, Password))
  }

  /**
   * A field has an entry exactly when it fails, and the entry is that
   * field's one message.
   */
  lemma FormErrorsPerField(isSignIn: bool, f: FormData)
    ensures forall g :: Lookup(FormErrors(isSignIn, f), g) == FieldError(isSignIn, f, g)
  {
    AssembleLookup(FieldError(isSignIn, f, Name), FieldError(isSignIn, f, Mobile),
                   FieldError(isSignIn, f, Email), FieldError(isSignIn, f, Password));
    forall g ensures Lookup(FormErrors(isSignIn, f), g) == FieldError(isSignIn, f, g) {
      PickIsFieldError(isSignIn, f, g);
    }
  }

  /** The map is empty exactly when every field passes. */
  lemma NoErrorsIffEveryFieldPasses(isSignIn: bool, f: FormData)
    ensures FormErrors(isSignIn, f) == map[] <==>
            && FieldError(isSignIn, f, Name).None?
            && FieldError(isSignIn, f, Mobile).None?
            && FieldError(isSignIn, f, Email).None?
            && FieldError(isSignIn, f, Password).None?
  {
    var m := FormErrors(isSignIn, f);
    FormErrorsPerField(isSignIn, f);
    if m != map[] {
      var g :| g in m;
      assert Lookup(m, g).Some?;
    } else {
      assert Lookup(m, Name).None? && Lookup(m, Mobile).None?;
      assert Lookup(m, Email).None? && Lookup(m, Password).None?;
    }
  }

  /** Sign-in only ever reports the identifier and the password. */
  lemma SignInReportsOnlyIdentifierAndPassword(f: FormData)
    ensures FormErrors(true, f).Keys <= {Email, Password}
  {
    FormErrorsPerField(true, f);
    forall g | g in FormErrors(true, f) ensures g == Email || g == Password {
      assert Lookup(FormErrors(true, f), g).Some?;
    }
  }

  /**
   * Sign-in succeeds exactly when the identifier is a valid Gmail address or
   * a valid mobile number and some password is given, of any length.
   */
  lemma SignInAcceptsExactly(f: FormData)
    ensures FormErrors(true, f) == map[] <==>
            (ValidateEmail(f.email) || ValidateMobile(f.email)) && f.password != ""
  {
    if ValidateEmail(f.email) {
      ValidEmailContainsSuffix(f.email);
    }
    if ValidateMobile(f.email) {
      MobileHasNoSuffix(f.email);
    }
    NoErrorsIffEveryFieldPasses(true, f);
  }

  /**
   * Sign-up succeeds exactly when the name is not blank, the mobile number
   * and the Gmail address are valid and the password has at least six characters.
   */
  lemma SignUpAcceptsExactly(f: FormData)
    ensures FormErrors(false, f) == map[] <==>
            && !Text.IsBlank(f.name)
            && ValidateMobile(f.mobile)
            && ValidateEmail(f.email)
            && |f.password| >= 6
  {
    NoErrorsIffEveryFieldPasses(false, f);
    SignUpFieldRules(f);
  }

  /** Each sign-up rule, read as the condition under which it reports nothing. */
  lemma SignUpFieldRules(f: FormData)
    ensures FieldError(false, f, Name).None? <==> !Text.IsBlank(f.name)
    ensures FieldError(false, f, Mobile).None? <==> ValidateMobile(f.mobile)
    ensures FieldError(false, f, Email).None? <==> ValidateEmail(f.email)
    ensures FieldError(false, f, Password).None? <==> |f.password| >= 6
  {
    Text.TrimEmptyIffBlank(f.name);
  }

  lemma SignInErrorsAssembled(f: FormData)
    ensures FormErrors(true, f)
            == Record(Record(map[], Email, SignInIdentifierError(f.email)), Password, PasswordError(f.password, false))
  {
    assert Record(map[], Name, None) == map[];
  }

  lemma SignUpErrorsAssembled(f: FormData)
    ensures FormErrors(false, f)
            == Record(Record(Record(Record(map[], Name, NameError(f.name)), Mobile, MobileError(f.mobile)),
                             Email, SignUpEmailError(f.email)), Password, PasswordError(f.password, true))
  {
    var name, mobile, email, password := FieldError(false, f, Name), FieldError(false, f, Mobile),
                                         FieldError(false, f, Email), FieldError(false, f, Password);
    assert name == NameError(f.name);
    assert mobile == MobileError(f.mobile);
    assert email == SignUpEmailError(f.email);
    assert password == PasswordError(f.password, true);
    assert FormErrors(false, f) == Assemble(name, mobile, email, password);
  }

  /** The sign-in half of `validateForm`: the identifier, then the password. */
  method CollectSignInErrors(f: FormData) returns (newErrors: map<Field, string>)
    ensures newErrors == FormErrors(true, f)
  {
    newErrors := map[];
    if f.email == "" {
      newErrors := newErrors[Email := EmailOrMobileRequired];
    } else {
      var isEmail := Text.Contains(f.email, GmailSuffix);
      var isMobile := ValidateMobile(f.email);
      if !(isEmail || isMobile) {
        newErrors := newErrors[Email := EmailOrMobileInvalid];
      } else if isEmail && !ValidateEmail(f.email) {
        newErrors := newErrors[Email := GmailInvalid];
      }
    }
    if f.password == "" {
      newErrors := newErrors[Password := PasswordRequired];
    }
    SignInErrorsAssembled(f);
  }

  /** The sign-up half of `validateForm`: name, mobile, email, password. */
  method CollectSignUpErrors(f: FormData) returns (newErrors: map<Field, string>)
    ensures newErrors == FormErrors(false, f)
  {
    newErrors := map[];
    if Text.Trim(f.name) == "" {
      newErrors := newErrors[Name := NameRequired];
    }
    if f.mobile == "" {
      newErrors := newErrors[Mobile := MobileRequired];
    } else if !ValidateMobile(f.mobile) {
      newErrors := newErrors[Mobile := MobileInvalid];
    }
    if f.email == "" {
      newErrors := newErrors[Email := EmailRequired];
    } else if !ValidateEmail(f.email) {
      newErrors := newErrors[Email := GmailInvalid];
    }
    if f.password == "" {
      newErrors := newErrors[Password := PasswordRequired];
    } else if |f.password| < 6 {
      newErrors := newErrors[Password := PasswordTooShort];
    }
    SignUpErrorsAssembled(f);
  }

  /** `validateForm` on a given mode and form: the error map and whether it is empty. */
  method Validate(isSignIn: bool, f: FormData) returns (ok: bool, newErrors: map<Field, string>)
    ensures newErrors == FormErrors(isSignIn, f)
    ensures ok <==> newErrors == map[]
  {
    if isSignIn {
      newErrors := CollectSignInErrors(f);
    } else {
      newErrors := CollectSignUpErrors(f);
    }
    ok := |newErrors| == 0;
    EmptyIffNoKeys(newErrors);
  }

  /** The form as the page holds it. */
  class AuthPage {
    var isSignIn: bool
    var form: FormData
    var showModal: bool
    var modalMessage: string
    var errors: map<Field, string>
    var isAnimating: bool

    constructor ()
      ensures isSignIn && form == EmptyForm && errors == map[]
      ensures !showModal && modalMessage == "" && !isAnimating
    {
      isSignIn := true;
      form := EmptyForm;
      showModal := false;
      modalMessage := "";
      errors := map[];
      isAnimating := false;
    }

    /**
     * Switches between sign-in and sign-up, with the animation timer run to
     * its end, and clears all four fields and every error.
     */
    method ToggleAuthMode()
      modifies this`isSignIn, this`isAnimating, this`form, this`errors
      ensures isSignIn == !old(isSignIn) && !isAnimating
      ensures form == EmptyForm && errors == map[]
    {
      isAnimating := true;
      // the timer
      isSignIn := !isSignIn;
      isAnimating := false;
      form := EmptyForm;
      errors := map[];
    }

    /** Typing into one field: only that field changes, and only its error is blanked. */
    method HandleChange(field: Field, value: string)
      modifies this`form, this`errors
      ensures Get(form, field) == value
      ensures forall g | g != field :: Get(form, g) == Get(old(form), g)
      ensures errors.Keys == old(errors).Keys
      ensures field in errors ==> errors[field] == ""
      ensures forall g | g in errors && g != field :: errors[g] == old(errors)[g]
    {
      form := Set(form, field, value);
      if field in errors && errors[field] != "" {
        errors := errors[field := ""];
      }
    }

    /** Builds the error map for the current mode, stores it, and reports whether it is empty. */
    method ValidateForm() returns (ok: bool)
      modifies this`errors
      ensures errors == FormErrors(isSignIn, form)
      ensures ok <==> errors == map[]
    {
      var newErrors;
      ok, newErrors := Validate(isSignIn, form);
      errors := newErrors;
    }

    /** On a valid form: the success message for the mode, the modal, and an empty form. */
    method HandleSubmit()
      modifies this`errors, this`form, this`showModal, this`modalMessage
      ensures errors == FormErrors(isSignIn, old(form))
      ensures errors == map[] ==>
        showModal && form == EmptyForm && modalMessage == SuccessMessage(isSignIn)
      ensures errors != map[] ==>
        form == old(form) && showModal == old(showModal) && modalMessage == old(modalMessage)
    {
      ghost var f0 := form;
      var ok := ValidateForm();
      ghost var e0 := errors;
      assert e0 == FormErrors(isSignIn, f0);
      if ok {
        Succeed();
      }
      assert errors == e0;
    }

    /** The success branch of a submission: the mode's message in the modal, and an empty form. */
    method Succeed()
      modifies this`form, this`showModal, this`modalMessage
      ensures showModal && form == EmptyForm && modalMessage == SuccessMessage(isSignIn)
    {
      modalMessage := SuccessMessage(isSignIn);
      showModal := true;
      form := EmptyForm;
    }

    method CloseModal()
      modifies this`showModal
      ensures !showModal
    {
      showModal := false;
    }
  }
}
