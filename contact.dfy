/**
 * The contact form (Pages/Contact/ContactForm.jsx): required fields, a
 * case-insensitive `local@domain.tld` email test, a phone number whose
 * validity is decided by an external parser, and the submit/reset cycle.
 */
module Contact {
  import opened Wrappers
  import Text
  import opened ErrorMap
  import Auth

  datatype Field = Name | Email | PhoneNumber | Query

  datatype ContactData = ContactData(name: string, email: string, countryCode: string, phoneNumber: string, query: string)

  /** The form as first rendered. */
  const InitialForm := ContactData("", "", "+91", "", "")
  /** What `resetForm` writes: the country code gains a trailing space. */
  const ClearedForm := ContactData("", "", "+91 ", "", "")

  const CountryCodes: seq<string> := ["+91", "+1", "+44", "+61", "+971", "+65"]

  const NameRequired := "Name is required"
  const EmailRequired := "Email is required"
  const EmailInvalid := "Invalid email address"
  const PhoneRequired := "Phone number is required"
  const PhoneInvalid := "Please enter a valid phone number"
  const QueryRequired := "Please enter your query"

  function Get(f: ContactData, field: Field): string {
    match field
    case Name => f.name
    case Email => f.email
    case PhoneNumber => f.phoneNumber
    case Query => f.query
  }

  /** `{ ...prev, [name]: value }` for the four text inputs. */
  function Set(f: ContactData, field: Field, value: string): (r: ContactData)
    ensures Get(r, field) == value && r.countryCode == f.countryCode
    ensures forall g | g != field :: Get(r, g) == Get(f, g)
  {
    match field
    case Name => f.(name := value)
    case Email => f.(email := value)
    case PhoneNumber => f.(phoneNumber := value)
    case Query => f.(query := value)
  }

  /** The resets differ from the first render only in the country code. */
  lemma ResetKeepsTrailingSpace()
    ensures ClearedForm != InitialForm
    ensures ClearedForm.(countryCode := InitialForm.countryCode) == InitialForm
    ensures ClearedForm.countryCode == InitialForm.countryCode + " "
    ensures ClearedForm.countryCode !in CountryCodes
  {
    assert ClearedForm.countryCode[3] == ' ';
    assert |ClearedForm.countryCode| == 4;
  }

  /** `[A-Z0-9._%+-]` under the `i` flag. */
  predicate IsLocalChar(c: char) {
    Text.IsLetter(c) || Text.IsDigit(c) || c == '.' || c == '_' || c == '%' || c == '+' || c == '-'
  }

  /** `[A-Z0-9.-]` under the `i` flag. */
  predicate IsDomainChar(c: char) {
    Text.IsLetter(c) || Text.IsDigit(c) || c == '.' || c == '-'
  }

  /**
   * s splits as local part, '@' at index `at`, domain, '.' at index `dot`
   * and a top-level domain of at least two letters.
   */
  predicate EmailShape(s: string, at: int, dot: int) {
    && 0 < at && at + 1 < dot && dot + 2 < |s|
    && s[at] == '@' && s[dot] == '.'
    && (forall i | 0 <= i < at :: IsLocalChar(s[i]))
    && (forall i | at < i < dot :: IsDomainChar(s[i]))
    && (forall i | dot < i < |s| :: Text.IsLetter(s[i]))
  }

  /** `/^[A-Z0-9._%+-]+@[A-Z0-9.-]+\.[A-Z]{2,}$/i`. */
  predicate ContactEmailValid(s: string) {
    exists at, dot | 0 < at < dot < |s| :: EmailShape(s, at, dot)
  }

  /** Every Gmail address the sign-up form accepts is accepted here too. */
  lemma GmailAddressIsContactEmail(s: string)
    requires Auth.ValidateEmail(s)
    ensures ContactEmailValid(s)
  {
    var n := |s|;
    var suffix := s[n - 10..];
    assert suffix == "@gmail.com";
    assert s[n - 10] == suffix[0] && s[n - 4] == suffix[6];
    forall i | n - 10 < i < n - 4 ensures IsDomainChar(s[i]) {
      assert s[i] == suffix[i - (n - 10)];
    }
    forall i | n - 4 < i < n ensures Text.IsLetter(s[i]) {
      assert s[i] == suffix[i - (n - 10)];
    }
    assert EmailShape(s, n - 10, n - 4);
  }

  /**
   * An accepted address holds no whitespace at all, so the untrimmed value
   * the test sees is rejected when it carries surrounding spaces.
   */
  lemma ContactEmailHasNoWhitespace(s: string)
    requires ContactEmailValid(s)
    ensures forall i | 0 <= i < |s| :: !Text.IsWhitespace(s[i])
    ensures !Text.IsBlank(s)
  {
    var at, dot :| 0 < at < dot < |s| && EmailShape(s, at, dot);
    assert forall i | 0 <= i < at :: IsLocalChar(s[i]);
    assert forall i | at < i < dot :: IsDomainChar(s[i]);
    assert forall i | dot < i < |s| :: Text.IsLetter(s[i]);
    forall i | 0 <= i < |s| ensures !Text.IsWhitespace(s[i]) {
      if i < at {
        assert IsLocalChar(s[i]);
      } else if i == at || i == dot {
      } else if i < dot {
        assert IsDomainChar(s[i]);
      } else {
        assert Text.IsLetter(s[i]);
      }
    }
    assert !Text.IsWhitespace(s[0]);
  }

  /** `!value.trim()`: the value is empty or only whitespace. */
  function BlankError(value: string, message: string): Option<string> {
    if Text.Trim(value) == "" then Some(message) else None
  }

  function EmailError(email: string): Option<string> {
    if Text.Trim(email) == "" then Some(EmailRequired)
    else if !ContactEmailValid(email) then Some(EmailInvalid)
    else None
  }

  /**
   * The phone rule; `phoneValid` stands for parsing the country code followed
   * by the number and asking the result whether it is valid, with a parse
   * failure or an exception counting as invalid.
   */
  function PhoneError(f: ContactData, phoneValid: string -> bool): Option<string> {
    if Text.Trim(f.phoneNumber) == "" then Some(PhoneRequired)
    else if !phoneValid(f.countryCode + f.phoneNumber) then Some(PhoneInvalid)
    else None
  }

  function FieldError(f: ContactData, phoneValid: string -> bool, field: Field): Option<string> {
    match field
    case Name => BlankError(f.name, NameRequired)
    case Email => EmailError(f.email)
    case PhoneNumber => PhoneError(f, phoneValid)
    case Query => BlankError(f.query, QueryRequired)
  }

  function Pick(g: Field, name: Option<string>, email: Option<string>, phone: Option<string>, query: Option<string>): Option<string> {
    match g
    case Name => name
    case Email => email
    case PhoneNumber => phone
    case Query => query
  }

  /** The four optional messages, recorded in the order `validateForm` visits the fields. */
  function Assemble(name: Option<string>, email: Option<string>, phone: Option<string>, query: Option<string>): map<Field, string> {
    Record(Record(Record(Record(map[], Name, name), Email, email), PhoneNumber, phone), Query, query)
  }

  lemma AssembleLookup(name: Option<string>, email: Option<string>, phone: Option<string>, query: Option<string>)
    ensures forall g :: Lookup(Assemble(name, email, phone, query), g) == Pick(g, name, email, phone, query)
  {
    var m0 := Record(map[], Name, name);
    var m1 := Record(m0, Email, email);
    var m2 := Record(m1, PhoneNumber, phone);
    forall g ensures Lookup(Assemble(name, email, phone, query), g) == Pick(g, name, email, phone, query) {
      RecordLookup(map[], Name, name, g);
      RecordLookup(m0, Email, email, g);
      RecordLookup(m1, PhoneNumber, phone, g);
      RecordLookup(m2, Query, query, g);
    }
  }

  /** The error map `validateForm` builds. */
  function FormErrors(f: ContactData, phoneValid: string -> bool): map<Field, string> {
    Assemble(FieldError(f, phoneValid, Name), FieldError(f, phoneValid, Email),
             FieldError(f, phoneValid, PhoneNumber), FieldError(f, phoneValid, Query))
  }

  lemma PickIsFieldError(f: ContactData, phoneValid: string -> bool, g: Field)
    ensures Pick(g, FieldError(f, phoneValid, Name), FieldError(f, phoneValid, Email),
                 FieldError(f, phoneValid, PhoneNumber), FieldError(f, phoneValid, Query))
            == FieldError(f, phoneValid, g)
  {
  }

  /** A field has an entry exactly when it fails, and the entry is its one message. */
  lemma FormErrorsPerField(f: ContactData, phoneValid: string -> bool)
    ensures forall g :: Lookup(FormErrors(f, phoneValid), g) == FieldError(f, phoneValid, g)
  {
    AssembleLookup(FieldError(f, phoneValid, Name), FieldError(f, phoneValid, Email),
                   FieldError(f, phoneValid, PhoneNumber), FieldError(f, phoneValid, Query));
    forall g ensures Lookup(FormErrors(f, phoneValid), g) == FieldError(f, phoneValid, g) {
      PickIsFieldError(f, phoneValid, g);
    }
  }

  /**
   * The form is accepted exactly when name and query are not blank, the
   * email has the required shape, and the phone number is not blank and
   * valid for the chosen country code.
   */
  lemma AcceptsExactly(f: ContactData, phoneValid: string -> bool)
    ensures FormErrors(f, phoneValid) == map[] <==>
            && !Text.IsBlank(f.name)
            && ContactEmailValid(f.email)
            && !Text.IsBlank(f.phoneNumber) && phoneValid(f.countryCode + f.phoneNumber)
            && !Text.IsBlank(f.query)
  {
    var m := FormErrors(f, phoneValid);
    FormErrorsPerField(f, phoneValid);
    Text.TrimEmptyIffBlank(f.name);
    Text.TrimEmptyIffBlank(f.email);
    Text.TrimEmptyIffBlank(f.phoneNumber);
    Text.TrimEmptyIffBlank(f.query);
    if ContactEmailValid(f.email) {
      ContactEmailHasNoWhitespace(f.email);
    }
    if m != map[] {
      var g :| g in m;
      assert Lookup(m, g).Some?;
    } else {
      assert Lookup(m, Name).None? && Lookup(m, Email).None?;
      assert Lookup(m, PhoneNumber).None? && Lookup(m, Query).None?;
    }
  }

  lemma ErrorsAssembled(f: ContactData, phoneValid: string -> bool)
    ensures FormErrors(f, phoneValid)
            == Record(Record(Record(Record(map[], Name, BlankError(f.name, NameRequired)), Email, EmailError(f.email)),
                             PhoneNumber, PhoneError(f, phoneValid)), Query, BlankError(f.query, QueryRequired))
  {
    assert FieldError(f, phoneValid, Name) == BlankError(f.name, NameRequired);
    assert FieldError(f, phoneValid, Email) == EmailError(f.email);
    assert FieldError(f, phoneValid, PhoneNumber) == PhoneError(f, phoneValid);
    assert FieldError(f, phoneValid, Query) == BlankError(f.query, QueryRequired);
  }

  /** `validateForm` on a given form: the error map, field by field, and whether it is empty. */
  method Validate(f: ContactData, phoneValid: string -> bool) returns (ok: bool, newErrors: map<Field, string>)
    ensures newErrors == FormErrors(f, phoneValid)
    ensures ok <==> newErrors == map[]
  {
    newErrors := map[];
    if Text.Trim(f.name) == "" {
      newErrors := newErrors[Name := NameRequired];
    }
    if Text.Trim(f.email) == "" {
      newErrors := newErrors[Email := EmailRequired];
    } else if !ContactEmailValid(f.email) {
      newErrors := newErrors[Email := EmailInvalid];
    }
    if Text.Trim(f.phoneNumber) == "" {
      newErrors := newErrors[PhoneNumber := PhoneRequired];
    } else if !phoneValid(f.countryCode + f.phoneNumber) {
      newErrors := newErrors[PhoneNumber := PhoneInvalid];
    }
    if Text.Trim(f.query) == "" {
      newErrors := newErrors[Query := QueryRequired];
    }
    ok := |newErrors| == 0;
    EmptyIffNoKeys(newErrors);
    ErrorsAssembled(f, phoneValid);
  }

  /** The stored error object: a message per failing field; a cleared entry holds null. */
  function Stored(m: map<Field, string>): (r: map<Field, Option<string>>)
    ensures r.Keys == m.Keys
    ensures forall g | g in m :: r[g] == Some(m[g])
  {
    map g | g in m :: Some(m[g])
  }

  /** The stored object is empty exactly when the error map is. */
  lemma StoredEmptyIffEmpty(m: map<Field, string>)
    ensures Stored(m) == map[] <==> m == map[]
  {
    if m == map[] {
      assert Stored(m).Keys == {};
    }
  }

  class ContactForm {
    var loading: bool
    var showSuccessModal: bool
    var formSubmitted: bool
    var form: ContactData
    var errors: map<Field, Option<string>>

    constructor ()
      ensures form == InitialForm && errors == map[]
      ensures !loading && !showSuccessModal && !formSubmitted
    {
      loading := false;
      showSuccessModal := false;
      formSubmitted := false;
      form := InitialForm;
      errors := map[];
    }

    method CloseModal()
      modifies this`showSuccessModal
      ensures !showSuccessModal
    {
      showSuccessModal := false;
    }

    /** Typing into a text input: only that field changes; a set error of that field becomes null. */
    method HandleChange(field: Field, value: string)
      modifies this`form, this`errors
      ensures Get(form, field) == value && form.countryCode == old(form).countryCode
      ensures forall g | g != field :: Get(form, g) == Get(old(form), g)
      ensures errors.Keys == old(errors).Keys
      ensures field in errors && old(errors)[field].Some? && old(errors)[field].value != "" ==> errors[field] == None
      ensures forall g | g in errors && g != field :: errors[g] == old(errors)[g]
    {
      form := Set(form, field, value);
      if field in errors && errors[field].Some? && errors[field].value != "" {
        errors := errors[field := None];
      }
    }

    method HandleCountryCodeChange(code: string)
      modifies this`form
      ensures form == old(form).(countryCode := code)
    {
      form := form.(countryCode := code);
    }

    method ValidateForm(phoneValid: string -> bool) returns (ok: bool)
      modifies this`errors
      ensures errors == Stored(FormErrors(form, phoneValid))
      ensures ok <==> FormErrors(form, phoneValid) == map[]
      ensures ok ==> errors == map[]
    {
      var newErrors;
      ok, newErrors := Validate(form, phoneValid);
      errors := Stored(newErrors);
      StoredEmptyIffEmpty(newErrors);
    }

    method ResetForm()
      modifies this`form, this`errors
      ensures form == ClearedForm && errors == map[]
    {
      form := ClearedForm;
      errors := map[];
    }

    /**
     * The request after a successful validation. `delivered` stands for the
     * service answering with success; a failure or a network error changes
     * nothing but the loading flag, which ends false either way.
     */
    method Deliver(delivered: bool)
      modifies this`errors, this`loading, this`showSuccessModal, this`formSubmitted, this`form
      ensures !loading
      ensures delivered ==> showSuccessModal && formSubmitted && form == ClearedForm && errors == map[]
      ensures !delivered ==>
        form == old(form) && errors == old(errors)
        && showSuccessModal == old(showSuccessModal) && formSubmitted == old(formSubmitted)
    {
      loading := true;
      if delivered {
        showSuccessModal := true;
        formSubmitted := true;
        ResetForm();
      }
      loading := false;
    }

    /** Submission: nothing is sent unless the form validates. */
    method HandleSubmit(phoneValid: string -> bool, delivered: bool) returns (sent: bool)
      modifies this`errors, this`loading, this`showSuccessModal, this`formSubmitted, this`form
      ensures sent <==> FormErrors(old(form), phoneValid) == map[]
      ensures !sent ==>
        errors == Stored(FormErrors(old(form), phoneValid)) && form == old(form)
        && loading == old(loading) && showSuccessModal == old(showSuccessModal)
        && formSubmitted == old(formSubmitted)
      ensures sent ==> !loading && errors == map[]
      ensures sent && delivered ==> showSuccessModal && formSubmitted && form == ClearedForm
      ensures sent && !delivered ==>
        form == old(form) && showSuccessModal == old(showSuccessModal) && formSubmitted == old(formSubmitted)
    {
      var ok := ValidateForm(phoneValid);
      if !ok {
        sent := false;
        return;
      }
      sent := true;
      Deliver(delivered);
    }

    /** The effect that runs once `formSubmitted` is set: reset again and lower the flag. */
    method OnFormSubmitted()
      modifies this`form, this`errors, this`formSubmitted
      ensures old(formSubmitted) ==> form == ClearedForm && errors == map[] && !formSubmitted
      ensures !old(formSubmitted) ==> form == old(form) && errors == old(errors) && !formSubmitted
    {
      if formSubmitted {
        ResetForm();
        formSubmitted := false;
      }
    }
  }
}
