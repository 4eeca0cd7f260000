/*
 * The registration form (myreact-app/src/components/Register.jsx): nine
 * fields, each with a rule given by a length bound or a regular expression,
 * checked all at once before submitting and one at a time as the user types.
 */
module Register {
  import opened Text

  // ---------------------------------------------------------------- character classes and languages

  predicate AsciiLetter(c: char) { 'A' <= c <= 'Z' || 'a' <= c <= 'z' }

  /** `[a-zA-Z0-9._%+-]`, the characters before the '@'. */
  predicate LocalChar(c: char)
  {
    AsciiLetter(c) || IsDigit(c) || c == '.' || c == '_' || c == '%' || c == '+' || c == '-'
  }

  /** `[a-zA-Z0-9.-]`, the characters of the domain before its last label. */
  predicate DomainChar(c: char)
  {
    AsciiLetter(c) || IsDigit(c) || c == '.' || c == '-'
  }

  /** `/^[A-Za-z\s]+$/`: letters and whitespace, at least one character. */
  predicate NamePattern(s: string)
  {
    |s| >= 1 && forall i :: 0 <= i < |s| ==> AsciiLetter(s[i]) || IsJsSpace(s[i])
  }

  /** `/^[6-9]\d{9}$/`: ten digits, the first of them 6 to 9. */
  predicate PhonePattern(s: string)
  {
    |s| == 10 && '6' <= s[0] <= '9' && AllDigits(s)
  }

  /** `/^\d+$/`: one or more digits. */
  predicate NumberPattern(s: string)
  {
    |s| >= 1 && AllDigits(s)
  }

  /**
   * One way `/^[a-zA-Z0-9._%+-]+@[a-zA-Z0-9.-]+\.[a-zA-Z]{2,}$/` matches `s`:
   * the '@' at `at`, the dot before the final label at `dot`.
   */
  predicate EmailSplit(s: string, at: int, dot: int)
  {
    1 <= at && at + 1 < dot && dot + 3 <= |s| && s[at] == '@' && s[dot] == '.' &&
    (forall i :: 0 <= i < at ==> LocalChar(s[i])) &&
    (forall i :: at < i < dot ==> DomainChar(s[i])) &&
    (forall i :: dot < i < |s| ==> AsciiLetter(s[i]))
  }

  /** The e-mail regular expression matches `s`. */
  predicate EmailPattern(s: string)
  {
    exists at, dot | 0 <= at < |s| && 0 <= dot < |s| :: EmailSplit(s, at, dot)
  }

  /**
   * The e-mail pattern matches in one way only: the '@' is the only one in
   * the address and the dot is the last one, so the final label is the
   * letters after the last dot.
   */
  lemma EmailSplitUnique(s: string, at: int, dot: int, at': int, dot': int)
    requires EmailSplit(s, at, dot) && EmailSplit(s, at', dot')
    ensures at == at' && dot == dot'
  {
  }

  // ---------------------------------------------------------------- fields and their rules

  datatype Field =
    | Username | FullName | Email | PhoneNumber | Password | ConfirmPassword
    | MonthlyIncome | SavingsGoal | DefaultBudget

  const AllFields: seq<Field> :=
    [Username, FullName, Email, PhoneNumber, Password, ConfirmPassword, MonthlyIncome, SavingsGoal, DefaultBudget]

  /** The form's text inputs, all starting empty. */
  datatype RegisterForm = RegisterForm(
    username: string, fullName: string, email: string, phoneNumber: string, password: string,
    confirmPassword: string, monthlyIncome: string, savingsGoal: string, defaultBudget: string)

  function Value(form: RegisterForm, f: Field): string
  {
    match f
    case Username => form.username
    case FullName => form.fullName
    case Email => form.email
    case PhoneNumber => form.phoneNumber
    case Password => form.password
    case ConfirmPassword => form.confirmPassword
    case MonthlyIncome => form.monthlyIncome
    case SavingsGoal => form.savingsGoal
    case DefaultBudget => form.defaultBudget
  }

  /** `{ ...prev, [name]: value }`. */
  function WithValue(form: RegisterForm, f: Field, v: string): (r: RegisterForm)
    ensures Value(r, f) == v
    ensures forall g :: g != f ==> Value(r, g) == Value(form, g)
  {
    match f
    case Username => form.(username := v)
    case FullName => form.(fullName := v)
    case Email => form.(email := v)
    case PhoneNumber => form.(phoneNumber := v)
    case Password => form.(password := v)
    case ConfirmPassword => form.(confirmPassword := v)
    case MonthlyIncome => form.(monthlyIncome := v)
    case SavingsGoal => form.(savingsGoal := v)
    case DefaultBudget => form.(defaultBudget := v)
  }

  /**
   * The rule of each field, given the password it is confirmed against:
   * lengths count characters, the savings goal may stay empty, the other
   * numbers may not.
   */
  predicate FieldOk(f: Field, value: string, password: string)
  {
    match f
    case Username => |value| >= 6
    case FullName => NamePattern(value)
    case Email => EmailPattern(value)
    case PhoneNumber => PhonePattern(value)
    case Password => |value| >= 8
    case ConfirmPassword => value == password
    case MonthlyIncome => NumberPattern(value)
    case SavingsGoal => value == "" || NumberPattern(value)
    case DefaultBudget => NumberPattern(value)
  }

  function Message(f: Field): (m: string)
    ensures m != ""
  {
    match f
    case Username => "Username must be at least 6 characters."
    case FullName => "Full Name should only contain letters."
    case Email => "Please enter a valid email address."
    case PhoneNumber => "Phone number must be 10 digits, starting with 6-9."
    case Password => "Password must be at least 8 characters."
    case ConfirmPassword => "Passwords must match."
    case MonthlyIncome => "Monthly Income must be a valid number."
    case SavingsGoal => "Savings Goal must be a valid number."
    case DefaultBudget => "Default Budget must be a valid number."
  }

  /** The error text of one field: empty when its rule holds, its message otherwise. */
  function FieldError(f: Field, value: string, password: string): (e: string)
    ensures e == "" <==> FieldOk(f, value, password)
    ensures e != "" ==> e == Message(f)
  {
    if FieldOk(f, value, password) then "" else Message(f)
  }

  /** Every rule holds for the form. */
  predicate FormValid(form: RegisterForm)
  {
    forall f :: FieldOk(f, Value(form, f), form.password)
  }

  /**
   * `validateForm`: a copy of the errors object is filled in field by field, then the
   * form passes when every error is empty, which is exactly when every rule
   * holds.
   */
  method ValidateForm(form: RegisterForm, errors: map<Field, string>) returns (newErrors: map<Field, string>, ok: bool)
    ensures forall f :: f in newErrors && newErrors[f] == FieldError(f, Value(form, f), form.password)
    ensures forall k :: k in newErrors <==> k in errors || k in AllFields
    ensures ok <==> FormValid(form)
  {
    newErrors := errors;
    newErrors := newErrors[Username := FieldError(Username, form.username, form.password)];
    newErrors := newErrors[FullName := FieldError(FullName, form.fullName, form.password)];
    newErrors := newErrors[Password := FieldError(Password, form.password, form.password)];
    newErrors := newErrors[ConfirmPassword := FieldError(ConfirmPassword, form.confirmPassword, form.password)];
    newErrors := newErrors[Email := FieldError(Email, form.email, form.password)];
    newErrors := newErrors[PhoneNumber := FieldError(PhoneNumber, form.phoneNumber, form.password)];
    newErrors := newErrors[MonthlyIncome := FieldError(MonthlyIncome, form.monthlyIncome, form.password)];
    newErrors := newErrors[SavingsGoal := FieldError(SavingsGoal, form.savingsGoal, form.password)];
    newErrors := newErrors[DefaultBudget := FieldError(DefaultBudget, form.defaultBudget, form.password)];
    forall f ensures f in newErrors && newErrors[f] == FieldError(f, Value(form, f), form.password) && f in AllFields {
      match f {
        case Username =>
        case FullName =>
        case Email =>
        case PhoneNumber =>
        case Password =>
        case ConfirmPassword =>
        case MonthlyIncome =>
        case SavingsGoal =>
        case DefaultBudget =>
      }
    }
    ok := forall f | f in newErrors :: newErrors[f] == "";
  }

  /**
   * `handleChange` for field `f`: the value is stored and only that field's
   * error is recomputed, against the password the form held before the
   * change.
   */
  function Change(form: RegisterForm, errors: map<Field, string>, f: Field, value: string)
    : (r: (RegisterForm, map<Field, string>))
    ensures r.0 == WithValue(form, f, value)
    ensures r.1 == errors[f := FieldError(f, value, form.password)]
  {
    (WithValue(form, f, value), errors[f := FieldError(f, value, form.password)])
  }

  /**
   * The error shown as the user types agrees with the one a submit would
   * show for the field just changed; the other fields keep their errors, so
   * changing the password leaves a stale "Passwords must match." in place.
   */
  lemma LiveErrorAgreesWithSubmit(form: RegisterForm, errors: map<Field, string>, f: Field, value: string)
    ensures var (form', errors') := Change(form, errors, f, value);
      errors'[f] == FieldError(f, Value(form', f), form'.password) &&
      (forall g :: g != f && g in errors ==> g in errors' && errors'[g] == errors[g])
  {
    var form' := WithValue(form, f, value);
    if f != Password {
      assert form'.password == form.password;
    }
  }

  /** The empty form fails, the savings goal being the only field that may stay empty. */
  lemma EmptyFormInvalid()
    ensures !FormValid(RegisterForm("", "", "", "", "", "", "", "", ""))
    ensures FieldOk(SavingsGoal, "", "")
  {
    var form := RegisterForm("", "", "", "", "", "", "", "", "");
    assert !FieldOk(Username, Value(form, Username), form.password);
  }
}
