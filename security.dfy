/**
 * The password panel of the security settings: change-password validation, the
 * strength meter, and the two state updates behind the password inputs.
 */
module Security {
  import opened JsString

  datatype PasswordField = CurrentPassword | NewPassword | ConfirmPassword

  /** `passwordData`. */
  datatype PasswordData = PasswordData(currentPassword: string, newPassword: string, confirmPassword: string)

  function Get(d: PasswordData, f: PasswordField): string {
    match f
    case CurrentPassword => d.currentPassword
    case NewPassword => d.newPassword
    case ConfirmPassword => d.confirmPassword
  }

  function Set(d: PasswordData, f: PasswordField, v: string): (r: PasswordData)
    ensures Get(r, f) == v
    ensures forall g :: g != f ==> Get(r, g) == Get(d, g)
  {
    match f
    case CurrentPassword => d.(currentPassword := v)
    case NewPassword => d.(newPassword := v)
    case ConfirmPassword => d.(confirmPassword := v)
  }

  const CurrentRequired := "Current password is required"
  const NewRequired := "New password is required"
  const TooShort := "Password must be at least 8 characters"
  const MissingClasses := "Password must contain uppercase, lowercase, and number"
  const Mismatch := "Passwords do not match"

  /** The character classes the password rules test: `[a-z]`, `[A-Z]`, `\d` and the
      punctuation class `[!@#$%^&*(),.?":{}|<>]`. */
  datatype CharClass = Lower | Upper | Digit | Special

  predicate InClass(c: char, k: CharClass) {
    match k
    case Lower => IsAsciiLower(c)
    case Upper => IsAsciiUpper(c)
    case Digit => IsAsciiDigit(c)
    case Special => c in "!@#$%^&*(),.?\":{}|<>"
  }

  /** `/[...]/.test(s)`: some character of `s` is in the class. */
  predicate Contains(s: string, k: CharClass) {
    exists i :: 0 <= i < |s| && InClass(s[i], k)
  }

  /** The lookahead `(?=.*k)` at position `p`: a character of class `k` occurs at or after
      `p` with no line terminator before it (`.` does not match one). */
  predicate AheadOnLine(s: string, p: nat, k: CharClass)
    requires p <= |s|
  {
    exists i :: p <= i < |s| && InClass(s[i], k) && forall j :: p <= j < i ==> !IsLineTerminator(s[j])
  }

  /** `/(?=.*[a-z])(?=.*[A-Z])(?=.*\d)/.test(s)`: at some position all three lookaheads succeed. */
  predicate MixedCase(s: string) {
    exists p :: 0 <= p <= |s| && AheadOnLine(s, p, Lower) && AheadOnLine(s, p, Upper) && AheadOnLine(s, p, Digit)
  }

  /** The new password passes all three of its checks. */
  predicate NewPasswordAccepted(p: string) {
    |p| >= 8 && MixedCase(p)
  }

  /** The keys of the security panel's `errors` state. */
  datatype ErrorKey = Field(field: PasswordField) | Submit | TwoFactor

  /** `validatePassword`: the error map it stores, and whether it is empty. */
  method ValidatePassword(data: PasswordData) returns (errors: map<ErrorKey, string>, ok: bool)
    ensures Field(CurrentPassword) in errors <==> data.currentPassword == ""
    ensures Field(CurrentPassword) in errors ==> errors[Field(CurrentPassword)] == CurrentRequired
    ensures Field(NewPassword) in errors <==> !NewPasswordAccepted(data.newPassword)
    ensures Field(NewPassword) in errors ==>
              errors[Field(NewPassword)] == (if data.newPassword == "" then NewRequired
                                             else if |data.newPassword| < 8 then TooShort
                                             else MissingClasses)
    ensures Field(ConfirmPassword) in errors <==> data.newPassword != data.confirmPassword
    ensures Field(ConfirmPassword) in errors ==> errors[Field(ConfirmPassword)] == Mismatch
    ensures Submit !in errors && TwoFactor !in errors
    ensures ok <==> errors == map[]
  {
    errors := map[];
    if data.currentPassword == "" {
      errors := errors[Field(CurrentPassword) := CurrentRequired];
    }
    if data.newPassword == "" {
      errors := errors[Field(NewPassword) := NewRequired];
    } else if |data.newPassword| < 8 {
      errors := errors[Field(NewPassword) := TooShort];
    } else if !MixedCase(data.newPassword) {
      errors := errors[Field(NewPassword) := MissingClasses];
    }
    if data.newPassword != data.confirmPassword {
      errors := errors[Field(ConfirmPassword) := Mismatch];
    }
    ok := |errors| == 0;
  }

  /** The strength score: one point per criterion met (length at least 8, a lower-case
      letter, an upper-case letter, a digit, a special character). */
  function Score(p: string): (n: nat)
    ensures n <= 5
  {
    (if |p| >= 8 then 1 else 0) + (if Contains(p, Lower) then 1 else 0) + (if Contains(p, Upper) then 1 else 0)
    + (if Contains(p, Digit) then 1 else 0) + (if Contains(p, Special) then 1 else 0)
  }

  datatype Level = Weak | Medium | Strong

  /** The object `getPasswordStrength` returns. */
  datatype Strength = Strength(level: Level, color: string, text: string)

  function StrengthOf(score: nat): (s: Strength)
    ensures s.level == Weak <==> score <= 2
    ensures s.level == Medium <==> score == 3
    ensures s.level == Strong <==> score >= 4
  {
    if score <= 2 then Strength(Weak, "#ef4444", "Weak")
    else if score <= 3 then Strength(Medium, "#f59e0b", "Medium")
    else Strength(Strong, "#10b981", "Strong")
  }

  /** `getPasswordStrength`: counts the criteria one by one, then picks the level. */
  method GetPasswordStrength(password: string) returns (s: Strength)
    ensures s == StrengthOf(Score(password))
  {
    var strength := 0;
    if |password| >= 8 { strength := strength + 1; }
    if Contains(password, Lower) { strength := strength + 1; }
    if Contains(password, Upper) { strength := strength + 1; }
    if Contains(password, Digit) { strength := strength + 1; }
    if Contains(password, Special) { strength := strength + 1; }
    s := StrengthOf(strength);
  }

  /** A password that meets a class keeps meeting it when a character is appended. */
  lemma ContainsAppend(p: string, c: char, k: CharClass)
    requires Contains(p, k)
    ensures Contains(p + [c], k)
  {
    var i :| 0 <= i < |p| && InClass(p[i], k);
    assert (p + [c])[i] == p[i];
  }

  /** Typing one more character never lowers the strength score. */
  lemma ScoreMonotone(p: string, c: char)
    ensures Score(p) <= Score(p + [c])
  {
    if Contains(p, Lower) { ContainsAppend(p, c, Lower); }
    if Contains(p, Upper) { ContainsAppend(p, c, Upper); }
    if Contains(p, Digit) { ContainsAppend(p, c, Digit); }
    if Contains(p, Special) { ContainsAppend(p, c, Special); }
  }

  /** A lookahead that succeeds somewhere proves the class occurs in the password. */
  lemma AheadContains(s: string, p: nat, k: CharClass)
    requires p <= |s| && AheadOnLine(s, p, k)
    ensures Contains(s, k)
  {
    var i :| p <= i < |s| && InClass(s[i], k) && forall j :: p <= j < i ==> !IsLineTerminator(s[j]);
    assert 0 <= i < |s| && InClass(s[i], k);
  }

  /** Every new password the form accepts is rated strong. */
  lemma AcceptedIsStrong(p: string)
    requires NewPasswordAccepted(p)
    ensures Score(p) >= 4 && StrengthOf(Score(p)).level == Strong
  {
    var q :| 0 <= q <= |p| && AheadOnLine(p, q, Lower) && AheadOnLine(p, q, Upper) && AheadOnLine(p, q, Digit);
    AheadContains(p, q, Lower);
    AheadContains(p, q, Upper);
    AheadContains(p, q, Digit);
  }

  /** On a single line the lookahead test is the same as asking for all three classes. */
  lemma MixedCaseOneLine(s: string)
    requires forall j :: 0 <= j < |s| ==> !IsLineTerminator(s[j])
    ensures MixedCase(s) <==> Contains(s, Lower) && Contains(s, Upper) && Contains(s, Digit)
  {
    if Contains(s, Lower) && Contains(s, Upper) && Contains(s, Digit) {
      var a :| 0 <= a < |s| && InClass(s[a], Lower);
      var b :| 0 <= b < |s| && InClass(s[b], Upper);
      var c :| 0 <= c < |s| && InClass(s[c], Digit);
      assert AheadOnLine(s, 0, Lower) && AheadOnLine(s, 0, Upper) && AheadOnLine(s, 0, Digit);
    }
    if MixedCase(s) {
      var q :| 0 <= q <= |s| && AheadOnLine(s, q, Lower) && AheadOnLine(s, q, Upper) && AheadOnLine(s, q, Digit);
      AheadContains(s, q, Lower);
      AheadContains(s, q, Upper);
      AheadContains(s, q, Digit);
    }
  }

  /** The lookahead is anchored to one line: a lower-case letter, a line break and then
      the rest is refused although all three classes occur. */
  lemma MixedCaseNeedsOneLine()
    ensures Contains("aaaaaaa\nA1", Lower) && Contains("aaaaaaa\nA1", Upper) && Contains("aaaaaaa\nA1", Digit)
    ensures !MixedCase("aaaaaaa\nA1") && |"aaaaaaa\nA1"| >= 8
  {
    var s := "aaaaaaa\nA1";
    assert InClass(s[0], Lower) && InClass(s[8], Upper) && InClass(s[9], Digit);
    forall i | 0 <= i < |s| && InClass(s[i], Lower) ensures i < 7 { }
    forall i | 0 <= i < |s| && InClass(s[i], Upper) ensures i == 8 { }
    assert IsLineTerminator(s[7]);
    forall p | 0 <= p <= |s|
      ensures !(AheadOnLine(s, p, Lower) && AheadOnLine(s, p, Upper))
    {
      if p <= 7 {
        assert !AheadOnLine(s, p, Upper);
      } else {
        assert !AheadOnLine(s, p, Lower);
      }
    }
  }

  /** The "Strong Password" checklist item: complete while the field is empty, otherwise
      while the meter does not read weak. */
  function StrongPasswordStatus(newPassword: string): (complete: bool)
    ensures complete <==> newPassword == "" || Score(newPassword) >= 3
  {
    if newPassword != "" then StrengthOf(Score(newPassword)).level != Weak else true
  }

  datatype PasswordForm = PasswordForm(data: PasswordData, errors: map<ErrorKey, string>)

  /** `handlePasswordChange`: store the typed value, and blank that field's message if it
      has a non-empty one. */
  function HandlePasswordChange(form: PasswordForm, name: PasswordField, value: string): (r: PasswordForm)
    ensures Get(r.data, name) == value
    ensures forall f :: f != name ==> Get(r.data, f) == Get(form.data, f)
    ensures r.errors.Keys == form.errors.Keys
    ensures Field(name) in r.errors ==> r.errors[Field(name)] == ""
    ensures forall k :: k in form.errors && k != Field(name) ==> r.errors[k] == form.errors[k]
  {
    var data := Set(form.data, name, value);
    if Field(name) in form.errors && form.errors[Field(name)] != "" then
      PasswordForm(data, form.errors[Field(name) := ""])
    else
      PasswordForm(data, form.errors)
  }

  /** `showPasswords`. */
  datatype Visibility = Visibility(current: bool, new_: bool, confirm: bool)

  function Shown(v: Visibility, f: PasswordField): bool {
    match f
    case CurrentPassword => v.current
    case NewPassword => v.new_
    case ConfirmPassword => v.confirm
  }

  /** `togglePasswordVisibility`: flip the one flag. */
  function ToggleVisibility(v: Visibility, f: PasswordField): (r: Visibility)
    ensures Shown(r, f) == !Shown(v, f)
    ensures forall g :: g != f ==> Shown(r, g) == Shown(v, g)
  {
    match f
    case CurrentPassword => v.(current := !v.current)
    case NewPassword => v.(new_ := !v.new_)
    case ConfirmPassword => v.(confirm := !v.confirm)
  }

  /** Two clicks on the same eye button restore the visibility flags. */
  lemma ToggleTwice(v: Visibility, f: PasswordField)
    ensures ToggleVisibility(ToggleVisibility(v, f), f) == v
  {
  }
}
