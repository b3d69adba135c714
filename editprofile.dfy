/**
 * The profile editor: its eight-field form, the validation rules, the input handler
 * that marks the form dirty, the submit handler, and the avatar initials.
 */
module EditProfile {
  import opened Wrappers
  import opened JsString

  datatype Field = FirstName | LastName | Username | Email | Bio | Location | Website | Phone

  /** `formData`. */
  datatype FormData = FormData(
    firstName: string, lastName: string, username: string, email: string,
    bio: string, location: string, website: string, phone: string)

  function Get(d: FormData, f: Field): string {
    match f
    case FirstName => d.firstName
    case LastName => d.lastName
    case Username => d.username
    case Email => d.email
    case Bio => d.bio
    case Location => d.location
    case Website => d.website
    case Phone => d.phone
  }

  /** `{...prev, [name]: value}`. */
  function Set(d: FormData, f: Field, v: string): (r: FormData)
    ensures Get(r, f) == v
    ensures forall g :: g != f ==> Get(r, g) == Get(d, g)
  {
    match f
    case FirstName => d.(firstName := v)
    case LastName => d.(lastName := v)
    case Username => d.(username := v)
    case Email => d.(email := v)
    case Bio => d.(bio := v)
    case Location => d.(location := v)
    case Website => d.(website := v)
    case Phone => d.(phone := v)
  }

  /** The fields of the `user` prop the form starts from; an absent one is `None`. */
  datatype EditableUser = EditableUser(
    firstName: Option<string>, lastName: Option<string>, username: Option<string>, email: Option<string>,
    bio: Option<string>, location: Option<string>, website: Option<string>, phone: Option<string>)

  /** `user?.field || ''`. */
  function OrEmpty(o: Option<string>): (s: string)
    ensures Truthy(o) ==> s == o.value
    ensures !Truthy(o) ==> s == ""
  {
    if Truthy(o) then o.value else ""
  }

  function InitialForm(u: EditableUser): FormData {
    FormData(OrEmpty(u.firstName), OrEmpty(u.lastName), OrEmpty(u.username), OrEmpty(u.email),
             OrEmpty(u.bio), OrEmpty(u.location), OrEmpty(u.website), OrEmpty(u.phone))
  }

  /** The keys of the editor's `errors` state. */
  datatype ErrorKey = On(field: Field) | Submit

  const FirstNameRequired := "First name is required"
  const EmailRequired := "Email is required"
  const EmailInvalid := "Please enter a valid email address"
  const UsernameTooShort := "Username must be at least 3 characters"
  const WebsiteScheme := "Website must start with http:// or https://"
  const SaveFailed := "Failed to update profile. Please try again."

  /** `/\S+@\S+\.\S+/.test(s)`: somewhere in `s`, a non-space character, an `@`, a
      non-empty run of non-space characters, a `.` and a non-space character. */
  predicate EmailShaped(s: string) {
    exists sign, dot :: 0 < sign < dot < |s| - 1 && EmailAt(s, sign, dot)
  }

  /** The `@` of a match of `\S+@\S+\.\S+` at `sign` and its `.` at `dot`. */
  predicate EmailAt(s: string, sign: nat, dot: nat)
    requires 0 < sign < dot < |s| - 1
  {
    && s[sign] == '@' && s[dot] == '.' && sign + 1 < dot
    && !IsWhitespace(s[sign - 1]) && !IsWhitespace(s[dot + 1])
    && forall j :: sign < j < dot ==> !IsWhitespace(s[j])
  }

  /** `\S+@\S+\.\S+` accepts a plain address and refuses one without a dot after the `@`
      or with a space between the `@` and the dot. */
  lemma EmailShapeExamples()
    ensures EmailShaped("a@b.c")
    ensures !EmailShaped("a@bc")
    ensures !EmailShaped("a@ b.c")
  {
    assert EmailAt("a@b.c", 1, 3);
    var s := "a@ b.c";
    forall sign, dot | 0 < sign < dot < |s| - 1 ensures !EmailAt(s, sign, dot) {
      if s[sign] == '@' {
        assert sign == 1 && IsWhitespace(s[2]);
      }
    }
    var t := "a@bc";
    forall sign, dot | 0 < sign < dot < |t| - 1 ensures !EmailAt(t, sign, dot) {
      assert t[dot] != '.';
    }
  }

  /** The first-name rule: required. */
  function FirstNameRule(s: string): Option<string> {
    if IsBlank(s) then Some(FirstNameRequired) else None
  }

  /** The email rule: required, and shaped like an address. */
  function EmailRule(s: string): Option<string> {
    if IsBlank(s) then Some(EmailRequired)
    else if !EmailShaped(s) then Some(EmailInvalid)
    else None
  }

  /** The username rule: optional, but at least three characters when given. */
  function UsernameRule(s: string): Option<string> {
    if s != "" && |s| < 3 then Some(UsernameTooShort) else None
  }

  /** The website rule: optional, but starting with "http" when given. */
  function WebsiteRule(s: string): Option<string> {
    if s != "" && !StartsWith(s, "http") then Some(WebsiteScheme) else None
  }

  /** The message one validation rule records, if it fails. Only the first name, email,
      username and website are checked. */
  function Rule(d: FormData, k: ErrorKey): Option<string> {
    match k
    case On(FirstName) => FirstNameRule(d.firstName)
    case On(Email) => EmailRule(d.email)
    case On(Username) => UsernameRule(d.username)
    case On(Website) => WebsiteRule(d.website)
    case _ => None
  }

  /** The keys validation fills, in the order the rules run. */
  const Checked: seq<ErrorKey> := [On(FirstName), On(Email), On(Username), On(Website)]

  /** Running the rules for `keys` in order, each failing rule recording its message. */
  function Gather(d: FormData, keys: seq<ErrorKey>): map<ErrorKey, string>
    decreases |keys|
  {
    if keys == [] then map[]
    else
      var m := Gather(d, keys[..|keys| - 1]);
      var k := keys[|keys| - 1];
      if Rule(d, k).Some? then m[k := Rule(d, k).value] else m
  }

  /** A key has a message after running `keys` exactly when it is one of them and its rule fails. */
  lemma {:induction false} GatherKeys(d: FormData, keys: seq<ErrorKey>, k: ErrorKey)
    ensures k in Gather(d, keys) <==> k in keys && Rule(d, k).Some?
    ensures k in Gather(d, keys) ==> Gather(d, keys)[k] == Rule(d, k).value
    decreases |keys|
  {
    if keys != [] {
      var init := keys[..|keys| - 1];
      assert keys == init + [keys[|keys| - 1]];
      GatherKeys(d, init, k);
    }
  }

  /** The error map `validateForm` stores: exactly the failing rules, with their messages. */
  function FormErrors(d: FormData): (m: map<ErrorKey, string>)
    ensures forall k :: k in m <==> Rule(d, k).Some?
    ensures forall k :: k in m ==> m[k] == Rule(d, k).value
  {
    forall k ensures (k in Gather(d, Checked) <==> Rule(d, k).Some?)
                     && (k in Gather(d, Checked) ==> Gather(d, Checked)[k] == Rule(d, k).value) {
      GatherKeys(d, Checked, k);
      if Rule(d, k).Some? {
        assert k.On? && k.field in {FirstName, Email, Username, Website};
      }
    }
    Gather(d, Checked)
  }

  /** Only the four checked fields decide the errors. */
  lemma {:induction false} UncheckedFieldsIrrelevant(d: FormData, f: Field, v: string)
    requires f in {LastName, Bio, Location, Phone}
    ensures FormErrors(Set(d, f, v)) == FormErrors(d)
  {
    var e := Set(d, f, v);
    assert e.firstName == d.firstName && e.email == d.email && e.username == d.username && e.website == d.website;
    var me, md := FormErrors(e), FormErrors(d);
    forall k ensures (k in me <==> k in md) && (k in me ==> me[k] == md[k]) {
      assert Rule(e, k) == Rule(d, k);
    }
    assert me == md;
  }

  /** What a form without errors is known to satisfy: a first name that is not blank, an
      address-shaped email, a username empty or at least three long, a website empty or
      starting with `http`. */
  lemma ErrorFreeForm(d: FormData)
    requires FormErrors(d) == map[]
    ensures d.username == "" || |d.username| >= 3
    ensures d.website == "" || StartsWith(d.website, "http")
    ensures !IsBlank(d.firstName) && EmailShaped(d.email)
  {
    assert On(Username) !in FormErrors(d) && On(Website) !in FormErrors(d);
    assert On(FirstName) !in FormErrors(d) && On(Email) !in FormErrors(d);
  }

  /** Running one more rule adds its message, if it fails, to what the earlier ones found. */
  lemma GatherSnoc(d: FormData, keys: seq<ErrorKey>, k: ErrorKey)
    ensures Gather(d, keys + [k]) ==
              if Rule(d, k).Some? then Gather(d, keys)[k := Rule(d, k).value] else Gather(d, keys)
  {
    assert (keys + [k])[..|keys|] == keys;
  }

  /** The body of `validateForm`: the failing rules, collected one by one into a fresh map. */
  method CollectErrors(d: FormData) returns (newErrors: map<ErrorKey, string>)
    ensures newErrors == FormErrors(d)
  {
    newErrors := map[];
    if IsBlank(d.firstName) {
      newErrors := newErrors[On(FirstName) := FirstNameRequired];
    }
    ghost var ran := [On(FirstName)];
    GatherSnoc(d, [], On(FirstName));
    assert [] + [On(FirstName)] == ran;
    assert newErrors == Gather(d, ran);
    if IsBlank(d.email) {
      newErrors := newErrors[On(Email) := EmailRequired];
    } else if !EmailShaped(d.email) {
      newErrors := newErrors[On(Email) := EmailInvalid];
    }
    GatherSnoc(d, ran, On(Email));
    ran := ran + [On(Email)];
    assert newErrors == Gather(d, ran);
    if d.username != "" && |d.username| < 3 {
      newErrors := newErrors[On(Username) := UsernameTooShort];
    }
    GatherSnoc(d, ran, On(Username));
    ran := ran + [On(Username)];
    assert newErrors == Gather(d, ran);
    if d.website != "" && !StartsWith(d.website, "http") {
      newErrors := newErrors[On(Website) := WebsiteScheme];
    }
    GatherSnoc(d, ran, On(Website));
    ran := ran + [On(Website)];
    assert ran == Checked;
  }

  /** The initials in the avatar circle: `${firstName} ${lastName}`, trimmed, through the
      initials chain. */
  function EditorInitials(d: FormData): (r: string)
    ensures |r| == 1 || |r| == 2
    ensures var w := Words(Trim(d.firstName + " " + d.lastName));
            && (w == [] ==> r == "U")
            && (w != [] ==> |r| == (if |w| < 2 then |w| else 2) && forall i :: 0 <= i < |r| ==> r[i] == UpperChar(w[i][0]))
  {
    Initials(Trim(d.firstName + " " + d.lastName))
  }

  /** For one-word first and last names the avatar shows their two upper-cased first letters. */
  lemma EditorInitialsOfNames(d: FormData)
    requires IsWord(d.firstName) && IsWord(d.lastName)
    ensures EditorInitials(d) == [UpperChar(d.firstName[0]), UpperChar(d.lastName[0])]
  {
    TwoWordInitials(d.firstName, d.lastName);
  }

  /** The editor's state. */
  class ProfileEditor {
    var formData: FormData
    var errors: map<ErrorKey, string>
    var isDirty: bool
    var isLoading: bool

    constructor (user: EditableUser)
      ensures formData == InitialForm(user) && errors == map[] && !isDirty && !isLoading
    {
      formData := InitialForm(user);
      errors := map[];
      isDirty := false;
      isLoading := false;
    }

    /** `handleInputChange`: store the value, mark the form dirty, and blank that field's
        message if it has a non-empty one. */
    method HandleInputChange(name: Field, value: string)
      modifies this
      ensures formData == Set(old(formData), name, value)
      ensures isDirty && isLoading == old(isLoading)
      ensures errors.Keys == old(errors).Keys
      ensures forall k :: k in old(errors) ==> errors[k] == (if k == On(name) then "" else old(errors)[k])
    {
      formData := Set(formData, name, value);
      isDirty := true;
      if On(name) in errors && errors[On(name)] != "" {
        errors := errors[On(name) := ""];
      }
    }

    /** `validateForm`: collect the errors, store them, report whether there are none. */
    method ValidateForm() returns (ok: bool)
      modifies this
      ensures errors == FormErrors(formData) && (ok <==> errors == map[])
      ensures formData == old(formData) && isDirty == old(isDirty) && isLoading == old(isLoading)
    {
      var newErrors := CollectErrors(formData);
      errors := newErrors;
      ok := |newErrors| == 0;
    }

    /** `handleSubmit`, with `saveSucceeds` standing for whether `onSave(formData)` resolved. */
    method HandleSubmit(saveSucceeds: bool)
      modifies this
      ensures formData == old(formData)
      ensures FormErrors(old(formData)) != map[] ==>
                errors == FormErrors(old(formData)) && isDirty == old(isDirty) && isLoading == old(isLoading)
      ensures FormErrors(old(formData)) == map[] ==>
                !isLoading
                && (saveSucceeds ==> errors == map[] && !isDirty)
                && (!saveSucceeds ==> errors == map[Submit := SaveFailed] && isDirty == old(isDirty))
      ensures old(isDirty) && !isDirty ==> saveSucceeds && FormErrors(old(formData)) == map[]
    {
      var ok := ValidateForm();
      if !ok {
        return;
      }
      isLoading := true;
      if saveSucceeds {
        isDirty := false;
      } else {
        errors := map[Submit := SaveFailed];
      }
      isLoading := false;
    }
  }
}
