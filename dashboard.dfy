/**
 * The dashboard's derived labels: the name it greets the user with, the initials in
 * the avatar, the username and email labels with their fallbacks, the greeting for
 * the hour, the login-method label and the email checklist item.
 */
module Dashboard {
  import opened Wrappers
  import opened JsString

  /** The fields of the `user` prop the dashboard reads; an absent user reads as all absent. */
  datatype DashboardUser = DashboardUser(
    firstName: Option<string>,
    lastName: Option<string>,
    username: Option<string>,
    email: Option<string>,
    authProvider: Option<string>)

  const NoUser := DashboardUser(None, None, None, None, None)

  /** `value ?? ''`: null and undefined become the empty string. */
  function OrBlank(o: Option<string>): string {
    o.GetOr("")
  }

  /** `${first ?? ''} ${last ?? ''}`: the text `fullName` trims. */
  function NameLine(u: DashboardUser): string {
    OrBlank(u.firstName) + " " + OrBlank(u.lastName)
  }

  /** `fullName`: with either name present, the name line trimmed; else empty. */
  function FullName(u: DashboardUser): (r: string)
    ensures !Truthy(u.firstName) && !Truthy(u.lastName) ==> r == ""
    ensures Truthy(u.firstName) || Truthy(u.lastName) ==> TrimmedFrom(NameLine(u), r)
    ensures r == [] || (!IsWhitespace(r[0]) && !IsWhitespace(r[|r| - 1]))
  {
    if Truthy(u.firstName) || Truthy(u.lastName) then
      var s := NameLine(u);
      assert TrimmedFrom(s, Trim(s)) by { TrimTrims(s); }
      Trim(s)
    else ""
  }

  /** One-word first and last names read as "First Last". */
  lemma FullNameOfWords(u: DashboardUser)
    requires u.firstName.Some? && u.lastName.Some? && IsWord(u.firstName.value) && IsWord(u.lastName.value)
    ensures FullName(u) == u.firstName.value + " " + u.lastName.value
  {
    TwoWordInitials(u.firstName.value, u.lastName.value);
  }

  /** A first name alone reads as itself: the trailing space is trimmed away. */
  lemma FullNameFirstOnly(u: DashboardUser)
    requires u.firstName.Some? && IsWord(u.firstName.value) && !Truthy(u.lastName)
    ensures FullName(u) == u.firstName.value
  {
    var f := u.firstName.value;
    assert NameLine(u) == f + " " + "" == f + " ";
    TrimTrailingSpace(f);
  }

  const FallbackName := "Valued Member"

  /** `displayName`: the full name, else the username, else "Valued Member". Never empty. */
  function DisplayName(u: DashboardUser): (r: string)
    ensures r != ""
    ensures FullName(u) != "" ==> r == FullName(u)
    ensures FullName(u) == "" && Truthy(u.username) ==> r == u.username.value
    ensures FullName(u) == "" && !Truthy(u.username) ==> r == FallbackName
  {
    var full := FullName(u);
    if full != "" then full else if Truthy(u.username) then u.username.value else FallbackName
  }

  /** The avatar initials: the initials chain applied to the display name, so one or two
      upper-cased first letters of its words, or "U" when it has no words. */
  function DashboardInitials(u: DashboardUser): (r: string)
    ensures |r| == 1 || |r| == 2
    ensures Words(DisplayName(u)) == [] ==> r == "U"
    ensures var w := Words(DisplayName(u));
            w != [] ==> |r| == (if |w| < 2 then |w| else 2) && forall i :: 0 <= i < |r| ==> r[i] == UpperChar(w[i][0])
  {
    Initials(DisplayName(u))
  }

  /** A user with a name gets the upper-cased first letter of that name as first initial. */
  lemma InitialsStartWithName(u: DashboardUser)
    requires FullName(u) != ""
    ensures DashboardInitials(u)[0] == UpperChar(FullName(u)[0])
  {
    InitialsFirstLetter(FullName(u));
  }

  /** A user with neither names nor username is shown as "Valued Member", initials "VM". */
  lemma AnonymousInitials()
    ensures DisplayName(NoUser) == FallbackName
    ensures DashboardInitials(NoUser) == "VM"
  {
    assert FallbackName == "Valued" + " " + "Member";
    TwoWordInitials("Valued", "Member");
  }

  const NoUsername := "Username not set"

  /** The username label: `@username`, else "Username not set". */
  function UsernameLabel(u: DashboardUser): (r: string)
    ensures Truthy(u.username) ==> r == "@" + u.username.value
    ensures !Truthy(u.username) ==> r == NoUsername
  {
    if Truthy(u.username) then "@" + u.username.value else NoUsername
  }

  const NoEmail := "Email not added"

  /** The email label: the email, else "Email not added". */
  function EmailLabel(u: DashboardUser): (r: string)
    ensures Truthy(u.email) ==> r == u.email.value
    ensures !Truthy(u.email) ==> r == NoEmail
  {
    if Truthy(u.email) then u.email.value else NoEmail
  }

  /** The "Email on file" checklist item is complete when the label is not the fallback. */
  function EmailOnFile(u: DashboardUser): (complete: bool)
    ensures complete <==> Truthy(u.email) && u.email.value != NoEmail
  {
    EmailLabel(u) != NoEmail
  }

  /** The value of the security highlight card. */
  function SecurityCardValue(u: DashboardUser): (r: string)
    ensures r == "Email confirmed" <==> EmailOnFile(u)
    ensures r == "Complete setup" <==> !EmailOnFile(u)
  {
    if EmailLabel(u) != NoEmail then "Email confirmed" else "Complete setup"
  }

  /** The comparison is with the label text, so an address that is literally the fallback
      text counts as missing. */
  lemma SentinelEmailCountsAsMissing()
    ensures var u := NoUser.(email := Some(NoEmail));
            Truthy(u.email) && !EmailOnFile(u) && SecurityCardValue(u) == "Complete setup"
  {
  }

  /** The greeting for the local hour `hour` (0 to 23). */
  function Greeting(hour: int): (r: string)
    ensures r == "Good morning" <==> hour < 12
    ensures r == "Good afternoon" <==> 12 <= hour < 18
    ensures r == "Good evening" <==> hour >= 18
  {
    if hour < 12 then "Good morning" else if hour < 18 then "Good afternoon" else "Good evening"
  }

  const DefaultLoginMethod := "Email & password"

  /** The login-method label: `authProvider` with every `_` turned into a space, else
      "Email & password". */
  function LoginMethod(u: DashboardUser): (r: string)
    ensures Truthy(u.authProvider) ==>
              |r| == |u.authProvider.value| && '_' !in r
              && forall i :: 0 <= i < |r| ==> r[i] == (if u.authProvider.value[i] == '_' then ' ' else u.authProvider.value[i])
    ensures !Truthy(u.authProvider) ==> r == DefaultLoginMethod
  {
    if Truthy(u.authProvider) then ReplaceAll(u.authProvider.value, '_', ' ') else DefaultLoginMethod
  }

  /** A provider name without underscores is shown as it is. */
  lemma LoginMethodVerbatim(u: DashboardUser)
    requires Truthy(u.authProvider) && '_' !in u.authProvider.value
    ensures LoginMethod(u) == u.authProvider.value
  {
    var p := u.authProvider.value;
    assert forall i :: 0 <= i < |p| ==> LoginMethod(u)[i] == p[i];
  }
}
