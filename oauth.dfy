/**
 * The Google and GitHub strategy callbacks: find an account by email or by
 * (provider, provider id), backfill its provider slot if it has none, return it
 * unchanged if it has one, or create a password-less account.
 *
 * The two callbacks run the same algorithm, `Resolve`, on different inputs: an
 * `Identity` says what the callback queries with, what it writes into the provider
 * slot, and the row it would create (or the exception building that row throws).
 * `GoogleIdentity` and `GitHubIdentity` build it from each provider's profile.
 */
module OAuth {
  import opened Wrappers
  import opened JsString
  import opened Accounts
  import opened Tokens
  import opened LocalAuth

  /** The `name` object of a Google profile. */
  datatype GoogleName = GoogleName(givenName: Option<string>, familyName: Option<string>)

  /** The fields of a passport-google-oauth20 profile the callback reads. A container the
      profile lacks is `None`; the callback reads through each one without a guard. */
  datatype GoogleProfile = GoogleProfile(
    id: string,
    emails: Option<seq<string>>,   // profile.emails, the `value` of each entry
    name: Option<GoogleName>,      // profile.name
    photos: Option<seq<string>>)   // profile.photos, the `value` of each entry

  /** The fields of a passport-github2 profile the callback reads. */
  datatype GitHubProfile = GitHubProfile(
    id: string,
    username: string,
    displayName: Option<string>,   // null for GitHub users without a name
    email: Option<string>,         // profile.emails?.[0]?.value
    photo: Option<string>)         // profile.photos?.[0]?.value

  datatype OAuthError =
    | RepositoryRejected           // prisma.user.create threw (unique email or username)
    | ProfileUnreadable            // reading the profile threw (a missing field or container)

  /** What one strategy callback works with: the email it queries by, the identity it writes
      into the provider slot, the avatar the backfill writes (or the exception evaluating it
      throws), and the row it would create (or the exception building that row throws). */
  datatype Identity = Identity(
    email: Option<string>,
    provider: Provider,
    subject: string,
    photo: Result<Option<string>, OAuthError>,
    row: Result<NewAccount, OAuthError>)

  function Query(id: Identity): Where {
    EmailOrIdentity(id.email, id.provider, id.subject)
  }

  /** The row a callback creates carries the identity it was built from, no password, and the photo. */
  predicate Coherent(id: Identity) {
    id.row.Ok? ==>
      && id.photo.Ok?
      && id.row.value.provider == id.provider
      && id.row.value.providerId == Some(id.subject)
      && id.row.value.avatar == id.photo.value
      && id.row.value.password.None?
  }

  datatype Resolved = Resolved(db: Db, result: Result<Account, OAuthError>)

  /** The strategy callback's effect on the repository and the account it hands to `done`. */
  function Resolve(db: Db, id: Identity, now: int): (out: Resolved)
    ensures ValidDb(db) ==> ValidDb(out.db)
    ensures out.result.Err? ==> out.db == db
    ensures FirstIndex(db.accounts, Query(id)).Some? ==>
              var k := FirstIndex(db.accounts, Query(id)).value;
              var a := db.accounts[k];
              if Truthy(a.providerId) then out == Resolved(db, Ok(a))
              else if id.photo.Err? then out == Resolved(db, Err(id.photo.error))
              else
                && out.db == Db(db.accounts[k := Linked(a, id.provider, id.subject, id.photo.value)], db.nextId)
                && out.result == Ok(out.db.accounts[k])
    ensures FirstIndex(db.accounts, Query(id)).None? && out.result.Ok? ==>
              && id.row.Ok?
              && out.result.value == Stored(db.nextId, id.row.value, now)
              && out.db == Db(db.accounts + [out.result.value], db.nextId + 1)
    ensures FirstIndex(db.accounts, Query(id)).None? && id.row.Ok? ==>
              (out.result.Err? <==> Taken(db.accounts, id.row.value.email, id.row.value.username))
  {
    match FirstIndex(db.accounts, Query(id))
    case Some(k) =>
      var a := db.accounts[k];
      if Truthy(a.providerId) then Resolved(db, Ok(a))
      else if id.photo.Err? then Resolved(db, Err(id.photo.error))
      else
        var b := Linked(a, id.provider, id.subject, id.photo.value);
        assert ValidDb(db) ==> ValidDb(Db(db.accounts[k := b], db.nextId)) by {
          if ValidDb(db) { LinkPreservesValid(db, k, id.provider, id.subject, id.photo.value); }
        }
        Resolved(Db(db.accounts[k := b], db.nextId), Ok(b))
    case None =>
      match id.row
      case Err(e) => Resolved(db, Err(e))
      case Ok(data) =>
        match CreateRow(db, data, now)
        case Created(db', Ok(a)) => Resolved(db', Ok(a))
        case Created(db', Err(_)) => Resolved(db', Err(RepositoryRejected))
  }

  /** Rows before `k` are untouched and do not match, and the new row `k` matches: so `k` is
      still the first match. */
  lemma {:induction false} FirstMatchStays(before: seq<Account>, after: seq<Account>, w: Where, k: nat)
    requires k < |after| && k <= |before|
    requires forall j :: 0 <= j < k ==> after[j] == before[j] && !Satisfies(before[j], w)
    requires Satisfies(after[k], w)
    ensures FirstIndex(after, w) == Some(k)
  {
    var r := FirstIndex(after, w);
    assert r.Some?;
  }

  /** Resolving the same identity again changes nothing and returns the same account:
      so a profile is created at most once, and repeat logins are stable. This rests on
      `FirstIndex` fixing which match `findFirst` returns (the first in store order); if
      `findFirst` could return any match, a second login could backfill a different row. */
  lemma {:induction false} ResolveIdempotent(db: Db, id: Identity, now: int, later: int)
    requires Coherent(id)
    requires Resolve(db, id, now).result.Ok?
    ensures var first := Resolve(db, id, now);
            Resolve(first.db, id, later) == first
  {
    var first := Resolve(db, id, now);
    var a := first.result.value;
    var q := Query(id);
    var k: nat;
    match FirstIndex(db.accounts, q)
    case Some(i) =>
      k := i;
      if !Truthy(db.accounts[i].providerId) {
        FirstMatchStays(db.accounts, first.db.accounts, q, k);
      }
    case None =>
      k := |db.accounts|;
      assert first.db.accounts[k] == a;
      FirstMatchStays(db.accounts, first.db.accounts, q, k);
    assert first.db.accounts[k] == a;
    assert FirstIndex(first.db.accounts, q) == Some(k);
    if !Truthy(a.providerId) {
      assert Linked(a, id.provider, id.subject, id.photo.value) == a;
      assert first.db.accounts[k := a] == first.db.accounts;
    }
  }

  /** Linking: when the account holding the profile's email has no provider id and no account
      holds the profile's identity yet, that account gets the provider slot and nothing is
      created. */
  lemma {:induction false} ResolveLinksByEmail(db: Db, id: Identity, now: int, k: nat)
    requires ValidDb(db)
    requires id.email.Some?
    requires k < |db.accounts| && db.accounts[k].email == id.email.value && !Truthy(db.accounts[k].providerId)
    requires forall j :: 0 <= j < |db.accounts| ==> !(db.accounts[j].providerId == Some(id.subject) && db.accounts[j].provider == id.provider)
    ensures id.photo.Err? ==> Resolve(db, id, now) == Resolved(db, Err(id.photo.error))
    ensures id.photo.Ok? ==>
            var out := Resolve(db, id, now);
            && |out.db.accounts| == |db.accounts| && out.db.nextId == db.nextId
            && out.db.accounts == db.accounts[k := Linked(db.accounts[k], id.provider, id.subject, id.photo.value)]
            && out.result == Ok(out.db.accounts[k])
  {
    var q := Query(id);
    assert Satisfies(db.accounts[k], q);
    var r := FirstIndex(db.accounts, q);
    assert r.Some?;
  }

  /** On one shape of repository the linking path leaves two accounts holding the same
      (provider, provider id): the query finds the email match first and backfills it, while
      an older account already holds the identity. */
  lemma LinkCanDuplicateIdentity()
    ensures var local := Account(1, "a@x.com", "alice", Some(Hash("pw")), None, None, None, Local, None, 0);
            var google := Account(2, "b@x.com", "bob_0001", None, None, None, None, Google, Some("g-0001"), 0);
            var db := Db([local, google], 3);
            var id := GoogleIdentity(GoogleProfile("g-0001", Some(["a@x.com"]), Some(GoogleName(None, None)), Some([]))).value;
            var out := Resolve(db, id, 5);
            && ValidDb(db)
            && out.db.accounts[0].providerId == Some("g-0001") && out.db.accounts[0].provider == Google
            && out.db.accounts[1].providerId == Some("g-0001") && out.db.accounts[1].provider == Google
  {
    var local := Account(1, "a@x.com", "alice", Some(Hash("pw")), None, None, None, Local, None, 0);
    var google := Account(2, "b@x.com", "bob_0001", None, None, None, None, Google, Some("g-0001"), 0);
    var db := Db([local, google], 3);
    var id := GoogleIdentity(GoogleProfile("g-0001", Some(["a@x.com"]), Some(GoogleName(None, None)), Some([]))).value;
    assert Satisfies(db.accounts[0], Query(id));
    assert FirstIndex(db.accounts, Query(id)) == Some(0);
  }

  /** `s.slice(-n)` for `n > 0`: the last `n` characters, or all of a shorter string.
      (`slice(-0)` would be the whole string; the callback only slices with 4.) */
  function LastChars(s: string, n: nat): (r: string)
    requires n > 0
    ensures |r| == (if |s| < n then |s| else n)
    ensures r == s[|s| - |r|..]
  {
    if |s| <= n then s else s[|s| - n..]
  }

  /** `email.split('@')[0] + '_' + id.slice(-4)`: the part of the email before its first
      '@' (all of it when there is none), an underscore, and the last four characters of
      the profile id. */
  function GoogleUsername(email: string, id: string): (r: string)
    ensures |r| >= |LastChars(id, 4)| + 1
    ensures var local := r[..|r| - |LastChars(id, 4)| - 1];
            && '@' !in local && StartsWith(email, local)
            && (|local| < |email| ==> email[|local|] == '@')
            && r == local + "_" + LastChars(id, 4)
  {
    var local := Split(email, '@')[0];
    assert '@' !in local && |local| <= |email| && local == email[..|local|]
           && (|local| < |email| ==> email[|local|] == '@') by {
      SplitHead(email, '@');
    }
    var r := local + "_" + LastChars(id, 4);
    assert r[..|r| - |LastChars(id, 4)| - 1] == local;
    r
  }

  /** `profile.photos[0]?.value` once `photos` exists: its first entry, if any. */
  function FirstPhoto(photos: seq<string>): (r: Option<string>)
    ensures r.Some? <==> |photos| > 0
    ensures r.Some? ==> r.value == photos[0]
  {
    if |photos| > 0 then Some(photos[0]) else None
  }

  /** The Google callback's identity. Building the query reads `profile.emails[0].value`,
      which throws without an email; the backfill reads `profile.photos[0]`, which throws
      without `photos`; the new row also reads `profile.name`, which throws without one. */
  function GoogleIdentity(p: GoogleProfile): (r: Result<Identity, OAuthError>)
    ensures r.Err? <==> p.emails.None? || |p.emails.value| == 0
    ensures r.Err? ==> r.error == ProfileUnreadable
    ensures r.Ok? ==>
              var id := r.value;
              var email := p.emails.value[0];
              && Coherent(id)
              && id.email == Some(email) && id.provider == Google && id.subject == p.id
              && (id.photo.Err? <==> p.photos.None?)
              && (p.photos.Some? ==> id.photo == Ok(FirstPhoto(p.photos.value)))
              && (id.row.Err? <==> p.name.None? || p.photos.None?)
              && (id.row.Ok? ==>
                    && id.row.value.email == email && id.row.value.username == GoogleUsername(email, p.id)
                    && id.row.value.firstName == p.name.value.givenName
                    && id.row.value.lastName == p.name.value.familyName)
  {
    if p.emails.None? || |p.emails.value| == 0 then Err(ProfileUnreadable)
    else
      var email := p.emails.value[0];
      var photo: Result<Option<string>, OAuthError> :=
        if p.photos.None? then Err(ProfileUnreadable) else Ok(FirstPhoto(p.photos.value));
      var row: Result<NewAccount, OAuthError> :=
        if p.name.None? || photo.Err? then Err(ProfileUnreadable)
        else Ok(NewAccount(email, GoogleUsername(email, p.id), None, p.name.value.givenName,
                           p.name.value.familyName, photo.value, Google, Some(p.id)));
      Ok(Identity(Some(email), Google, p.id, photo, row))
  }

  /** A Google profile without `photos` succeeds only when it finds an account that already
      has a provider id: backfilling and creating both throw, and the store stays as it was. */
  lemma GoogleWithoutPhotos(db: Db, p: GoogleProfile, now: int)
    requires GoogleIdentity(p).Ok? && p.photos.None?
    ensures var id := GoogleIdentity(p).value;
            var out := Resolve(db, id, now);
            && out.db == db
            && (out.result.Ok? <==>
                  FirstIndex(db.accounts, Query(id)).Some?
                  && Truthy(db.accounts[FirstIndex(db.accounts, Query(id)).value].providerId))
  {
  }

  /** `profile.emails?.[0]?.value || `${profile.username}@github.local``: the profile email
      when it is non-empty, otherwise a synthetic address; never empty. */
  function GitHubEmail(p: GitHubProfile): (r: string)
    ensures r != ""
    ensures Truthy(p.email) ==> r == p.email.value
    ensures !Truthy(p.email) ==> r == p.username + "@github.local"
  {
    if Truthy(p.email) then p.email.value else p.username + "@github.local"
  }

  /** `displayName.split(' ')[0] || username`: the first word, or the username when the
      display name is empty or starts with a space. */
  function GitHubFirstName(displayName: string, username: string): (r: string)
    ensures displayName == "" || displayName[0] == ' ' ==> r == username
    ensures displayName != "" && displayName[0] != ' ' ==>
              r != "" && ' ' !in r && StartsWith(displayName, r)
              && (|r| < |displayName| ==> displayName[|r|] == ' ')
  {
    var first := Split(displayName, ' ')[0];
    assert ' ' !in first && |first| <= |displayName| && first == displayName[..|first|]
           && (|first| < |displayName| ==> displayName[|first|] == ' ') by {
      SplitHead(displayName, ' ');
    }
    if first != "" then first else username
  }

  /** `displayName.split(' ').slice(1).join(' ') || ''`: everything after the first space,
      empty when there is none. */
  function GitHubLastName(displayName: string): (r: string)
    ensures ' ' !in displayName ==> r == ""
    ensures ' ' in displayName ==> Split(displayName, ' ')[0] + " " + r == displayName
  {
    var parts := Split(displayName, ' ');
    assert ' ' !in displayName ==> parts == [displayName] by {
      if ' ' !in displayName { SplitNoSeparator(displayName, ' '); }
    }
    assert ' ' in displayName ==> parts[0] + " " + Join(parts[1..], " ") == displayName by {
      JoinSplit(displayName, ' ');
    }
    Join(parts[1..], " ")
  }

  /** When the display name does not start with a space, first name, a space and last name
      give the display name back; a single-word name has an empty last name. */
  lemma {:induction false} GitHubNamesRejoin(displayName: string, username: string)
    requires displayName != "" && displayName[0] != ' '
    ensures ' ' !in displayName ==> GitHubFirstName(displayName, username) == displayName && GitHubLastName(displayName) == ""
    ensures ' ' in displayName ==>
              GitHubFirstName(displayName, username) + " " + GitHubLastName(displayName) == displayName
  {
    var parts := Split(displayName, ' ');
    JoinSplit(displayName, ' ');
    SplitHead(displayName, ' ');
    if ' ' !in displayName {
      SplitNoSeparator(displayName, ' ');
    } else {
      assert parts[0] != "";
      assert Join(parts, " ") == parts[0] + " " + Join(parts[1..], " ");
    }
  }

  /** The GitHub callback's identity: query by email (an absent email matches nothing) or
      (github, id); create with the fallback email, the profile username and the split display
      name, which throws when the display name is null. */
  function GitHubIdentity(p: GitHubProfile): (id: Identity)
    ensures Coherent(id)
    ensures id.email == p.email
    ensures id.row.Err? <==> p.displayName.None?
    ensures id.provider == GitHub && id.subject == p.id && id.photo == Ok(p.photo)
    ensures id.row.Ok? ==> id.row.value.email == GitHubEmail(p) && id.row.value.username == p.username
    ensures id.row.Ok? ==>
              && id.row.value.firstName == Some(GitHubFirstName(p.displayName.value, p.username))
              && id.row.value.lastName == Some(GitHubLastName(p.displayName.value))
  {
    Identity(p.email, GitHub, p.id, Ok(p.photo),
             match p.displayName
             case None => Err(ProfileUnreadable)
             case Some(name) =>
               Ok(NewAccount(GitHubEmail(p), p.username, None, Some(GitHubFirstName(name, p.username)),
                             Some(GitHubLastName(name)), p.photo, GitHub, Some(p.id))))
  }

  /** A GitHub account created without an email gets `<username>@github.local`; an
      existing email is used as it is. */
  /** The strategy callback run against the live repository: look up, then update or create. */
  method ResolveIdentity(store: AccountStore, id: Identity, now: int) returns (r: Result<Account, OAuthError>)
    requires store.Valid()
    modifies store
    ensures store.Valid()
    ensures Resolved(store.State(), r) == Resolve(old(store.State()), id, now)
  {
    var found := FirstIndex(store.accounts, Query(id));
    match found
    case Some(k) =>
      var user := store.accounts[k];
      if Truthy(user.providerId) {
        return Ok(user);
      }
      if id.photo.Err? {
        return Err(id.photo.error);
      }
      FindOwnId(store.accounts, k);
      user := store.Update(user.id, id.provider, id.subject, id.photo.value);
      r := Ok(user);
    case None =>
      match id.row
      case Err(e) =>
        r := Err(e);
      case Ok(data) =>
        var created := store.Create(data, now);
        match created
        case Ok(user) => r := Ok(user);
        case Err(_) => r := Err(RepositoryRejected);
  }

  /** The Google strategy callback. */
  method GoogleCallback(store: AccountStore, p: GoogleProfile, now: int) returns (r: Result<Account, OAuthError>)
    requires store.Valid()
    modifies store
    ensures store.Valid()
    ensures GoogleIdentity(p).Err? ==> store.State() == old(store.State()) && r == Err(ProfileUnreadable)
    ensures GoogleIdentity(p).Ok? ==>
              Resolved(store.State(), r) == Resolve(old(store.State()), GoogleIdentity(p).value, now)
  {
    match GoogleIdentity(p)
    case Err(e) =>
      r := Err(e);
    case Ok(id) =>
      r := ResolveIdentity(store, id, now);
  }

  /** The GitHub strategy callback. */
  method GitHubCallback(store: AccountStore, p: GitHubProfile, now: int) returns (r: Result<Account, OAuthError>)
    requires store.Valid()
    modifies store
    ensures store.Valid()
    ensures Resolved(store.State(), r) == Resolve(old(store.State()), GitHubIdentity(p), now)
  {
    r := ResolveIdentity(store, GitHubIdentity(p), now);
  }

  /** Where the `/callback` route sends the browser. */
  datatype Redirect =
    | ToDashboard(token: Claims, user: PublicUser)   // `/dashboard?token=...&user=...`
    | ToLogin                                        // `failureRedirect`
    | ServerError                                    // `done(error)`

  /** The callback route: the provider refusing the login redirects to the login page; a
      resolved account gets a 24-hour token and its public projection. */
  function CallbackRedirect(resolved: Option<Result<Account, OAuthError>>, now: int): (r: Redirect)
    ensures resolved.None? <==> r == ToLogin
    ensures r.ToDashboard? <==> resolved.Some? && resolved.value.Ok?
    ensures r.ToDashboard? ==>
              && r.token.userId == resolved.value.value.id && r.token.exp == now + Lifetime
              && r.user == PublicView(resolved.value.value)
  {
    match resolved
    case None => ToLogin
    case Some(Err(_)) => ServerError
    case Some(Ok(a)) => ToDashboard(Issue(a.id, now), PublicView(a))
  }
}
