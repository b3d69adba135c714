/**
 * The account records and the repository that holds them.
 *
 * The repository stands in for the Prisma `user` table the backend queries: an
 * ordered collection of accounts, a counter for the auto-incremented id, unique
 * constraints on `email` and `username`, and the four query shapes the routes use.
 * `findFirst` and `findUnique` return the first matching record in store order.
 */
module Accounts {
  import opened Wrappers

  datatype Provider = Local | Google | GitHub

  /** bcrypt reads at most this many bytes of a password; the rest is ignored. */
  const MaxKeyLength: nat := 72

  /** The part of a password bcrypt hashes: its first 72 characters (bytes for ASCII text). */
  function KeyOf(password: string): (k: string)
    ensures |k| == (if |password| <= MaxKeyLength then |password| else MaxKeyLength)
    ensures k == password[..|k|]
  {
    if |password| <= MaxKeyLength then password else password[..MaxKeyLength]
  }

  /** A bcrypt digest as a symbolic term: it is made only by `Hash` and inspected only by
      `Compare`, so it matches exactly the passwords that share its key. */
  datatype Digest = Bcrypt(cost: nat, key: string)

  /** The salt rounds passed to `bcrypt.hash`. */
  const SaltRounds: nat := 10

  /** `bcrypt.hash(password, 10)`. */
  function Hash(password: string): (d: Digest)
    ensures Compare(password, d)
    ensures forall other :: Compare(other, d) <==> KeyOf(other) == KeyOf(password)
    ensures |password| < MaxKeyLength ==> forall other :: Compare(other, d) ==> other == password
  {
    Bcrypt(SaltRounds, KeyOf(password))
  }

  /** `bcrypt.compare(password, digest)`. */
  predicate Compare(password: string, digest: Digest) {
    KeyOf(password) == digest.key
  }

  /** Two passwords that agree on their first 72 characters verify against each other's digest. */
  lemma LongPasswordsCollide()
    ensures var a := seq(MaxKeyLength, i => 'a') + "X";
            var b := seq(MaxKeyLength, i => 'a') + "Y";
            a != b && Compare(b, Hash(a)) && Compare(a, Hash(b))
  {
    var p := seq(MaxKeyLength, i => 'a');
    var a := p + "X";
    var b := p + "Y";
    assert a[MaxKeyLength] != b[MaxKeyLength];
    assert KeyOf(a) == p == KeyOf(b);
  }

  /** One row of the user table. `None` is a column left `null`. */
  datatype Account = Account(
    id: nat,
    email: string,
    username: string,
    password: Option<Digest>,
    firstName: Option<string>,
    lastName: Option<string>,
    avatar: Option<string>,
    provider: Provider,
    providerId: Option<string>,
    createdAt: int)

  /** The `data` of a `prisma.user.create` call; a field passed as `undefined` is `None`. */
  datatype NewAccount = NewAccount(
    email: string,
    username: string,
    password: Option<Digest>,
    firstName: Option<string>,
    lastName: Option<string>,
    avatar: Option<string>,
    provider: Provider,
    providerId: Option<string>)

  /** The `where` filters the routes pass to `findFirst` / `findUnique`. */
  datatype Where =
    | EmailOrUsername(email: string, username: string)     // register: OR [{email}, {username}]
    | EmailIs(email: string)                               // login: findUnique {email}
    | IdIs(id: nat)                                        // profile and update: {id}
    | EmailOrIdentity(maybeEmail: Option<string>, provider: Provider, subject: string)
                                                           // OAuth: OR [{email}, {providerId, provider}]

  /** Whether an account satisfies a filter. An absent email in the OAuth filter matches nothing. */
  predicate Satisfies(a: Account, w: Where) {
    match w
    case EmailOrUsername(e, u) => a.email == e || a.username == u
    case EmailIs(e) => a.email == e
    case IdIs(id) => a.id == id
    case EmailOrIdentity(e, p, s) =>
      (e.Some? && a.email == e.value) || (a.providerId == Some(s) && a.provider == p)
  }

  /** The index of the first account satisfying `w`, if any. */
  function FirstIndex(accounts: seq<Account>, w: Where): (r: Option<nat>)
    ensures r.Some? ==> r.value < |accounts| && Satisfies(accounts[r.value], w)
    ensures r.Some? ==> forall j :: 0 <= j < r.value ==> !Satisfies(accounts[j], w)
    ensures r.None? <==> forall j :: 0 <= j < |accounts| ==> !Satisfies(accounts[j], w)
    decreases |accounts|
  {
    if |accounts| == 0 then None
    else if Satisfies(accounts[0], w) then Some(0)
    else
      match FirstIndex(accounts[1..], w)
      case None => None
      case Some(k) => Some(k + 1)
  }

  /** The repository's contents: the rows in insertion order and the next id to assign. */
  datatype Db = Db(accounts: seq<Account>, nextId: nat)

  predicate EmailsUnique(accounts: seq<Account>) {
    forall i, j :: 0 <= i < j < |accounts| ==> accounts[i].email != accounts[j].email
  }

  predicate UsernamesUnique(accounts: seq<Account>) {
    forall i, j :: 0 <= i < j < |accounts| ==> accounts[i].username != accounts[j].username
  }

  predicate IdsUnique(accounts: seq<Account>) {
    forall i, j :: 0 <= i < j < |accounts| ==> accounts[i].id != accounts[j].id
  }

  /** The repository's constraints: unique email, unique username, unique ids all below the counter. */
  predicate ValidDb(db: Db) {
    && EmailsUnique(db.accounts)
    && UsernamesUnique(db.accounts)
    && IdsUnique(db.accounts)
    && forall i :: 0 <= i < |db.accounts| ==> db.accounts[i].id < db.nextId
  }

  /** What `prisma.user.create` stores: the supplied fields, a fresh id and the creation time. */
  function Stored(id: nat, data: NewAccount, now: int): Account {
    Account(id, data.email, data.username, data.password, data.firstName, data.lastName,
            data.avatar, data.provider, data.providerId, now)
  }

  datatype StoreError = UniqueConstraintViolation

  datatype Created = Created(db: Db, result: Result<Account, StoreError>)

  /** `prisma.user.create`: the unique indexes on email and username reject a clashing row;
      otherwise the row is appended under the next id. */
  function CreateRow(db: Db, data: NewAccount, now: int): (out: Created)
    ensures out.result.Err? <==> exists i :: 0 <= i < |db.accounts| && Satisfies(db.accounts[i], EmailOrUsername(data.email, data.username))
    ensures out.result.Err? ==> out.db == db
    ensures out.result.Ok? ==>
              && out.result.value == Stored(db.nextId, data, now)
              && out.db == Db(db.accounts + [out.result.value], db.nextId + 1)
    ensures ValidDb(db) ==> ValidDb(out.db)
  {
    if FirstIndex(db.accounts, EmailOrUsername(data.email, data.username)).Some? then
      Created(db, Err(UniqueConstraintViolation))
    else
      var a := Stored(db.nextId, data, now);
      Created(Db(db.accounts + [a], db.nextId + 1), Ok(a))
  }

  /** The `data` of the OAuth backfill update applied to one row: provider slot and avatar,
      where an `undefined` avatar leaves the column as it was. */
  function Linked(a: Account, provider: Provider, subject: string, avatar: Option<string>): (b: Account)
    ensures b.id == a.id && b.email == a.email && b.username == a.username && b.password == a.password
    ensures b.firstName == a.firstName && b.lastName == a.lastName && b.createdAt == a.createdAt
    ensures b.provider == provider && b.providerId == Some(subject)
    ensures b.avatar == (if avatar.Some? then avatar else a.avatar)
  {
    a.(provider := provider, providerId := Some(subject), avatar := if avatar.Some? then avatar else a.avatar)
  }

  /** Only email and username are constrained, so backfilling the provider slot of row `k`
      keeps the repository valid. */
  lemma {:induction false} LinkPreservesValid(db: Db, k: nat, provider: Provider, subject: string, avatar: Option<string>)
    requires ValidDb(db) && k < |db.accounts|
    ensures ValidDb(Db(db.accounts[k := Linked(db.accounts[k], provider, subject, avatar)], db.nextId))
  {
    var accounts := db.accounts[k := Linked(db.accounts[k], provider, subject, avatar)];
    assert forall i :: 0 <= i < |accounts| ==>
      accounts[i].email == db.accounts[i].email && accounts[i].username == db.accounts[i].username
      && accounts[i].id == db.accounts[i].id;
  }

  /** With unique ids, looking a row up by its own id finds that row. */
  lemma {:induction false} FindOwnId(accounts: seq<Account>, k: nat)
    requires IdsUnique(accounts) && k < |accounts|
    ensures FirstIndex(accounts, IdIs(accounts[k].id)) == Some(k)
  {
    var r := FirstIndex(accounts, IdIs(accounts[k].id));
    assert Satisfies(accounts[k], IdIs(accounts[k].id));
  }

  /** With unique emails, looking a row up by its own email finds that row. */
  lemma {:induction false} FindOwnEmail(accounts: seq<Account>, k: nat)
    requires EmailsUnique(accounts) && k < |accounts|
    ensures FirstIndex(accounts, EmailIs(accounts[k].email)) == Some(k)
  {
    var r := FirstIndex(accounts, EmailIs(accounts[k].email));
    assert Satisfies(accounts[k], EmailIs(accounts[k].email));
  }

  /** The repository as the backend holds it: one mutable table. */
  class AccountStore {
    var accounts: seq<Account>
    var nextId: nat

    function State(): Db
      reads this
    {
      Db(accounts, nextId)
    }

    ghost predicate Valid()
      reads this
    {
      ValidDb(State())
    }

    /** An empty table whose auto-increment starts at 1. */
    constructor ()
      ensures Valid() && accounts == [] && nextId == 1
    {
      accounts := [];
      nextId := 1;
    }

    /** `prisma.user.create({data})`. */
    method Create(data: NewAccount, now: int) returns (r: Result<Account, StoreError>)
      requires Valid()
      modifies this
      ensures Valid()
      ensures Created(State(), r) == CreateRow(old(State()), data, now)
    {
      if FirstIndex(accounts, EmailOrUsername(data.email, data.username)).Some? {
        r := Err(UniqueConstraintViolation);
      } else {
        var a := Stored(nextId, data, now);
        accounts := accounts + [a];
        nextId := nextId + 1;
        r := Ok(a);
      }
    }

    /** `prisma.user.update({where: {id}, data: {providerId, provider, avatar}})` on an existing row. */
    method Update(id: nat, provider: Provider, subject: string, avatar: Option<string>) returns (a: Account)
      requires Valid()
      requires exists i :: 0 <= i < |accounts| && accounts[i].id == id
      modifies this
      ensures Valid()
      ensures var k := FirstIndex(old(accounts), IdIs(id)).value;
              && accounts == old(accounts)[k := Linked(old(accounts)[k], provider, subject, avatar)]
              && a == accounts[k]
      ensures nextId == old(nextId)
    {
      var k := FirstIndex(accounts, IdIs(id)).value;
      LinkPreservesValid(State(), k, provider, subject, avatar);
      a := Linked(accounts[k], provider, subject, avatar);
      accounts := accounts[k := a];
    }
  }
}
