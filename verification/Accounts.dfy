/** The tables `users` and `user_oauth` of backend/storage/user.go as values,
    the statements that change them, and what linking an outside identity
    means over whole runs of such statements. */
module Accounts {
  import opened Basics

  datatype Account = Account(
    id: string, email: string, name: string, role: string, isVerified: bool, createdAt: Time)

  datatype Link = Link(userId: string, provider: string, oauthId: string)

  /** Rows by primary key. */
  datatype Db = Db(users: map<string, Account>, links: map<string, Link>)

  const EMPTY := Db(map[], map[])

  // ------------------------------------------------------------- columns

  const TEXT_WIDTH: nat := 255
  const PROVIDER_WIDTH: nat := 50

  const ROLES := {"user", "admin"}

  /** The row the columns of `users` make of an account, if they take it; no
      role means an ordinary user. */
  function StoredUser(user: Account): Option<Account> {
    var email, name := Column(user.email, TEXT_WIDTH), Column(user.name, TEXT_WIDTH);
    var role := if user.role == "" then "user" else user.role;
    if email.Some? && name.Some? && role in ROLES then
      Some(user.(email := email.value, name := name.value, role := role))
    else None
  }

  /** The row the columns of `user_oauth` make of a link, if they take it. */
  function StoredLink(link: Link): Option<Link> {
    var provider, oauthId := Column(link.provider, PROVIDER_WIDTH), Column(link.oauthId, TEXT_WIDTH);
    if provider.Some? && oauthId.Some? then Some(Link(link.userId, provider.value, oauthId.value)) else None
  }

  // --------------------------------------------------------- constraints

  ghost predicate UniqueEmails(db: Db) {
    forall a, b | a in db.users && b in db.users && db.users[a].email == db.users[b].email :: a == b
  }

  predicate IsLink(l: Link, provider: string, oauthId: string) {
    l.provider == provider && l.oauthId == oauthId
  }

  ghost predicate UniqueLinks(db: Db) {
    forall k, l | k in db.links && l in db.links && IsLink(db.links[k], db.links[l].provider, db.links[l].oauthId) ::
      k == l
  }

  /** What the schema promises: keys, widths, unique columns, the foreign key. */
  ghost predicate Sound(db: Db) {
    && (forall id | id in db.users :: db.users[id].id == id && StoredUser(db.users[id]) == Some(db.users[id]))
    && UniqueEmails(db) && UniqueLinks(db)
    && (forall l | l in db.links :: db.links[l].userId in db.users && StoredLink(db.links[l]) == Some(db.links[l]))
  }

  // -------------------------------------------------------------- lookups

  predicate HasEmail(db: Db, email: string) {
    exists id | id in db.users :: db.users[id].email == email
  }

  predicate HasLink(db: Db, provider: string, oauthId: string) {
    exists l | l in db.links :: IsLink(db.links[l], provider, oauthId)
  }

  /** `GetUserByEmail`: the query is lower-cased, the stored column is not. */
  ghost function ByEmail(db: Db, email: string): (r: Option<string>)
    ensures r.Some? ==> r.value in db.users && db.users[r.value].email == ToLower(email)
    ensures r.None? ==> !HasEmail(db, ToLower(email))
  {
    if HasEmail(db, ToLower(email)) then
      var id :| id in db.users && db.users[id].email == ToLower(email);
      Some(id)
    else None
  }

  /** `GetUserByOAuth`: the join of a link with its user. */
  ghost function ByOAuth(db: Db, provider: string, oauthId: string): (r: Option<string>)
    ensures r.Some? ==> exists l | l in db.links :: db.links[l] == Link(r.value, provider, oauthId)
    ensures r.Some? ==> r.value in db.users
    ensures r.None? ==>
              forall l | l in db.links && IsLink(db.links[l], provider, oauthId) :: db.links[l].userId !in db.users
  {
    if l :| l in db.links && IsLink(db.links[l], provider, oauthId) && db.links[l].userId in db.users then
      Some(db.links[l].userId)
    else None
  }

  // ----------------------------------------------------------- statements

  /** `CreateUser`: fails for a value a column refuses, and for an id or an
      email that is taken. */
  function CreateUser(db: Db, user: Account): (Db, Result<()>) {
    var row := StoredUser(user);
    if row.None? then (db, Err(ValueRefused))
    else if user.id in db.users || HasEmail(db, row.value.email) then (db, Err(UserAlreadyExists))
    else (db.(users := db.users[user.id := row.value]), Ok(()))
  }

  /** `DeleteUser`: the links go with the user; rolled back if there is none. */
  function DeleteUser(db: Db, id: string): (Db, Result<()>) {
    if id !in db.users then (db, Err(UserNotFound))
    else (Db(db.users - {id}, map l | l in db.links && db.links[l].userId != id :: db.links[l]), Ok(()))
  }

  /** `UpdateUser`: neither the id nor the email is a column it sets. */
  function UpdateUser(db: Db, id: string, name: string, role: string): (Db, Result<()>) {
    var stored := Column(name, TEXT_WIDTH);
    if stored.None? || role !in ROLES then (db, Err(ValueRefused))
    else if id !in db.users then (db, Err(UserNotFound))
    else (db.(users := db.users[id := db.users[id].(name := stored.value, role := role)]), Ok(()))
  }

  /** `AddUserOAuth`: a second link of the same identity does nothing; a value
      a column refuses, a duplicate row id or a missing user is an error. */
  function AddUserOAuth(db: Db, rowId: string, link: Link): (Db, Result<()>) {
    var row := StoredLink(link);
    if row.None? then (db, Err(ValueRefused))
    else if rowId in db.links then (db, Err(UserAlreadyExists))
    else if HasLink(db, row.value.provider, row.value.oauthId) then (db, Ok(()))
    else if link.userId !in db.users then (db, Err(UserNotFound))
    else (db.(links := db.links[rowId := row.value]), Ok(()))
  }

  function RemoveUserOAuth(db: Db, userId: string, provider: string): Db {
    db.(links :=
          map l | l in db.links && !(db.links[l].userId == userId && db.links[l].provider == provider) :: db.links[l])
  }

  /** What the statements on users take, and what they leave: a row is cut to its
      columns, no role means an ordinary user, no other row moves. */
  lemma UserStatements(db: Db, user: Account, name: string, role: string)
    ensures var (db', r) := CreateUser(db, user);
            var email, stored := Column(user.email, 255), Column(user.name, 255);
            && (r.Ok? <==> && email.Some? && stored.Some? && user.role in {"", "user", "admin"}
                           && user.id !in db.users
                           && forall u | u in db.users :: db.users[u].email != email.value)
            && (r.Err? ==> db' == db)
            && (r.Ok? ==>
                  && db'.links == db.links && db'.users.Keys == db.users.Keys + {user.id}
                  && (forall u | u in db.users :: db'.users[u] == db.users[u])
                  && db'.users[user.id] == user.(email := email.value, name := stored.value,
                                                 role := if user.role == "admin" then "admin" else "user"))
    ensures var (db', r) := UpdateUser(db, user.id, name, role);
            && (r.Ok? <==> Column(name, 255).Some? && role in {"user", "admin"} && user.id in db.users)
            && (r.Err? ==> db' == db) && (r.Err? && Column(name, 255).Some? && role in {"user", "admin"} ==>
                                            r == Err(UserNotFound))
            && (r.Ok? ==>
                  && db'.links == db.links && db'.users.Keys == db.users.Keys
                  && (forall u | u in db.users && u != user.id :: db'.users[u] == db.users[u])
                  && db'.users[user.id] == db.users[user.id].(name := Column(name, 255).value, role := role))
    ensures var (db', r) := DeleteUser(db, user.id);
            && (r.Ok? <==> user.id in db.users) && (r.Err? ==> db' == db)
            && (r.Ok? ==>
                  && db'.users == db.users - {user.id}
                  && (forall l :: l in db'.links <==> l in db.links && db.links[l].userId != user.id)
                  && (forall l | l in db'.links :: db'.links[l] == db.links[l]))
  {
  }

  /** The statements on links: one identity is linked once, whoever asks; all
      the links of a user to a provider go together. */
  lemma LinkStatements(db: Db, rowId: string, link: Link)
    requires Fits(link.provider, 50) && Fits(link.oauthId, 255)
    ensures var (db', r) := AddUserOAuth(db, rowId, link);
            var linked := exists l | l in db.links ::
                            db.links[l].provider == link.provider && db.links[l].oauthId == link.oauthId;
            && db'.users == db.users
            && (r.Ok? <==> rowId !in db.links && (linked || link.userId in db.users))
            && db'.links == (if r.Ok? && !linked then db.links[rowId := link] else db.links)
    ensures var db' := RemoveUserOAuth(db, link.userId, link.provider);
            && db'.users == db.users
            && (forall l :: l in db'.links <==>
                  l in db.links && (db.links[l].userId != link.userId || db.links[l].provider != link.provider))
            && (forall l | l in db'.links :: db'.links[l] == db.links[l])
  {
  }

  // ----------------------------------------------------------------- runs

  datatype Change =
    | Create(user: Account)
    | Drop(userId: string)
    | Edit(userId: string, name: string, role: string)
    | Attach(rowId: string, link: Link)
    | Detach(userId: string, provider: string)

  function Step(db: Db, c: Change): Db {
    match c
    case Create(user) => CreateUser(db, user).0
    case Drop(id) => DeleteUser(db, id).0
    case Edit(id, name, role) => UpdateUser(db, id, name, role).0
    case Attach(rowId, link) => AddUserOAuth(db, rowId, link).0
    case Detach(id, provider) => RemoveUserOAuth(db, id, provider)
  }

  function Run(db: Db, changes: seq<Change>): Db {
    if changes == [] then db else Step(Run(db, changes[..|changes| - 1]), changes[|changes| - 1])
  }

  lemma UsersChangeSound(db: Db, c: Change)
    requires Sound(db) && (c.Create? || c.Drop? || c.Edit?)
    ensures Sound(Step(db, c))
  {
    hide AddUserOAuth, RemoveUserOAuth, StoredLink;
  }

  lemma LinksChangeSound(db: Db, c: Change)
    requires Sound(db) && (c.Attach? || c.Detach?)
    ensures Sound(Step(db, c))
  {
    hide CreateUser, UpdateUser, DeleteUser, StoredUser;
  }

  lemma StepSound(db: Db, c: Change)
    requires Sound(db)
    ensures Sound(Step(db, c))
  {
    hide Step, Sound;
    if c.Attach? || c.Detach? {
      LinksChangeSound(db, c);
    } else {
      UsersChangeSound(db, c);
    }
  }

  /** In every state of every run an identity is linked at most once, and
      always to an existing user. */
  lemma {:induction false} RunSound(db: Db, changes: seq<Change>)
    requires Sound(db)
    ensures Sound(Run(db, changes))
  {
    hide Step, Sound;
    if changes != [] {
      RunSound(db, changes[..|changes| - 1]);
      StepSound(Run(db, changes[..|changes| - 1]), changes[|changes| - 1]);
    }
  }

  lemma LinkDecides(db: Db, l: string)
    requires Sound(db) && l in db.links
    ensures ByOAuth(db, db.links[l].provider, db.links[l].oauthId) == Some(db.links[l].userId)
  {
  }

  predicate Unlinks(c: Change, userId: string, provider: string) {
    c == Drop(userId) || c == Detach(userId, provider)
  }

  /** One statement leaves a link where it is, unless it deletes the user or
      takes the link away, and then nobody has it. */
  lemma LinkStep(db: Db, c: Change, provider: string, oauthId: string)
    requires Sound(db) && ByOAuth(db, provider, oauthId).Some?
    ensures var u := ByOAuth(db, provider, oauthId).value;
            ByOAuth(Step(db, c), provider, oauthId) == if Unlinks(c, u, provider) then None else Some(u)
  {
    hide Sound, HasEmail, HasLink;
    var u := ByOAuth(db, provider, oauthId).value;
    var l :| l in db.links && db.links[l] == Link(u, provider, oauthId);
    var db' := Step(db, c);
    StepSound(db, c);
    if Unlinks(c, u, provider) {
      if ByOAuth(db', provider, oauthId).Some? {
        var k :| k in db'.links && db'.links[k] == Link(ByOAuth(db', provider, oauthId).value, provider, oauthId);
        LinkDecides(db, k);
      }
    } else {
      assert l in db'.links && db'.links[l] == db.links[l];
      LinkDecides(db', l);
    }
  }

  /** A linked identity never moves to another user: over any run it stays
      linked to the same one unless some statement unlinked it. */
  lemma {:induction false} LinkNeverMoves(db: Db, changes: seq<Change>, provider: string, oauthId: string)
    requires Sound(db) && ByOAuth(db, provider, oauthId).Some?
    requires forall c | c in changes :: !Unlinks(c, ByOAuth(db, provider, oauthId).value, provider)
    ensures ByOAuth(Run(db, changes), provider, oauthId) == ByOAuth(db, provider, oauthId)
  {
    hide Step, Sound, ByOAuth, Unlinks;
    if changes != [] {
      LinkNeverMoves(db, changes[..|changes| - 1], provider, oauthId);
      RunSound(db, changes[..|changes| - 1]);
      assert changes[|changes| - 1] in changes;
      LinkStep(Run(db, changes[..|changes| - 1]), changes[|changes| - 1], provider, oauthId);
    }
  }

  // -------------------------------------------------------- signing in

  /** An identity as a provider reports it. */
  datatype Identity = Identity(provider: string, oauthId: string, email: string, name: string)

  function NewUser(id: Identity, freshId: string, now: Time): Account {
    Account(freshId, id.email, id.name, "user", true, now)
  }

  /** `GetOrCreateUserByOAuth`: the linked user, else the user of that email,
      else a new one; a failed link is only logged. */
  ghost function GetOrCreate(db: Db, id: Identity, freshId: string, rowId: string, now: Time): (Db, Result<string>) {
    var linked, known := ByOAuth(db, id.provider, id.oauthId), ByEmail(db, id.email);
    if linked.Some? then (db, Ok(linked.value))
    else if known.Some? then (AddUserOAuth(db, rowId, Link(known.value, id.provider, id.oauthId)).0, Ok(known.value))
    else
      var (created, r) := CreateUser(db, NewUser(id, freshId, now));
      if r.Err? then (db, Err(r.error))
      else (AddUserOAuth(created, rowId, Link(freshId, id.provider, id.oauthId)).0, Ok(freshId))
  }

  /** It is made of statements, so every run of them may be run through it. */
  lemma GetOrCreateIsRun(db: Db, id: Identity, freshId: string, rowId: string, now: Time) returns (changes: seq<Change>)
    ensures GetOrCreate(db, id, freshId, rowId, now).0 == Run(db, changes)
    ensures forall c | c in changes :: c.Create? || c.Attach?
  {
    hide AddUserOAuth, CreateUser;
    var linked, known := ByOAuth(db, id.provider, id.oauthId), ByEmail(db, id.email);
    if linked.Some? {
      changes := [];
    } else if known.Some? {
      changes := [Attach(rowId, Link(known.value, id.provider, id.oauthId))];
      assert changes[..0] == [];
    } else if CreateUser(db, NewUser(id, freshId, now)).1.Err? {
      changes := [];
    } else {
      var create, attach := Create(NewUser(id, freshId, now)), Attach(rowId, Link(freshId, id.provider, id.oauthId));
      changes := [create, attach];
      assert changes[..1] == [create] && [create][..0] == [];
      assert Run(db, [create]) == Step(db, create);
    }
  }

  /** The link of the identity is stored as it is. */
  predicate Linkable(id: Identity) {
    Fits(id.provider, PROVIDER_WIDTH) && Fits(id.oauthId, TEXT_WIDTH)
  }

  /** Whoever is returned exists. They have the identity from then on exactly
      when the columns hold it: a link that is refused is only logged, and the
      user is returned all the same. */
  lemma SignedInIsLinkedIff(db: Db, id: Identity, freshId: string, rowId: string, now: Time)
    requires Sound(db) && freshId !in db.users && rowId !in db.links
    ensures var (db', r) := GetOrCreate(db, id, freshId, rowId, now);
            && Sound(db')
            && (r.Ok? ==> r.value in db'.users)
            && (r.Ok? ==> (ByOAuth(db', id.provider, id.oauthId) == Some(r.value) <==> Linkable(id)))
            && (r.Err? ==> db' == db)
  {
    hide Sound, Run, Unlinks;
    var (db', r) := GetOrCreate(db, id, freshId, rowId, now);
    var changes := GetOrCreateIsRun(db, id, freshId, rowId, now);
    RunSound(db, changes);
    if ByOAuth(db', id.provider, id.oauthId).Some? {
      LinksFit(db', id.provider, id.oauthId);
    }
    if r.Ok? && ByOAuth(db, id.provider, id.oauthId).None? && Linkable(id) {
      NoDanglingLink(db, id.provider, id.oauthId);
      assert db'.links[rowId] == Link(r.value, id.provider, id.oauthId);
      LinkDecides(db', rowId);
    }
  }

  lemma LinksFit(db: Db, provider: string, oauthId: string)
    requires Sound(db) && ByOAuth(db, provider, oauthId).Some?
    ensures Fits(provider, PROVIDER_WIDTH) && Fits(oauthId, TEXT_WIDTH)
  {
  }

  lemma NoDanglingLink(db: Db, provider: string, oauthId: string)
    requires Sound(db) && ByOAuth(db, provider, oauthId).None?
    ensures !HasLink(db, provider, oauthId)
  {
  }

  /** A new account is stored so that its email finds it again. */
  predicate FoundAgain(id: Identity) {
    id.email == ToLower(id.email) && |id.email| <= TEXT_WIDTH
  }

  /** A sign-in would make this account. */
  predicate Creatable(db: Db, id: Identity) {
    var row := StoredUser(NewUser(id, "", 0));
    row.Some? && !HasEmail(db, row.value.email)
  }

  lemma CreatableIff(db: Db, id: Identity, freshId: string, now: Time)
    requires freshId !in db.users
    ensures Creatable(db, id) <==> CreateUser(db, NewUser(id, freshId, now)).1.Ok?
  {
  }

  /** Asking twice gives the same answer and adds no rows the second time,
      exactly when no account can be made, the identity can be linked, its email
      is known, or the account made is found by it. */
  lemma GetOrCreateIdempotentIff(db: Db, id: Identity, freshId: string, rowId: string, now: Time,
                                 freshId2: string, rowId2: string, later: Time)
    requires Sound(db) && freshId !in db.users && rowId !in db.links
    requires freshId2 !in db.users && freshId2 != freshId && rowId2 !in db.links && rowId2 != rowId
    ensures var (db', r) := GetOrCreate(db, id, freshId, rowId, now);
            GetOrCreate(db', id, freshId2, rowId2, later) == (db', r)
            <==> !Creatable(db, id) || Linkable(id) || HasEmail(db, ToLower(id.email)) || FoundAgain(id)
  {
    hide Sound, IsLink, HasLink, StoredLink;
    var (db', r) := GetOrCreate(db, id, freshId, rowId, now);
    SignedInIsLinkedIff(db, id, freshId, rowId, now);
    CreatableIff(db, id, freshId, now);
    CreatableIff(db, id, freshId2, later);
    if r.Ok? && !Linkable(id) {
      StillUnlinkable(db, id);
      StillUnlinkable(db', id);
      if ByEmail(db, id.email).Some? {
        assert db'.users == db.users;
        OneUserPerEmail(db', r.value, id.email);
        SecondLinkDoesNothing(db, id, r.value, rowId, rowId2);
      } else {
        CreatedRow(db, id, freshId, rowId, now);
        SecondLinkDoesNothing(CreateUser(db, NewUser(id, freshId, now)).0, id, freshId, rowId, rowId2);
        if FoundAgain(id) {
          OneUserPerEmail(db', freshId, id.email);
        }
      }
    }
  }

  lemma StillUnlinkable(db: Db, id: Identity)
    requires Sound(db) && !Linkable(id)
    ensures ByOAuth(db, id.provider, id.oauthId).None?
  {
    if ByOAuth(db, id.provider, id.oauthId).Some? {
      LinksFit(db, id.provider, id.oauthId);
    }
  }

  /** Linking once more, under another row id, changes nothing. */
  lemma SecondLinkDoesNothing(db: Db, id: Identity, userId: string, rowId: string, rowId2: string)
    requires userId in db.users && rowId !in db.links && rowId2 !in db.links && rowId2 != rowId
    ensures var db' := AddUserOAuth(db, rowId, Link(userId, id.provider, id.oauthId)).0;
            AddUserOAuth(db', rowId2, Link(userId, id.provider, id.oauthId)).0 == db'
  {
    var row := StoredLink(Link(userId, id.provider, id.oauthId));
    var db' := AddUserOAuth(db, rowId, Link(userId, id.provider, id.oauthId)).0;
    if row.Some? && !HasLink(db, row.value.provider, row.value.oauthId) {
      assert IsLink(db'.links[rowId], row.value.provider, row.value.oauthId);
    }
  }

  /** What is stored of an account that a sign-in made. */
  lemma CreatedRow(db: Db, id: Identity, freshId: string, rowId: string, now: Time)
    requires ByOAuth(db, id.provider, id.oauthId).None? && ByEmail(db, id.email).None?
    requires GetOrCreate(db, id, freshId, rowId, now).1.Ok?
    ensures var db' := GetOrCreate(db, id, freshId, rowId, now).0;
            && StoredUser(NewUser(id, freshId, now)).Some?
            && db'.users == db.users[freshId := StoredUser(NewUser(id, freshId, now)).value]
            && HasEmail(db', db'.users[freshId].email)
            && Column(id.email, TEXT_WIDTH) == Some(db'.users[freshId].email)
            && (FoundAgain(id) <==> db'.users[freshId].email == ToLower(id.email))
            && (ByEmail(db', id.email).Some? <==> FoundAgain(id))
  {
    hide HasLink, StoredLink;
    var db' := GetOrCreate(db, id, freshId, rowId, now).0;
    assert db'.users[freshId].email <= id.email;
    assert forall u | u in db.users :: db.users[u].email != ToLower(id.email);
  }

  /** The identity, as the columns store it. */
  function Stored(id: Identity): Option<(string, string)> {
    var link := StoredLink(Link("", id.provider, id.oauthId));
    if link.Some? then Some((link.value.provider, link.value.oauthId)) else None
  }

  /** Two identities not linked yet that report one email sign in as the same
      user exactly when the lower-case form of the email is already some
      user's, or the first sign-in makes an account and either the account is
      found by that email or the identity it stores is the other one: accounts
      are looked up in lower case but created as spelled. */
  lemma SameEmailSameUserIff(db: Db, a: Identity, b: Identity, id1: string, row1: string, now: Time,
                             id2: string, row2: string, later: Time)
    requires Sound(db) && id1 !in db.users && row1 !in db.links && id2 !in db.users && id2 != id1
    requires ByOAuth(db, a.provider, a.oauthId).None? && ByOAuth(db, b.provider, b.oauthId).None?
    requires a.email == b.email
    ensures var (db', first) := GetOrCreate(db, a, id1, row1, now);
            var second := GetOrCreate(db', b, id2, row2, later).1;
            (first.Ok? && second == first) <==>
              || HasEmail(db, ToLower(a.email))
              || (Creatable(db, a) && (FoundAgain(a) || Stored(a) == Some((b.provider, b.oauthId))))
  {
    hide Sound, HasLink, StoredUser, StoredLink;
    var e := a.email;
    var (db', first) := GetOrCreate(db, a, id1, row1, now);
    SignedInIsLinkedIff(db, a, id1, row1, now);
    WhoHasTheOther(db, a, id1, row1, now, b.provider, b.oauthId);
    CreatableIff(db, a, id1, now);
    if HasEmail(db, ToLower(e)) {
      assert db'.users == db.users;
      OneUserPerEmail(db', ByEmail(db, e).value, e);
    } else if first.Ok? {
      CreatedRow(db, a, id1, row1, now);
      if FoundAgain(a) {
        OneUserPerEmail(db', id1, e);
      } else {
        SecondTaken(db', b, id1, id2, later);
      }
    }
  }

  /** The email of an account just made is taken for the next that reports it. */
  lemma SecondTaken(db: Db, b: Identity, id1: string, id2: string, later: Time)
    requires id1 in db.users && Column(b.email, TEXT_WIDTH) == Some(db.users[id1].email)
    ensures CreateUser(db, NewUser(b, id2, later)).1.Err?
  {
    assert HasEmail(db, db.users[id1].email);
  }

  lemma OneUserPerEmail(db: Db, userId: string, email: string)
    requires Sound(db) && userId in db.users && db.users[userId].email == ToLower(email)
    ensures ByEmail(db, email) == Some(userId)
  {
  }

  /** After a first sign-in an identity unlinked before belongs to the user
      signed in, if it is what was stored, and else to nobody. */
  lemma WhoHasTheOther(db: Db, a: Identity, freshId: string, rowId: string, now: Time, provider: string,
                       oauthId: string)
    requires Sound(db) && freshId !in db.users && rowId !in db.links
    requires ByOAuth(db, a.provider, a.oauthId).None? && ByOAuth(db, provider, oauthId).None?
    ensures var (db', r) := GetOrCreate(db, a, freshId, rowId, now);
            ByOAuth(db', provider, oauthId) ==
              if r.Ok? && Stored(a) == Some((provider, oauthId)) then Some(r.value) else None
  {
    hide HasEmail, UniqueEmails, UniqueLinks, StoredUser, Run, Unlinks;
    var (db', r) := GetOrCreate(db, a, freshId, rowId, now);
    var changes := GetOrCreateIsRun(db, a, freshId, rowId, now);
    RunSound(db, changes);
    NoDanglingLink(db, provider, oauthId);
    if r.Ok? && Stored(a) == Some((provider, oauthId)) {
      assert db'.links[rowId] == Link(r.value, provider, oauthId);
      LinkDecides(db', rowId);
    } else {
      assert !HasLink(db', provider, oauthId);
    }
  }

  /** A user can be found by the email stored for them exactly when it is
      lower-case: `GetUserByEmail` is also how a password login starts. */
  lemma FoundByOwnEmailIff(db: Db, userId: string)
    requires Sound(db) && userId in db.users
    ensures ByEmail(db, db.users[userId].email) == Some(userId) <==>
              db.users[userId].email == ToLower(db.users[userId].email)
  {
    if db.users[userId].email == ToLower(db.users[userId].email) {
      OneUserPerEmail(db, userId, db.users[userId].email);
    }
  }

  // --------------------------------------------------- two such sign-ins

  lemma EmptyTables(provider: string, oauthId: string)
    ensures Sound(EMPTY) && ByOAuth(EMPTY, provider, oauthId) == None
  {
  }

  lemma MixedCase()
    ensures ToLower("Ann@x.io") != "Ann@x.io"
  {
    assert ToLower("Ann@x.io")[0] == 'a';
  }

  /** An identity of 256 characters is never linked, and with an email in mixed
      case its second sign-in fails. */
  lemma LongIdentityLocksOut(now: Time, later: Time)
    ensures var id := Identity("github", seq(256, _ => 'x'), "Ann@x.io", "Ann");
            var (db, first) := GetOrCreate(EMPTY, id, "user-1", "link-1", now);
            && first == Ok("user-1") && ByOAuth(db, id.provider, id.oauthId) == None
            && GetOrCreate(db, id, "user-2", "link-2", later).1.Err?
  {
    hide Sound, HasLink, StoredLink, Run;
    var id := Identity("github", seq(256, _ => 'x'), "Ann@x.io", "Ann");
    var db := GetOrCreate(EMPTY, id, "user-1", "link-1", now).0;
    EmptyTables(id.provider, id.oauthId);
    MixedCase();
    CreatableIff(EMPTY, id, "user-1", now);
    SignedInIsLinkedIff(EMPTY, id, "user-1", "link-1", now);
    StillUnlinkable(db, id);
    CreatedRow(EMPTY, id, "user-1", "link-1", now);
    SecondTaken(db, id, "user-1", "user-2", later);
  }

  /** Two providers that report one email in mixed case: the second sign-in
      does not reach the user of the first. */
  lemma OneEmailTwoAnswers(now: Time, later: Time)
    ensures var a, b := Identity("google", "1", "Ann@x.io", "Ann"), Identity("github", "1", "Ann@x.io", "Ann");
            var (db, first) := GetOrCreate(EMPTY, a, "user-1", "link-1", now);
            first == Ok("user-1") && GetOrCreate(db, b, "user-2", "link-2", later).1 != first
  {
    hide Sound, HasLink, Run;
    var a, b := Identity("google", "1", "Ann@x.io", "Ann"), Identity("github", "1", "Ann@x.io", "Ann");
    EmptyTables("google", "1");
    EmptyTables("github", "1");
    MixedCase();
    CreatableIff(EMPTY, a, "user-1", now);
    SameEmailSameUserIff(EMPTY, a, b, "user-1", "link-1", now, "user-2", "link-2", later);
  }

  // ------------------------------------------------------ who is signed in

  /** The user the identity is linked to; else the user of the email in lower
      case, who is left as they are; else a new one, an ordinary user with what
      the provider reports. */
  lemma WhoIsSignedIn(db: Db, id: Identity, freshId: string, rowId: string, now: Time)
    requires Sound(db) && freshId !in db.users && rowId !in db.links
    ensures var (db', r) := GetOrCreate(db, id, freshId, rowId, now);
            && (forall l | l in db.links
                           && db.links[l].provider == id.provider && db.links[l].oauthId == id.oauthId ::
                  r == Ok(db.links[l].userId) && db' == db)
            && ((forall l | l in db.links ::
                  db.links[l].provider != id.provider || db.links[l].oauthId != id.oauthId) ==>
                  && (forall u | u in db.users && db.users[u].email == ToLower(id.email) ::
                        r == Ok(u) && db'.users == db.users)
                  && ((forall u | u in db.users :: db.users[u].email != ToLower(id.email)) ==>
                        (r.Err? || r == Ok(freshId))
                        && (r.Ok? ==>
                              && db'.users.Keys == db.users.Keys + {freshId}
                              && (forall u | u in db.users :: db'.users[u] == db.users[u])
                              && var made := db'.users[freshId];
                                 made.id == freshId && made.email <= id.email && made.name <= id.name
                                 && made.role == "user" && made.isVerified && made.createdAt == now)))
  {
    hide AddUserOAuth, UniqueEmails;
    forall db0, l
      ensures AddUserOAuth(db0, rowId, l).0.users == db0.users
    {
      LinkingKeepsUsers(db0, rowId, l);
    }
    if ByEmail(db, id.email).Some? {
      SameEmailSameRow(db, ByEmail(db, id.email).value, id.email);
    }
    forall l | l in db.links && db.links[l].provider == id.provider && db.links[l].oauthId == id.oauthId
      ensures ByOAuth(db, id.provider, id.oauthId) == Some(db.links[l].userId)
    {
      LinkDecides(db, l);
    }
  }

  lemma LinkingKeepsUsers(db: Db, rowId: string, link: Link)
    ensures AddUserOAuth(db, rowId, link).0.users == db.users
  {
  }

  lemma SameEmailSameRow(db: Db, userId: string, email: string)
    requires Sound(db) && userId in db.users && db.users[userId].email == ToLower(email)
    ensures forall u | u in db.users && db.users[u].email == ToLower(email) :: u == userId
  {
  }
}
