/** The storage calls of backend/storage/user.go over tables held in place:
    every statement reads or replaces rows, and `GetOrCreateUserByOAuth`
    issues them one after the other. Each is tied to module `Accounts`. */
module AccountStore {
  import opened Accounts
  import opened Basics

  class UserTables {
    var users: map<string, Account>
    var links: map<string, Link>

    constructor ()
      ensures Rows() == EMPTY && Sound(Rows())
    {
      users, links := map[], map[];
    }

    function Rows(): Db
      reads this
    {
      Db(users, links)
    }

    method CreateUser(user: Account) returns (r: Result<()>)
      modifies this`users
      ensures (Rows(), r) == Accounts.CreateUser(old(Rows()), user)
    {
      var row := StoredUser(user);
      if row.None? {
        return Err(ValueRefused);
      }
      if user.id in users || exists id | id in users :: users[id].email == row.value.email {
        return Err(UserAlreadyExists);
      }
      users := users[user.id := row.value];
      return Ok(());
    }

    method GetUserByEmail(email: string) returns (r: Result<Account>)
      requires Sound(Rows())
      ensures r == match ByEmail(Rows(), email) case Some(id) => Ok(users[id]) case None => Err(UserNotFound)
    {
      var query := ToLower(email);
      if id :| id in users && users[id].email == query {
        OneUserPerEmail(Rows(), id, email);
        return Ok(users[id]);
      }
      return Err(UserNotFound);
    }

    method GetUserByOAuth(provider: string, oauthId: string) returns (r: Result<Account>)
      requires Sound(Rows())
      ensures var linked := ByOAuth(Rows(), provider, oauthId);
              r == if linked.Some? then Ok(users[linked.value]) else Err(UserNotFound)
    {
      if l :| l in links && links[l].provider == provider && links[l].oauthId == oauthId {
        LinkDecides(Rows(), l);
        return Ok(users[links[l].userId]);
      }
      return Err(UserNotFound);
    }

    method AddUserOAuth(rowId: string, userId: string, provider: string, oauthId: string) returns (r: Result<()>)
      modifies this`links
      ensures (Rows(), r) == Accounts.AddUserOAuth(old(Rows()), rowId, Link(userId, provider, oauthId))
    {
      var row := StoredLink(Link(userId, provider, oauthId));
      if row.None? {
        return Err(ValueRefused);
      }
      if rowId in links {
        return Err(UserAlreadyExists);
      }
      if exists l | l in links :: IsLink(links[l], row.value.provider, row.value.oauthId) {
        return Ok(());
      }
      if userId !in users {
        return Err(UserNotFound);
      }
      links := links[rowId := row.value];
      return Ok(());
    }

    method RemoveUserOAuth(userId: string, provider: string)
      modifies this`links
      ensures Rows() == Accounts.RemoveUserOAuth(old(Rows()), userId, provider)
    {
      links := map l | l in links && !(links[l].userId == userId && links[l].provider == provider) :: links[l];
    }

    /** One transaction: the second statement finding no user undoes the first. */
    method DeleteUser(id: string) returns (r: Result<()>)
      modifies this
      ensures (Rows(), r) == Accounts.DeleteUser(old(Rows()), id)
    {
      var before := links;
      links := map l | l in links && links[l].userId != id :: links[l];
      if id !in users {
        links := before;
        return Err(UserNotFound);
      }
      users := users - {id};
      return Ok(());
    }

    /** The account returned is the stored one, or the one just sent to the
        table, whose columns may have cut it. */
    method GetOrCreateUserByOAuth(identity: Identity, freshId: string, rowId: string, now: Time)
      returns (r: Result<Account>)
      requires Sound(Rows()) && freshId !in users && rowId !in links
      modifies this
      ensures Sound(Rows())
      ensures var (db, id) := GetOrCreate(old(Rows()), identity, freshId, rowId, now);
              && Rows() == db
              && (r.Ok? <==> id.Ok?)
              && (r.Ok? ==> r.value.id == id.value && id.value in users && StoredUser(r.value) == Some(users[id.value]))
              && (r.Err? ==> r.error == id.error)
      ensures r.Ok? ==>
                (ByOAuth(Rows(), identity.provider, identity.oauthId) == Some(r.value.id) <==> Linkable(identity))
    {
      hide Accounts.AddUserOAuth, UniqueEmails, UniqueLinks, StoredUser;
      ghost var before := Rows();
      SignedInIsLinkedIff(before, identity, freshId, rowId, now);
      r := GetUserByOAuth(identity.provider, identity.oauthId);
      if r.Ok? {
        return r;
      }
      r := GetUserByEmail(identity.email);
      if r.Ok? {
        var linked := AddUserOAuth(rowId, r.value.id, identity.provider, identity.oauthId);
        return r;
      }
      var newUser := NewUser(identity, freshId, now);
      var created := CreateUser(newUser);
      if created.Err? {
        return Err(created.error);
      }
      var linked := AddUserOAuth(rowId, newUser.id, identity.provider, identity.oauthId);
      return Ok(newUser);
    }
  }
}
