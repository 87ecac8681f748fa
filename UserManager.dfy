/**
  The user directory: accounts by login and by (case-folded) e-mail, the
  authentication policy, and the coupling of each account's lifetime to its
  folders in the mailbox host.
*/
module UserDirectory {
  import opened Wrappers
  import opened Users
  import opened MailStore
  import opened ImapHost

  /** Adding a fresh key adds its value to the values of a map. */
  lemma ValuesAfterInsert<K, V>(m: map<K, V>, k: K, v: V)
    requires k !in m
    ensures m[k := v].Values == m.Values + {v}
  {
    forall x | x in m.Values ensures x in m[k := v].Values {
      var k' :| k' in m && m[k'] == x;
      assert m[k := v][k'] == x;
    }
    assert m[k := v][k] == v;
  }

  /** Removing a key whose value no other key holds removes exactly that value. */
  lemma ValuesAfterRemove<K, V>(m: map<K, V>, k: K)
    requires k in m
    requires forall k' :: k' in m && k' != k ==> m[k'] != m[k]
    ensures (m - {k}).Values == m.Values - {m[k]}
  {
    forall x | x in m.Values - {m[k]} ensures x in (m - {k}).Values {
      var k' :| k' in m && m[k'] == x;
      assert (m - {k})[k'] == x;
    }
  }

  /**
    The directory's invariant over its two indexes and the ids of the store's
    folders: both maps index the same users under their own login and folded
    e-mail (so logins and e-mails are unique), every user has an INBOX and
    every folder belongs to a user.
  */
  ghost predicate Indexed(loginToUser: map<string, User>, emailToUser: map<string, User>, folders: set<FolderId>)
  {
    && (forall l :: l in loginToUser ==>
          loginToUser[l].login == l && Fold(loginToUser[l].email) in emailToUser &&
          emailToUser[Fold(loginToUser[l].email)] == loginToUser[l])
    && (forall e :: e in emailToUser ==>
          Fold(emailToUser[e].email) == e && emailToUser[e].login in loginToUser &&
          loginToUser[emailToUser[e].login] == emailToUser[e])
    && (forall l :: l in loginToUser ==> FolderId(l, INBOX) in folders)
    && Owners(folders) <= loginToUser.Keys
  }

  /** The logins owning at least one of the folders. */
  ghost function Owners(folders: set<FolderId>): set<string>
  {
    set k | k in folders :: k.owner
  }

  /** Registering a user with a new login and e-mail, together with its INBOX, keeps the invariant. */
  lemma IndexedAfterCreate(loginToUser: map<string, User>, emailToUser: map<string, User>,
                           folders: set<FolderId>, u: User)
    requires Indexed(loginToUser, emailToUser, folders)
    requires u.login !in loginToUser && Fold(u.email) !in emailToUser
    ensures FolderId(u.login, INBOX) !in folders
    ensures Indexed(loginToUser[u.login := u], emailToUser[Fold(u.email) := u], folders + {FolderId(u.login, INBOX)})
    ensures loginToUser[u.login := u].Values == loginToUser.Values + {u}
  {
    ValuesAfterInsert(loginToUser, u.login, u);
    ValuesAfterInsert(emailToUser, Fold(u.email), u);
  }

  /** A further folder owned by a live user keeps the invariant. */
  lemma IndexedAfterNewFolder(loginToUser: map<string, User>, emailToUser: map<string, User>,
                              folders: set<FolderId>, id: FolderId)
    requires Indexed(loginToUser, emailToUser, folders)
    requires id.owner in loginToUser
    ensures Indexed(loginToUser, emailToUser, folders + {id})
  {
  }

  /** A directory without logins has no e-mail keys and no folders either. */
  lemma EmptyDirectory(loginToUser: map<string, User>, emailToUser: map<string, User>, folders: set<FolderId>)
    requires Indexed(loginToUser, emailToUser, folders)
    requires loginToUser == map[]
    ensures emailToUser == map[] && folders == {}
  {
    assert forall k :: k in folders ==> k.owner in Owners(folders);
  }

  /** Dropping a live user from both indexes, together with all its folders, keeps the invariant. */
  lemma IndexedAfterDelete(loginToUser: map<string, User>, emailToUser: map<string, User>,
                           folders: set<FolderId>, login: string)
    requires Indexed(loginToUser, emailToUser, folders)
    requires login in loginToUser
    ensures Fold(loginToUser[login].email) in emailToUser
    ensures Indexed(loginToUser - {login}, emailToUser - {Fold(loginToUser[login].email)},
                    set k | k in folders && k.owner != login)
    ensures (loginToUser - {login}).Values == set u | u in loginToUser.Values && u.login != login
  {
    var u := loginToUser[login];
    var key := Fold(u.email);
    assert u in emailToUser.Values;
    assert key in emailToUser && emailToUser[key] == u;
    ValuesAfterRemove(loginToUser, login);
    ValuesAfterRemove(emailToUser, key);
  }

  /**
    Deleting a user just created restores both indexes and the set of folder
    ids: the new user owned no folder other than its INBOX.
  */
  lemma DeleteUndoesCreate(loginToUser: map<string, User>, emailToUser: map<string, User>,
                           folders: set<FolderId>, u: User)
    requires Indexed(loginToUser, emailToUser, folders)
    requires u.login !in loginToUser && Fold(u.email) !in emailToUser
    ensures loginToUser[u.login := u] - {u.login} == loginToUser
    ensures emailToUser[Fold(u.email) := u] - {Fold(u.email)} == emailToUser
    ensures (set k | k in folders + {FolderId(u.login, INBOX)} && k.owner != u.login) == folders
  {
  }

  /** No user occurs twice. */
  predicate NoDuplicates(s: seq<User>)
  {
    forall i, j :: 0 <= i < j < |s| ==> s[i] != s[j]
  }

  /** A listing without duplicates has as many entries as the set it lists. */
  lemma {:induction false} ListingSize(r: seq<User>, users: set<User>)
    requires NoDuplicates(r)
    requires forall u :: u in r <==> u in users
    ensures |r| == |users|
    decreases |r|
  {
    if r != [] {
      var last := r[|r| - 1];
      assert forall u :: u in r[..|r| - 1] <==> u in users - {last};
      ListingSize(r[..|r| - 1], users - {last});
    }
  }

  class UserManager {
    const host: ImapHostManager
    var loginToUser: map<string, User>
    var emailToUser: map<string, User>
    var authRequired: bool

    ghost predicate Valid()
      reads this, host.store
    {
      host.store.Valid() && Indexed(loginToUser, emailToUser, host.store.folders.Keys)
    }

    /** The live users. */
    ghost function Users(): set<User>
      reads this
    {
      loginToUser.Values
    }

    /** A directory over an empty store; authentication is required until changed. */
    constructor (host: ImapHostManager)
      requires host.store.Valid() && host.store.folders == map[]
      ensures Valid() && this.host == host
      ensures loginToUser == map[] && emailToUser == map[] && Users() == {}
      ensures authRequired
    {
      this.host := host;
      loginToUser := map[];
      emailToUser := map[];
      authRequired := true;
    }

    /** Registers a user with a new login and e-mail and provisions its INBOX. */
    method CreateUser(email: string, login: string, password: Option<string>) returns (u: User)
      requires Valid()
      requires login !in loginToUser && Fold(email) !in emailToUser
      modifies this, host.store
      ensures Valid()
      ensures u == User(email, login, password)
      ensures loginToUser == old(loginToUser)[login := u]
      ensures emailToUser == old(emailToUser)[Fold(email) := u]
      ensures Users() == old(Users()) + {u}
      ensures authRequired == old(authRequired)
      ensures FolderId(login, INBOX) !in old(host.store.folders)
      ensures host.store.folders.Keys == old(host.store.folders.Keys) + {FolderId(login, INBOX)}
      ensures fresh(host.store.folders[FolderId(login, INBOX)])
      ensures host.store.folders[FolderId(login, INBOX)].messages == []
      ensures forall k :: k in old(host.store.folders) ==> host.store.folders[k] == old(host.store.folders[k])
    {
      u := User(email, login, password);
      ghost var keys := host.store.folders.Keys;
      IndexedAfterCreate(loginToUser, emailToUser, keys, u);
      var inbox := host.CreateMailbox(u, INBOX);
      assert host.store.folders.Keys == keys + {FolderId(login, INBOX)};
      loginToUser := loginToUser[login := u];
      emailToUser := emailToUser[Fold(email) := u];
    }

    /** The user with this login, if any. */
    method GetUser(login: string) returns (r: Option<User>)
      requires Valid()
      ensures r.Some? ==> r.value in Users() && r.value.login == login
      ensures forall u :: u in Users() && u.login == login ==> r == Some(u)
    {
      r := if login in loginToUser then Some(loginToUser[login]) else None;
    }

    /** The user whose e-mail equals this one ignoring case, if any. */
    method GetUserByEmail(email: string) returns (r: Option<User>)
      requires Valid()
      ensures r.Some? ==> r.value in Users() && Fold(r.value.email) == Fold(email)
      ensures forall u :: u in Users() && Fold(u.email) == Fold(email) ==> r == Some(u)
    {
      r := if Fold(email) in emailToUser then Some(emailToUser[Fold(email)]) else None;
    }

    /** Every live user exactly once, in no particular order. */
    method ListUser() returns (r: seq<User>)
      requires Valid()
      ensures forall u :: u in r <==> u in Users()
      ensures NoDuplicates(r)
      ensures |r| == |Users()|
    {
      r := FindUsers(_ => true);
      ListingSize(r, Users());
    }

    /** Exactly the live users satisfying the predicate, each once. */
    method FindUsers(p: User -> bool) returns (r: seq<User>)
      requires Valid()
      ensures forall u :: u in r <==> u in Users() && p(u)
      ensures NoDuplicates(r)
    {
      r := [];
      var logins := loginToUser.Keys;
      while logins != {}
        invariant logins <= loginToUser.Keys
        invariant NoDuplicates(r)
        invariant forall i :: 0 <= i < |r| ==> r[i] in Users() && p(r[i]) && r[i].login !in logins
        invariant forall l :: l in loginToUser && l !in logins && p(loginToUser[l]) ==> loginToUser[l] in r
        decreases logins
      {
        var l :| l in logins;
        if p(loginToUser[l]) {
          r := r + [loginToUser[l]];
        }
        logins := logins - {l};
      }
      forall u | u in Users() && p(u) ensures u in r {
        var l :| l in loginToUser && loginToUser[l] == u;
      }
    }

    /** Removes the user with this login and all of its folders and messages; no-op when absent. */
    method DeleteUser(user: User)
      requires Valid()
      modifies this, host.store
      ensures Valid()
      ensures loginToUser == old(loginToUser) - {user.login}
      ensures emailToUser == if user.login in old(loginToUser)
                             then old(emailToUser) - {Fold(old(loginToUser)[user.login].email)}
                             else old(emailToUser)
      ensures Users() == set u | u in old(Users()) && u.login != user.login
      ensures authRequired == old(authRequired)
      ensures host.store.folders ==
                map k | k in old(host.store.folders) && k.owner != user.login :: old(host.store.folders)[k]
    {
      if user.login in loginToUser {
        Unregister(loginToUser[user.login]);
      } else {
        assert host.store.folders ==
               map k | k in host.store.folders && k.owner != user.login :: host.store.folders[k];
      }
    }

    /** DeleteUser for a live user: drops its record from both maps, then its folders. */
    method Unregister(stored: User)
      requires Valid()
      requires stored.login in loginToUser && loginToUser[stored.login] == stored
      modifies this, host.store
      ensures Valid()
      ensures loginToUser == old(loginToUser) - {stored.login}
      ensures emailToUser == old(emailToUser) - {Fold(stored.email)}
      ensures Users() == set u | u in old(Users()) && u.login != stored.login
      ensures authRequired == old(authRequired)
      ensures host.store.folders ==
                map k | k in old(host.store.folders) && k.owner != stored.login :: old(host.store.folders)[k]
    {
      ghost var keys := host.store.folders.Keys;
      IndexedAfterDelete(loginToUser, emailToUser, keys, stored.login);
      host.DeleteAllUserFolders(stored);
      assert host.store.folders.Keys == set k | k in keys && k.owner != stored.login;
      loginToUser := loginToUser - {stored.login};
      emailToUser := emailToUser - {Fold(stored.email)};
    }

    /** Switches the authentication policy. */
    method SetAuthRequired(required: bool)
      modifies this
      ensures authRequired == required
      ensures loginToUser == old(loginToUser) && emailToUser == old(emailToUser)
      ensures old(Valid()) ==> Valid()
    {
      authRequired := required;
    }

    /**
      Checks credentials. With authentication required, succeeds exactly when a
      user named by the identifier holds this password, and changes nothing.
      Otherwise always succeeds, first creating the user (login and e-mail set
      to the identifier) when no user is named by it.
    */
    method Test(id: string, password: Option<string>) returns (ok: bool)
      requires Valid()
      modifies this, host.store
      ensures Valid()
      ensures authRequired == old(authRequired)
      ensures authRequired ==>
                ok == (exists u :: u in Users() && Identifies(u, id) && u.password == password)
      ensures authRequired || (exists u :: u in old(Users()) && Identifies(u, id)) ==>
                loginToUser == old(loginToUser) && emailToUser == old(emailToUser) &&
                host.store.folders == old(host.store.folders)
      ensures !authRequired ==> ok
      ensures !authRequired && !(exists u :: u in old(Users()) && Identifies(u, id)) ==>
                Users() == old(Users()) + {User(id, id, password)} &&
                loginToUser == old(loginToUser)[id := User(id, id, password)] &&
                emailToUser == old(emailToUser)[Fold(id) := User(id, id, password)] &&
                host.store.folders.Keys == old(host.store.folders.Keys) + {FolderId(id, INBOX)} &&
                fresh(host.store.folders[FolderId(id, INBOX)]) &&
                host.store.folders[FolderId(id, INBOX)].messages == [] &&
                (forall k :: k in old(host.store.folders) ==> host.store.folders[k] == old(host.store.folders[k]))
    {
      var byLogin := id in loginToUser;
      var byEmail := Fold(id) in emailToUser;
      if byLogin {
        assert loginToUser[id] in Users() && Identifies(loginToUser[id], id);
      }
      if byEmail {
        assert emailToUser[Fold(id)] in emailToUser.Values;
        assert emailToUser[Fold(id)] in Users() && Identifies(emailToUser[Fold(id)], id);
      }
      if !authRequired {
        if !byLogin && !byEmail {
          var _ := CreateUser(id, id, password);
        }
        ok := true;
      } else {
        ok := (byLogin && loginToUser[id].password == password) ||
              (byEmail && emailToUser[Fold(id)].password == password);
      }
    }
  }
}
