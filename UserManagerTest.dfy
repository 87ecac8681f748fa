/**
  The assertions of the directory's test suite, each as a method that runs the
  test's steps on a fresh directory and promises what the test asserts; and
  the sequential body of its multi-threaded create/delete test.
*/
module UserManagerScenarios {
  import opened Wrappers
  import opened Users
  import opened MailStore
  import opened ImapHost
  import opened UserDirectory

  /** A directory over a new host and a new, empty store. */
  method NewUserManager() returns (um: UserManager)
    ensures fresh(um) && fresh(um.host) && fresh(um.host.store)
    ensures um.Valid() && um.authRequired
    ensures um.loginToUser == map[] && um.emailToUser == map[] && um.host.store.folders == map[]
  {
    var store := new InMemoryStore();
    var host := new ImapHostManager(store);
    um := new UserManager(host);
  }

  /** A new directory lists nobody; each creation adds exactly the new user. */
  method TestListUsers() returns (initial: seq<User>, afterFirst: seq<User>, afterSecond: seq<User>, u1: User, u2: User)
    ensures initial == []
    ensures |afterFirst| == 1 && u1 in afterFirst
    ensures |afterSecond| == 2 && u1 in afterSecond && u2 in afterSecond
  {
    var um := NewUserManager();
    initial := um.ListUser();
    u1 := um.CreateUser("foo@bar.com", "foo", Some("pwd"));
    afterFirst := um.ListUser();
    u2 := um.CreateUser("foo2@bar.com", "foo2", Some("pwd"));
    afterSecond := um.ListUser();
  }

  /**
    Lookups by e-mail and by login find each user, before and after a second
    user is added; then the e-mail filters, on the same directory, find one
    user per address and both for the disjunction.
  */
  method TestFindByEmailAndLogin() returns (u1: User, u2: User,
                                            firstByEmail: Option<User>, firstByLogin: Option<User>,
                                            byEmail1: Option<User>, byEmail2: Option<User>,
                                            byLogin1: Option<User>, byLogin2: Option<User>,
                                            found1: seq<User>, found2: seq<User>, foundBoth: seq<User>)
    ensures firstByEmail == Some(u1) && firstByLogin == Some(u1)
    ensures byEmail1 == Some(u1) && byEmail2 == Some(u2)
    ensures byLogin1 == Some(u1) && byLogin2 == Some(u2)
    ensures |found1| == 1 && u1 in found1
    ensures |found2| == 1 && u2 in found2
    ensures |foundBoth| == 2 && u1 in foundBoth && u2 in foundBoth
  {
    var um := NewUserManager();
    u1 := um.CreateUser("foo@bar.com", "foo", Some("pwd"));
    firstByEmail := um.GetUserByEmail(u1.email);
    firstByLogin := um.GetUser(u1.login);
    u2 := um.CreateUser("foo2@bar.com", "foo2", Some("pwd"));
    byEmail1 := um.GetUserByEmail(u1.email);
    byEmail2 := um.GetUserByEmail(u2.email);
    byLogin1 := um.GetUser(u1.login);
    byLogin2 := um.GetUser(u2.login);
    found1, found2, foundBoth := FindByEmails(um, u1, u2);
  }

  /** The three filters of the e-mail search, over a directory holding exactly two users. */
  method FindByEmails(um: UserManager, u1: User, u2: User) returns (found1: seq<User>, found2: seq<User>, foundBoth: seq<User>)
    requires um.Valid() && um.Users() == {u1, u2}
    requires u1 != u2
    ensures |found1| == 1 && u1 in found1
    ensures |found2| == 1 && u2 in found2
    ensures |foundBoth| == 2 && u1 in foundBoth && u2 in foundBoth
  {
    var e1, e2 := u1.email, u2.email;
    // Distinct users have distinct e-mail keys, so neither address matches the other.
    ghost var l1 :| l1 in um.loginToUser && um.loginToUser[l1] == u1;
    ghost var l2 :| l2 in um.loginToUser && um.loginToUser[l2] == u2;
    assert um.emailToUser[Fold(e1)] == u1 && um.emailToUser[Fold(e2)] == u2;
    FoldAgreesWithEqualsIgnoreCase(e1, e2);
    FoldAgreesWithEqualsIgnoreCase(e2, e1);
    FoldAgreesWithEqualsIgnoreCase(e1, e1);
    FoldAgreesWithEqualsIgnoreCase(e2, e2);
    found1 := um.FindUsers((u: User) => EqualsIgnoreCase(u.email, e1));
    ListingSize(found1, {u1});
    found2 := um.FindUsers((u: User) => EqualsIgnoreCase(u.email, e2));
    ListingSize(found2, {u2});
    foundBoth := um.FindUsers((u: User) => EqualsIgnoreCase(u.email, e1) || EqualsIgnoreCase(u.email, e2));
    ListingSize(foundBoth, {u1, u2});
  }

  /** Creating and then deleting a user leaves the directory empty again. */
  method TestCreateAndDeleteUser() returns (initial: seq<User>, afterCreate: seq<User>, afterDelete: seq<User>)
    ensures initial == [] && |afterCreate| == 1 && afterDelete == []
  {
    var um := NewUserManager();
    initial := um.ListUser();
    var user := um.CreateUser("foo@bar.com", "foo", Some("pwd"));
    afterCreate := um.ListUser();
    um.DeleteUser(user);
    afterDelete := um.ListUser();
  }

  /** On any directory, deleting a user just created restores both indexes and the folder map. */
  method CreateThenDelete(um: UserManager, email: string, login: string, password: Option<string>)
    requires um.Valid()
    requires login !in um.loginToUser && Fold(email) !in um.emailToUser
    modifies um, um.host.store
    ensures um.Valid()
    ensures um.loginToUser == old(um.loginToUser) && um.emailToUser == old(um.emailToUser)
    ensures um.host.store.folders == old(um.host.store.folders)
  {
    DeleteUndoesCreate(um.loginToUser, um.emailToUser, um.host.store.folders.Keys, User(email, login, password));
    var u := um.CreateUser(email, login, password);
    um.DeleteUser(u);
  }

  /**
    Messages stored in the provisioned INBOX and in a folder created after it
    are gone once the user is deleted, and so are both folders.
  */
  method TestDeleteUserShouldDeleteMail() returns (listed: seq<User>, created: bool, inboxFound: bool,
                                                   remaining: seq<Message>, folderAfter: MailFolder?,
                                                   inboxAfter: MailFolder?)
    ensures |listed| == 1 && created && inboxFound
    ensures remaining == [] && folderAfter == null && inboxAfter == null
  {
    var um, user;
    um, user, listed, created, inboxFound := StoreMailForNewUser();
    remaining, folderAfter, inboxAfter := DeleteOnlyUser(um, user);
  }

  /** The first half of the mail test: one user, a second folder, a message in each of the two folders. */
  method StoreMailForNewUser() returns (um: UserManager, user: User, listed: seq<User>, created: bool, inboxFound: bool)
    ensures fresh(um) && fresh(um.host) && fresh(um.host.store)
    ensures um.Valid() && um.loginToUser.Keys == {user.login}
    ensures |listed| == 1 && created && inboxFound
    ensures AllMessages(um.host.store.Contents()) == multiset{Message("msg1"), Message("msg1")}
  {
    var otherFolder, inbox;
    um, user, listed, otherFolder, inbox := NewUserWithTwoFolders();
    created := otherFolder.Success?;
    inboxFound := inbox != null;
    ghost var inboxId, otherId := FolderId(user.login, INBOX), FolderId(user.login, "otherFolder");
    assert um.host.store.Contents() == map[inboxId := [], otherId := []];
    AllMessagesTwoFolders(inboxId, otherId, [], []);
    StoreInFolder(um.host.store, inbox, Message("msg1"));
    StoreInFolder(um.host.store, otherFolder.value, Message("msg1"));
  }

  /**
    Stores a message through a folder reference the test holds: since the
    folder is the one the store registers under its id, the store's contents
    change in that folder only, by exactly that message.
  */
  method StoreInFolder(store: InMemoryStore, folder: MailFolder, msg: Message)
    requires store.Valid() && folder.id in store.folders && store.folders[folder.id] == folder
    modifies folder
    ensures store.Contents() == old(store.Contents())[folder.id := old(store.Contents())[folder.id] + [msg]]
    ensures AllMessages(store.Contents()) == AllMessages(old(store.Contents())) + multiset{msg}
  {
    ghost var before := store.Contents();
    folder.Store(msg);
    assert store.Contents() == before[folder.id := before[folder.id] + [msg]];
    AllMessagesAppend(before, folder.id, msg);
  }

  /** A directory whose only user has created a second folder next to its INBOX, both empty. */
  method NewUserWithTwoFolders() returns (um: UserManager, user: User, listed: seq<User>,
                                          otherFolder: Result<MailFolder, FolderError>, inbox: MailFolder?)
    ensures fresh(um) && fresh(um.host) && fresh(um.host.store)
    ensures um.Valid() && um.loginToUser.Keys == {user.login}
    ensures |listed| == 1
    ensures otherFolder.Success? && fresh(otherFolder.value)
    ensures inbox != null && fresh(inbox) && inbox != otherFolder.value
    ensures um.host.store.folders.Keys == {FolderId(user.login, INBOX), FolderId(user.login, "otherFolder")}
    ensures inbox == um.host.store.folders[FolderId(user.login, INBOX)] && inbox.messages == []
    ensures otherFolder.value == um.host.store.folders[FolderId(user.login, "otherFolder")] && otherFolder.value.messages == []
  {
    um, user, listed := NewListedUser();
    var host := um.host;
    ghost var keys := host.store.folders.Keys;
    IndexedAfterNewFolder(um.loginToUser, um.emailToUser, keys, FolderId(user.login, "otherFolder"));
    otherFolder := host.CreateMailbox(user, "otherFolder");
    assert host.store.folders.Keys == keys + {FolderId(user.login, "otherFolder")};
    inbox := host.GetFolder(user, INBOX);
  }

  /** A directory holding one user, listed, with its provisioned INBOX as its only folder. */
  method NewListedUser() returns (um: UserManager, user: User, listed: seq<User>)
    ensures fresh(um) && fresh(um.host) && fresh(um.host.store)
    ensures um.Valid() && um.loginToUser.Keys == {user.login}
    ensures |listed| == 1
    ensures um.host.store.folders.Keys == {FolderId(user.login, INBOX)}
    ensures fresh(um.host.store.folders[FolderId(user.login, INBOX)])
    ensures um.host.store.folders[FolderId(user.login, INBOX)].messages == []
  {
    um := NewUserManager();
    user := um.CreateUser("foo@bar.com", "foo", Some("pwd"));
    listed := um.ListUser();
  }

  /** The second half: deleting the directory's only user leaves no message and no folder of it. */
  method DeleteOnlyUser(um: UserManager, user: User) returns (remaining: seq<Message>, folderAfter: MailFolder?,
                                                             inboxAfter: MailFolder?)
    requires um.Valid() && um.loginToUser.Keys == {user.login}
    modifies um, um.host.store
    ensures um.Valid() && um.Users() == {}
    ensures remaining == [] && folderAfter == null && inboxAfter == null
  {
    var host := um.host;
    forall k | k in um.host.store.folders ensures k.owner == user.login {
      assert k.owner in Owners(um.host.store.folders.Keys);
    }
    um.DeleteUser(user);
    assert um.host.store.folders == map[];
    remaining := host.GetAllMessages();
    folderAfter := host.GetFolder(user, INBOX);
    inboxAfter := host.GetInbox(user);
  }

  /** Without authentication an unknown identifier is accepted and provisioned as a user. */
  method TestNoAuthRequired() returns (ok: bool, listed: seq<User>)
    ensures ok && |listed| == 1
  {
    var um := NewUserManager();
    um.SetAuthRequired(false);
    ok := um.Test("foo@localhost", None);
    listed := um.ListUser();
  }

  /** Without authentication an existing login is accepted. */
  method TestNoAuthRequiredWithExistingUser() returns (listed: seq<User>, ok: bool)
    ensures listed != [] && ok
  {
    var um := NewUserManager();
    um.SetAuthRequired(false);
    var _ := um.CreateUser("foo@example.com", "foo", None);
    listed := um.ListUser();
    ok := um.Test("foo", None);
  }

  /** With authentication an unknown identifier is refused and nobody is provisioned. */
  method TestAuthRequired() returns (ok: bool, listed: seq<User>)
    ensures !ok && listed == []
  {
    var um := NewUserManager();
    um.SetAuthRequired(true);
    ok := um.Test("foo@localhost", None);
    listed := um.ListUser();
  }

  /** With authentication an existing login with its password is accepted. */
  method TestAuthRequiredWithExistingUser() returns (listed: seq<User>, ok: bool)
    ensures listed != [] && ok
  {
    var um := NewUserManager();
    um.SetAuthRequired(true);
    var u := um.CreateUser("foo@example.com", "foo", Some("bar"));
    listed := um.ListUser();
    ok := um.Test("foo", Some("bar"));
  }

  /** Both variants of the multi-threaded test, run one thread after the other, record no failure and leave no user. */
  method TestMultithreadedUserCreationAndDeletion(creationSynchronized: bool) returns (failures: int, remaining: seq<User>)
    ensures failures == 0 && remaining == []
  {
    var test := new ConcurrencyTest(creationSynchronized);
    failures := test.PerformTest();
    remaining := test.userManager.ListUser();
  }

  const NO_THREADS: nat := 5
  const NO_ACCOUNTS_PER_THREAD: nat := 20

  /** The decimal digit for d. */
  function Digit(d: nat): char
    requires d < 10
  {
    "0123456789"[d]
  }

  /** The decimal spelling of n, as string concatenation renders an int. */
  function NatToString(n: nat): string
    decreases n
  {
    if n < 10 then [Digit(n)] else NatToString(n / 10) + [Digit(n % 10)]
  }

  /** The account of a thread's iteration; "Thread-" plus an index stands for the thread's default name. */
  function AccountEmail(thread: nat, counter: nat): string
  {
    "email_Thread-" + NatToString(thread) + "_" + NatToString(counter)
  }

  /** The create/delete workload over a directory of its own. */
  class ConcurrencyTest {
    const userManager: UserManager
    const imapHostManager: ImapHostManager
    const creationSynchronized: bool

    /** All fields refer to the one directory, which holds no user, e-mail key or folder. */
    ghost predicate Idle()
      reads this, userManager, imapHostManager.store
    {
      && userManager.host == imapHostManager
      && userManager.Valid()
      && userManager.loginToUser == map[]
      && userManager.emailToUser == map[]
      && imapHostManager.store.folders == map[]
    }

    constructor(creationSynchronized: bool)
      ensures Idle() && this.creationSynchronized == creationSynchronized
      ensures fresh(userManager) && fresh(imapHostManager) && fresh(imapHostManager.store)
    {
      var store := new InMemoryStore();
      var host := new ImapHostManager(store);
      imapHostManager := host;
      userManager := new UserManager(host);
      this.creationSynchronized := creationSynchronized;
    }

    /**
      Creates the account whose e-mail, login and password are all the given
      string; fails, as a duplicate would, when the login or e-mail is taken.
    */
    method CreateMailbox(email: string) returns (failed: bool)
      requires userManager.Valid() && userManager.host == imapHostManager
      modifies userManager, imapHostManager.store
      ensures userManager.Valid()
      ensures userManager.authRequired == old(userManager.authRequired)
      ensures failed <==> email in old(userManager.loginToUser) || Fold(email) in old(userManager.emailToUser)
      ensures failed ==> userManager.loginToUser == old(userManager.loginToUser) &&
                         userManager.emailToUser == old(userManager.emailToUser) &&
                         imapHostManager.store.folders == old(imapHostManager.store.folders)
      ensures !failed ==>
                userManager.loginToUser == old(userManager.loginToUser)[email := User(email, email, Some(email))] &&
                userManager.emailToUser == old(userManager.emailToUser)[Fold(email) := User(email, email, Some(email))] &&
                imapHostManager.store.folders.Keys == old(imapHostManager.store.folders.Keys) + {FolderId(email, INBOX)} &&
                fresh(imapHostManager.store.folders[FolderId(email, INBOX)]) &&
                imapHostManager.store.folders[FolderId(email, INBOX)].messages == [] &&
                (forall k :: k in old(imapHostManager.store.folders) ==>
                   imapHostManager.store.folders[k] == old(imapHostManager.store.folders[k]))
    {
      if email in userManager.loginToUser || Fold(email) in userManager.emailToUser {
        failed := true;
      } else {
        var _ := userManager.CreateUser(email, email, Some(email));
        failed := false;
      }
    }

    /** The INBOX of the user with this e-mail, the one folder DeleteMailbox may change; empty when there is none. */
    ghost function InboxOf(email: string): set<object>
      reads this, userManager, imapHostManager.store
    {
      if Fold(email) in userManager.emailToUser &&
         FolderId(userManager.emailToUser[Fold(email)].login, INBOX) in imapHostManager.store.folders
      then {imapHostManager.store.folders[FolderId(userManager.emailToUser[Fold(email)].login, INBOX)]}
      else {}
    }

    /**
      Looks the account up by e-mail, empties its INBOX and deletes it; fails,
      as the null user or INBOX would, when either is missing.
    */
    method DeleteMailbox(email: string) returns (failed: bool)
      requires userManager.Valid() && userManager.host == imapHostManager
      modifies userManager, imapHostManager.store, InboxOf(email)
      ensures userManager.Valid()
      ensures userManager.authRequired == old(userManager.authRequired)
      ensures failed <==> Fold(email) !in old(userManager.emailToUser)
      ensures failed ==> userManager.loginToUser == old(userManager.loginToUser) &&
                         userManager.emailToUser == old(userManager.emailToUser) &&
                         imapHostManager.store.folders == old(imapHostManager.store.folders)
      ensures !failed ==>
                userManager.loginToUser == old(userManager.loginToUser) - {old(userManager.emailToUser[Fold(email)].login)} &&
                imapHostManager.store.folders ==
                  map k | k in old(imapHostManager.store.folders) && k.owner != old(userManager.emailToUser[Fold(email)].login)
                        :: old(imapHostManager.store.folders)[k]
    {
      var found := userManager.GetUserByEmail(email);
      if found.None? {
        return true;
      }
      var user := found.value;
      assert userManager.emailToUser[Fold(email)] == user;
      var inbox := imapHostManager.GetInbox(user);
      if inbox == null {
        return true;
      }
      inbox.DeleteAllMessages();
      userManager.DeleteUser(user);
      failed := false;
    }

    /**
      Every thread creates and deletes its accounts in turn; the threads run one
      after the other. Returns the number of failed iterations.
    */
    method PerformTest() returns (failures: int)
      requires Idle()
      modifies userManager, imapHostManager.store
      ensures Idle() && failures == 0
    {
      failures := 0;
      var thread := 0;
      while thread < NO_THREADS
        invariant Idle() && failures == 0
      {
        var counter := 0;
        while counter < NO_ACCOUNTS_PER_THREAD
          invariant Idle() && failures == 0
        {
          var email := AccountEmail(thread, counter);
          var failed := CreateMailbox(email);
          if !failed {
            failed := DeleteMailbox(email);
            EmptyDirectory(userManager.loginToUser, userManager.emailToUser, imapHostManager.store.folders.Keys);
          }
          if failed {
            failures := failures + 1;
          }
          counter := counter + 1;
        }
        thread := thread + 1;
      }
    }
  }
}
