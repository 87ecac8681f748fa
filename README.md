# GreenMail user directory and mailbox store

This project models GreenMail's user directory, its mailbox host and the in-memory mail store underneath. It is one stateful component, kept apart from the mail protocols.

- **User directory** (`UserDirectory.UserManager`): a table of accounts with e-mail, login and a password that may be null. It is indexed twice: by login, where case matters, and by e-mail with ASCII letters folded to lower case. It also holds the authentication policy flag.
- **Mailbox host** (`ImapHost.ImapHostManager`): the per-user view of the store. A folder is named by its owner's login and a path, and `INBOX` is the default folder.
- **Store** (`MailStore.InMemoryStore`, `MailStore.MailFolder`):
  - a map from folder id to folder object;
  - each folder holds an ordered sequence of opaque messages.

The implementing classes of these three components are not part of this model. Their behaviour is taken from the directory's test suite, `UserManagerTest.java`. Each assertion of that suite becomes an `ensures` clause of the matching operation. The test methods themselves are modelled as methods in `UserManagerScenarios`. Each runs the test's steps on a fresh directory and promises what the test asserts. The test itself forces three behaviours of the directory:

- creating a user provisions its INBOX: the mail test takes the INBOX of a freshly created user without creating it (`UserManagerTest.java:92`) and stores into it (`:98`), and the workload empties it (`:181-182`);
- deleting a user cascades to all of its folders and messages (`:102-104`);
- with authentication off, `test` accepts and provisions an unknown user (`:113-114`, where the listing then holds one user).

Where the test leaves a choice open, the model makes these choices of its own:

- e-mail addresses match without regard to ASCII case, and logins match exactly;
- a new directory starts with authentication required.

The directory keeps one invariant, `UserDirectory.Indexed`:

- the two indexes hold the same users, each under its own login and under its folded e-mail, so logins and e-mails are unique;
- every live user has an INBOX;
- every folder belongs to a live user.

Every mutating operation of the directory preserves this invariant, through `Valid()`. The lemmas beside the invariant show why.

Folder objects are shared. `getFolder` returns the folder object in the store, and storing into it changes what the store holds.

Files:

- `Wrappers.dfy`: `Option` and `Result`.
- `Users.dfy`: the user record and e-mail folding.
- `Store.dfy`: folders, the store, and the ghost multiset of all messages with its lemmas.
- `HostManager.dfy`: the mailbox host.
- `UserManager.dfy`: the directory, its invariant and the lemmas about it.
- `UserManagerTest.dfy`: the test scenarios and the sequential create/delete workload.

## Model

| member | source | states |
|---|---|---|
| Users.FoldAgreesWithEqualsIgnoreCase | greenmail-tests/src/test/java/com/icegreen/greenmail/user/UserManagerTest.java:57-62 | two addresses get the same e-mail key exactly when they are equal ignoring case, the comparison the tests' filters use |
| MailStore.MailFolder.constructor | greenmail-tests/src/test/java/com/icegreen/greenmail/user/UserManagerTest.java:91 | a new folder has its id and no messages |
| MailStore.MailFolder.Store | greenmail-tests/src/test/java/com/icegreen/greenmail/user/UserManagerTest.java:98-99 | the message is appended after the folder's existing messages |
| MailStore.MailFolder.DeleteAllMessages | greenmail-tests/src/test/java/com/icegreen/greenmail/user/UserManagerTest.java:182 | the folder is left with no messages |
| MailStore.InMemoryStore.constructor | greenmail-tests/src/test/java/com/icegreen/greenmail/user/UserManagerTest.java:26 | a new store is consistent and holds no folder |
| MailStore.InMemoryStore.CreateFolder | greenmail-tests/src/test/java/com/icegreen/greenmail/user/UserManagerTest.java:91 | a taken id fails with AlreadyExists and changes nothing; a free id gets a fresh empty folder and nothing else changes; the folder contents gain exactly an empty entry, so the total of messages is unchanged |
| MailStore.InMemoryStore.GetFolder | greenmail-tests/src/test/java/com/icegreen/greenmail/user/UserManagerTest.java:92 | non-null exactly when the id is present, and then it is the stored folder object for that id |
| MailStore.InMemoryStore.DeleteFoldersOf | greenmail-tests/src/test/java/com/icegreen/greenmail/user/UserManagerTest.java:101-102 | exactly the folders of other owners remain, with their contents unchanged |
| MailStore.InMemoryStore.ListAllMessages | greenmail-tests/src/test/java/com/icegreen/greenmail/user/UserManagerTest.java:102 | the result holds every message of every folder, with multiplicity |
| MailStore.AllMessagesRemove | greenmail-tests/src/test/java/com/icegreen/greenmail/user/UserManagerTest.java:102 | all messages are one folder's messages plus those of the other folders |
| MailStore.AllMessagesNewFolder | greenmail-tests/src/test/java/com/icegreen/greenmail/user/UserManagerTest.java:91 | adding an empty folder adds no message |
| MailStore.AllMessagesUpdate | greenmail-tests/src/test/java/com/icegreen/greenmail/user/UserManagerTest.java:98-99 | replacing one folder's messages replaces exactly those messages in the total |
| MailStore.AllMessagesAppend | greenmail-tests/src/test/java/com/icegreen/greenmail/user/UserManagerTest.java:98-99 | appending a message to one folder adds exactly that message to the total |
| MailStore.AllMessagesTwoFolders | greenmail-tests/src/test/java/com/icegreen/greenmail/user/UserManagerTest.java:98-99 | two distinct folders hold, between them, exactly the messages of both |
| MailStore.RemoveOwnedFolder | greenmail-tests/src/test/java/com/icegreen/greenmail/user/UserManagerTest.java:101 | removing a folder of the owner shrinks only the owner's part |
| MailStore.RemoveOtherFolder | greenmail-tests/src/test/java/com/icegreen/greenmail/user/UserManagerTest.java:101 | removing another owner's folder shrinks only the others' part |
| MailStore.AllMessagesSplit | greenmail-tests/src/test/java/com/icegreen/greenmail/user/UserManagerTest.java:101-102 | all messages are the owner's messages plus everyone else's |
| ImapHost.ImapHostManager.constructor | greenmail-tests/src/test/java/com/icegreen/greenmail/user/UserManagerTest.java:26 | the host works on the store it is given |
| ImapHost.ImapHostManager.CreateMailbox | greenmail-tests/src/test/java/com/icegreen/greenmail/user/UserManagerTest.java:91 | creates the user's folder at the path: a fresh empty folder, or AlreadyExists with nothing changed; either way the total of messages is unchanged |
| ImapHost.ImapHostManager.GetFolder | greenmail-tests/src/test/java/com/icegreen/greenmail/user/UserManagerTest.java:92-103 | non-null exactly when the user has a folder at the path, and then it is that folder |
| ImapHost.ImapHostManager.GetInbox | greenmail-tests/src/test/java/com/icegreen/greenmail/user/UserManagerTest.java:104 | non-null exactly when the user has an INBOX, and then it is that folder |
| ImapHost.ImapHostManager.DeleteAllUserFolders | greenmail-tests/src/test/java/com/icegreen/greenmail/user/UserManagerTest.java:101-102 | the user's folders go and no other folder changes; the messages left are all the messages minus exactly the user's |
| ImapHost.ImapHostManager.GetAllMessages | greenmail-tests/src/test/java/com/icegreen/greenmail/user/UserManagerTest.java:102 | every message in every folder, with multiplicity |
| UserDirectory.IndexedAfterCreate | greenmail-tests/src/test/java/com/icegreen/greenmail/user/UserManagerTest.java:31-39 | a user with a new login and e-mail, registered with its INBOX, keeps the invariant; that INBOX was not there before; the users grow by exactly that user |
| UserDirectory.IndexedAfterNewFolder | greenmail-tests/src/test/java/com/icegreen/greenmail/user/UserManagerTest.java:91 | a further folder of a live user keeps the invariant |
| UserDirectory.EmptyDirectory | greenmail-tests/src/test/java/com/icegreen/greenmail/user/UserManagerTest.java:199-203 | a directory with no login has no e-mail key and no folder |
| UserDirectory.IndexedAfterDelete | greenmail-tests/src/test/java/com/icegreen/greenmail/user/UserManagerTest.java:79-80 | dropping a live user from both indexes, with all its folders, keeps the invariant, and exactly that user leaves |
| UserDirectory.DeleteUndoesCreate | greenmail-tests/src/test/java/com/icegreen/greenmail/user/UserManagerTest.java:74-80 | deleting a user just created restores both indexes and the folder ids |
| UserDirectory.ListingSize | greenmail-tests/src/test/java/com/icegreen/greenmail/user/UserManagerTest.java:33-37 | a listing without duplicates that holds exactly a set's members is as long as the set is large |
| UserDirectory.UserManager.constructor | greenmail-tests/src/test/java/com/icegreen/greenmail/user/UserManagerTest.java:27 | a new directory over an empty store has no users; authentication starts required (a choice of the model) |
| UserDirectory.UserManager.CreateUser | greenmail-tests/src/test/java/com/icegreen/greenmail/user/UserManagerTest.java:31-36 | registers exactly the given record under its login and folded e-mail; the users grow by exactly it; a fresh empty INBOX is added; no other folder changes |
| UserDirectory.UserManager.GetUser | greenmail-tests/src/test/java/com/icegreen/greenmail/user/UserManagerTest.java:49-55 | returns the live user with this login whenever there is one, and only a live user with this login |
| UserDirectory.UserManager.GetUserByEmail | greenmail-tests/src/test/java/com/icegreen/greenmail/user/UserManagerTest.java:48-53 | returns the live user whose e-mail equals this one ignoring case whenever there is one, and only such a user |
| UserDirectory.UserManager.ListUser | greenmail-tests/src/test/java/com/icegreen/greenmail/user/UserManagerTest.java:29-39 | every live user exactly once: same members, no duplicates, as many entries as users |
| UserDirectory.UserManager.FindUsers | greenmail-tests/src/test/java/com/icegreen/greenmail/user/UserManagerTest.java:57-66 | exactly the live users satisfying the predicate, each once |
| UserDirectory.UserManager.DeleteUser | greenmail-tests/src/test/java/com/icegreen/greenmail/user/UserManagerTest.java:79 | the user leaves both indexes together with every folder it owns; no other user or folder changes; an absent user changes nothing |
| UserDirectory.UserManager.Unregister | greenmail-tests/src/test/java/com/icegreen/greenmail/user/UserManagerTest.java:101 | the same as DeleteUser, for a user that is live |
| UserDirectory.UserManager.SetAuthRequired | greenmail-tests/src/test/java/com/icegreen/greenmail/user/UserManagerTest.java:111 | sets the policy flag and leaves the users and the invariant as they were |
| UserDirectory.UserManager.Test | greenmail-tests/src/test/java/com/icegreen/greenmail/user/UserManagerTest.java:113-146 | with authentication: true exactly when a user named by the identifier has this password, and nothing changes. Without authentication: true; an unknown identifier becomes a new user in both indexes with a fresh empty INBOX, and every existing folder keeps its object |
| UserManagerScenarios.NewUserManager | greenmail-tests/src/test/java/com/icegreen/greenmail/user/UserManagerTest.java:26-27 | a fresh, consistent, empty directory over a fresh store |
| UserManagerScenarios.TestListUsers | greenmail-tests/src/test/java/com/icegreen/greenmail/user/UserManagerTest.java:25-40 | the listing is empty, then has one entry with u1, then two entries with u1 and u2 |
| UserManagerScenarios.TestFindByEmailAndLogin | greenmail-tests/src/test/java/com/icegreen/greenmail/user/UserManagerTest.java:43-66 | lookups by e-mail and by login return u1; after u2 is created they return u1 and u2 for their own keys; then, on the same directory, each single-e-mail filter finds just its user and the disjunction finds both |
| UserManagerScenarios.FindByEmails | greenmail-tests/src/test/java/com/icegreen/greenmail/user/UserManagerTest.java:57-66 | the same three filtered lists, over any consistent directory holding exactly two distinct users |
| UserManagerScenarios.TestCreateAndDeleteUser | greenmail-tests/src/test/java/com/icegreen/greenmail/user/UserManagerTest.java:70-81 | the listing is empty, then has one entry, then is empty again |
| UserManagerScenarios.CreateThenDelete | greenmail-tests/src/test/java/com/icegreen/greenmail/user/UserManagerTest.java:70-81 | on any consistent directory, deleting a user just created restores both indexes and the folder map |
| UserManagerScenarios.TestDeleteUserShouldDeleteMail | greenmail-tests/src/test/java/com/icegreen/greenmail/user/UserManagerTest.java:84-105 | the second folder is created and the INBOX is found; after the deletion no message is left, and both lookups of the INBOX return null |
| UserManagerScenarios.StoreMailForNewUser | greenmail-tests/src/test/java/com/icegreen/greenmail/user/UserManagerTest.java:88-99 | one live user; the second folder is created, the INBOX is found, and the store then holds exactly the two stored messages |
| UserManagerScenarios.StoreInFolder | greenmail-tests/src/test/java/com/icegreen/greenmail/user/UserManagerTest.java:98-99 | storing through a folder reference the store registers changes the store's contents in that folder only, and adds exactly that message to the total |
| UserManagerScenarios.NewUserWithTwoFolders | greenmail-tests/src/test/java/com/icegreen/greenmail/user/UserManagerTest.java:88-92 | createMailbox succeeds on the new user and getFolder finds the provisioned INBOX; the user owns exactly these two distinct, empty folders, the ones the store holds |
| UserManagerScenarios.NewListedUser | greenmail-tests/src/test/java/com/icegreen/greenmail/user/UserManagerTest.java:88-89 | one created user, listed once, whose only folder is its fresh empty INBOX |
| UserManagerScenarios.DeleteOnlyUser | greenmail-tests/src/test/java/com/icegreen/greenmail/user/UserManagerTest.java:101-104 | deleting the only user empties the directory; no message is left, and both lookups of the INBOX return null |
| UserManagerScenarios.TestNoAuthRequired | greenmail-tests/src/test/java/com/icegreen/greenmail/user/UserManagerTest.java:108-115 | an unknown identifier is accepted and the directory then lists exactly one user |
| UserManagerScenarios.TestNoAuthRequiredWithExistingUser | greenmail-tests/src/test/java/com/icegreen/greenmail/user/UserManagerTest.java:118-126 | the listing is not empty and the existing login is accepted |
| UserManagerScenarios.TestAuthRequired | greenmail-tests/src/test/java/com/icegreen/greenmail/user/UserManagerTest.java:129-136 | an unknown identifier is refused and the listing stays empty |
| UserManagerScenarios.TestAuthRequiredWithExistingUser | greenmail-tests/src/test/java/com/icegreen/greenmail/user/UserManagerTest.java:139-147 | the listing is not empty and the login with its password is accepted |
| UserManagerScenarios.TestMultithreadedUserCreationAndDeletion | greenmail-tests/src/test/java/com/icegreen/greenmail/user/UserManagerTest.java:150-159 | with or without synchronized creation, the workload records no failure and leaves no user |
| UserManagerScenarios.ConcurrencyTest.constructor | greenmail-tests/src/test/java/com/icegreen/greenmail/user/UserManagerTest.java:169-173 | a fresh empty directory, a host over a fresh store, and the flag as given |
| UserManagerScenarios.ConcurrencyTest.CreateMailbox | greenmail-tests/src/test/java/com/icegreen/greenmail/user/UserManagerTest.java:175-177 | fails exactly when the login or e-mail is taken, and then changes neither index nor folder map; otherwise registers the user whose e-mail, login and password are all the string, with a fresh empty INBOX, and every existing folder keeps its object; the authentication flag is kept either way |
| UserManagerScenarios.ConcurrencyTest.DeleteMailbox | greenmail-tests/src/test/java/com/icegreen/greenmail/user/UserManagerTest.java:179-184 | fails exactly when no user has this e-mail, and then changes neither index nor folder map; otherwise that user leaves the directory with all its folders, no other folder changes, and only that user's INBOX may be written; the authentication flag is kept either way |
| UserManagerScenarios.ConcurrencyTest.PerformTest | greenmail-tests/src/test/java/com/icegreen/greenmail/user/UserManagerTest.java:186-223 | the two loops over threads and accounts keep the directory empty between iterations and record no failure |

## Left out

- The implementing classes of the directory, the host and the store are not part of this model. Their behaviour is reconstructed from the test's assertions and calls, plus the model's own choices listed above, not read from their code.
- Threads, `start`/`join`, the `synchronized` block and concurrent interleavings (UserManagerTest.java:193, 206-218). The workload runs its threads one after the other. `creationSynchronized` is kept but has no effect in a sequential run.
- Thread names: the JVM's default names are modelled as `"Thread-"` followed by the thread's index. The real numbering comes from a process-wide counter.
- Message content: messages are opaque values. `GreenMailUtil.createTextEmail` and MIME are not part of this model. The two test messages are both modelled as `Message("msg1")`.
- `GreenMailProxy`, `ReplyToTest`, `Rfc822MessageTest` and `ExampleJavaMailTest`: delegation, network transport, SMTP/POP3/IMAP and JavaMail client code.
- Case folding covers ASCII letters only. Java's `equalsIgnoreCase` and `toLowerCase` also fold other Unicode letters.
- Passwords are compared by equality of the optional value (`None` for null). No wrong-password case appears in the tests.
- Store operations the tests never reach: deleting a single folder, renaming, expunge and per-message access.
- UserDirectory.UserManager.CreateUser: a login or e-mail already in use is a precondition, not the DuplicateUser error. Duplicates are never exercised.
- UserDirectory.UserManager.DeleteUser: its contract states the folder map after deletion, but not the message multiset. The message-level facts are stated one level down, on `ImapHost.ImapHostManager.DeleteAllUserFolders`.
- UserDirectory.UserManager.constructor: starts with authentication required, a choice of the model; every test sets the flag before relying on it, except the list, lookup and delete tests, which never call `test`. It requires an empty store, the situation in every test. A store that already holds folders of unknown owners would break the invariant that every folder belongs to a live user.
- ImapHost.ImapHostManager.CreateMailbox: has no precondition that the owner is live. A caller keeps the directory's invariant by calling `UserDirectory.IndexedAfterNewFolder`, as the mail scenario does.
- User creation is all-or-nothing only trivially: provisioning the INBOX cannot fail in the model, because the invariant rules out a leftover INBOX.
