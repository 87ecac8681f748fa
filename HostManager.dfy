/**
  The mailbox host: per-user folder topology on top of the store. It holds
  nothing but the store it manages; a user's folders are keyed by its login.
*/
module ImapHost {
  import opened Wrappers
  import opened Users
  import opened MailStore

  /** The reserved name of the default folder every user has. */
  const INBOX: string := "INBOX"

  class ImapHostManager {
    const store: InMemoryStore

    constructor (store: InMemoryStore)
      ensures this.store == store
    {
      this.store := store;
    }

    /** Creates a folder of the user, failing with AlreadyExists when the path is taken. */
    method CreateMailbox(user: User, path: string) returns (r: Result<MailFolder, FolderError>)
      requires store.Valid()
      modifies store
      ensures store.Valid()
      ensures FolderId(user.login, path) in old(store.folders) ==>
                r == Failure(AlreadyExists) && store.folders == old(store.folders)
      ensures FolderId(user.login, path) !in old(store.folders) ==>
                r.Success? && fresh(r.value) && r.value.id == FolderId(user.login, path) &&
                r.value.messages == [] &&
                store.folders == old(store.folders)[FolderId(user.login, path) := r.value]
      ensures store.Contents() ==
                if FolderId(user.login, path) in old(store.folders) then old(store.Contents())
                else old(store.Contents())[FolderId(user.login, path) := []]
      ensures AllMessages(store.Contents()) == AllMessages(old(store.Contents()))
    {
      r := store.CreateFolder(FolderId(user.login, path));
    }

    /** The user's folder at a path, or null when there is none. */
    method GetFolder(user: User, path: string) returns (f: MailFolder?)
      requires store.Valid()
      ensures f != null <==> FolderId(user.login, path) in store.folders
      ensures f != null ==> f == store.folders[FolderId(user.login, path)] && f.id == FolderId(user.login, path)
    {
      f := store.GetFolder(FolderId(user.login, path));
    }

    /** The user's INBOX, or null when there is none. */
    method GetInbox(user: User) returns (f: MailFolder?)
      requires store.Valid()
      ensures f != null <==> FolderId(user.login, INBOX) in store.folders
      ensures f != null ==> f == store.folders[FolderId(user.login, INBOX)] && f.id == FolderId(user.login, INBOX)
    {
      f := GetFolder(user, INBOX);
    }

    /** Removes every folder of the user, INBOX included, with all their messages. */
    method DeleteAllUserFolders(user: User)
      requires store.Valid()
      modifies store
      ensures store.Valid()
      ensures store.folders == map k | k in old(store.folders) && k.owner != user.login :: old(store.folders)[k]
      ensures store.Contents() == Others(old(store.Contents()), user.login)
      ensures AllMessages(store.Contents()) ==
                AllMessages(old(store.Contents())) - AllMessages(Owned(old(store.Contents()), user.login))
    {
      AllMessagesSplit(store.Contents(), user.login);
      store.DeleteFoldersOf(user.login);
    }

    /** A snapshot of every message of every user. */
    method GetAllMessages() returns (r: seq<Message>)
      ensures multiset(r) == AllMessages(store.Contents())
    {
      r := store.ListAllMessages();
    }
  }
}
