/**
  The in-memory store: the flat map from (owner, path) to folder objects, and
  the folders themselves, ordered lists of opaque messages changed in place.
*/
module MailStore {
  import opened Wrappers

  /** A stored message; this component never looks inside it. */
  datatype Message = Message(raw: string)

  /** A folder is addressed by the login of its owner and its path. */
  datatype FolderId = FolderId(owner: string, path: string)

  datatype FolderError = AlreadyExists

  /** The multiset of every message held in a map of folder contents. */
  ghost function AllMessages(m: map<FolderId, seq<Message>>): multiset<Message>
    decreases |m|
  {
    if m == map[] then multiset{}
    else
      var k :| k in m;
      multiset(m[k]) + AllMessages(m - {k})
  }

  /** The folders of one owner. */
  ghost function Owned(m: map<FolderId, seq<Message>>, owner: string): map<FolderId, seq<Message>>
  {
    map k | k in m && k.owner == owner :: m[k]
  }

  /** The folders of everybody else. */
  ghost function Others(m: map<FolderId, seq<Message>>, owner: string): map<FolderId, seq<Message>>
  {
    map k | k in m && k.owner != owner :: m[k]
  }

  /** Any folder may be taken out first when collecting all messages. */
  lemma {:induction false} AllMessagesRemove(m: map<FolderId, seq<Message>>, k: FolderId)
    requires k in m
    ensures AllMessages(m) == multiset(m[k]) + AllMessages(m - {k})
    decreases |m|
  {
    var k' :| k' in m && AllMessages(m) == multiset(m[k']) + AllMessages(m - {k'});
    if k' != k {
      AllMessagesRemove(m - {k'}, k);
      AllMessagesRemove(m - {k}, k');
      assert m - {k'} - {k} == m - {k} - {k'};
    }
  }

  /** A new, empty folder adds no message. */
  lemma AllMessagesNewFolder(m: map<FolderId, seq<Message>>, k: FolderId)
    requires k !in m
    ensures AllMessages(m[k := []]) == AllMessages(m)
  {
    AllMessagesRemove(m[k := []], k);
    assert m[k := []] - {k} == m;
  }

  /** Replacing one folder's messages changes the total by exactly that folder. */
  lemma AllMessagesUpdate(m: map<FolderId, seq<Message>>, k: FolderId, s: seq<Message>)
    requires k in m
    ensures AllMessages(m[k := s]) == AllMessages(m) - multiset(m[k]) + multiset(s)
  {
    AllMessagesRemove(m[k := s], k);
    AllMessagesRemove(m, k);
    assert m[k := s] - {k} == m - {k};
  }
  /** Appending a message to one folder adds exactly that message to the total. */
  lemma AllMessagesAppend(m: map<FolderId, seq<Message>>, k: FolderId, msg: Message)
    requires k in m
    ensures AllMessages(m[k := m[k] + [msg]]) == AllMessages(m) + multiset{msg}
  {
    AllMessagesRemove(m, k);
    AllMessagesUpdate(m, k, m[k] + [msg]);
  }

  /** Two distinct folders hold, between them, exactly the messages of both. */
  lemma AllMessagesTwoFolders(a: FolderId, b: FolderId, sa: seq<Message>, sb: seq<Message>)
    requires a != b
    ensures AllMessages(map[a := sa, b := sb]) == multiset(sa) + multiset(sb)
  {
    var m := map[a := sa, b := sb];
    var rest := map[b := sb];
    assert m - {a} == rest;
    AllMessagesRemove(m, a);
    assert rest - {b} == map[];
    AllMessagesRemove(rest, b);
  }


  /** Taking out a folder of the owner leaves the others' folders alone. */
  lemma RemoveOwnedFolder(m: map<FolderId, seq<Message>>, owner: string, k: FolderId)
    requires k in m && k.owner == owner
    ensures Owned(m - {k}, owner) == Owned(m, owner) - {k}
    ensures Others(m - {k}, owner) == Others(m, owner)
  {
  }

  /** Taking out a folder of someone else leaves the owner's folders alone. */
  lemma RemoveOtherFolder(m: map<FolderId, seq<Message>>, owner: string, k: FolderId)
    requires k in m && k.owner != owner
    ensures Owned(m - {k}, owner) == Owned(m, owner)
    ensures Others(m - {k}, owner) == Others(m, owner) - {k}
  {
  }

  /** The messages of one owner and of everybody else make up all messages. */
  lemma {:induction false} AllMessagesSplit(m: map<FolderId, seq<Message>>, owner: string)
    ensures AllMessages(m) == AllMessages(Owned(m, owner)) + AllMessages(Others(m, owner))
    decreases |m|
  {
    var mine, theirs := Owned(m, owner), Others(m, owner);
    if m == map[] {
      assert mine == map[] && theirs == map[];
    } else {
      var k :| k in m;
      AllMessagesRemove(m, k);
      AllMessagesSplit(m - {k}, owner);
      if k.owner == owner {
        RemoveOwnedFolder(m, owner, k);
        AllMessagesRemove(mine, k);
      } else {
        RemoveOtherFolder(m, owner, k);
        AllMessagesRemove(theirs, k);
      }
    }
  }

  /** A folder: an ordered list of messages, appended to at the tail. */
  class MailFolder {
    const id: FolderId
    var messages: seq<Message>

    constructor (id: FolderId)
      ensures this.id == id && messages == []
    {
      this.id := id;
      messages := [];
    }

    /** Appends a message at the tail. */
    method Store(m: Message)
      modifies this
      ensures messages == old(messages) + [m]
    {
      messages := messages + [m];
    }

    /** Removes every message of the folder. */
    method DeleteAllMessages()
      modifies this
      ensures messages == []
    {
      messages := [];
    }
  }

  /** The authoritative map from (owner, path) to folder. */
  class InMemoryStore {
    var folders: map<FolderId, MailFolder>

    /** Each folder is registered under its own id, so no folder is shared by two ids. */
    ghost predicate Valid()
      reads this
    {
      forall k :: k in folders ==> folders[k].id == k
    }

    /** The messages of every folder, by id. */
    ghost function Contents(): map<FolderId, seq<Message>>
      reads this, folders.Values
    {
      map k | k in folders :: folders[k].messages
    }

    constructor ()
      ensures Valid() && folders == map[]
    {
      folders := map[];
    }

    /** Registers a new empty folder, or fails when the id is taken. */
    method CreateFolder(id: FolderId) returns (r: Result<MailFolder, FolderError>)
      requires Valid()
      modifies this
      ensures Valid()
      ensures id in old(folders) ==> r == Failure(AlreadyExists) && folders == old(folders)
      ensures id !in old(folders) ==>
                r.Success? && fresh(r.value) && r.value.id == id && r.value.messages == [] &&
                folders == old(folders)[id := r.value]
      ensures Contents() == if id in old(folders) then old(Contents()) else old(Contents())[id := []]
      ensures AllMessages(Contents()) == AllMessages(old(Contents()))
    {
      if id in folders {
        r := Failure(AlreadyExists);
      } else {
        ghost var before := Contents();
        var f := new MailFolder(id);
        folders := folders[id := f];
        r := Success(f);
        assert Contents() == before[id := []];
        AllMessagesNewFolder(before, id);
      }
    }

    /** The folder registered under an id, or null. */
    method GetFolder(id: FolderId) returns (f: MailFolder?)
      requires Valid()
      ensures f != null <==> id in folders
      ensures f != null ==> f == folders[id] && f.id == id
    {
      f := if id in folders then folders[id] else null;
    }

    /** Drops every folder of one owner together with its messages. */
    method DeleteFoldersOf(owner: string)
      requires Valid()
      modifies this
      ensures Valid()
      ensures folders == map k | k in old(folders) && k.owner != owner :: old(folders)[k]
      ensures Contents() == Others(old(Contents()), owner)
    {
      folders := map k | k in folders && k.owner != owner :: folders[k];
    }

    /** A snapshot of every message in the store, in no particular order. */
    method ListAllMessages() returns (r: seq<Message>)
      ensures multiset(r) == AllMessages(Contents())
    {
      r := [];
      var keys := folders.Keys;
      ghost var left := Contents();
      while keys != {}
        invariant keys <= folders.Keys
        invariant left == map k | k in keys :: folders[k].messages
        invariant multiset(r) + AllMessages(left) == AllMessages(Contents())
        decreases keys
      {
        var k :| k in keys;
        AllMessagesRemove(left, k);
        r := r + folders[k].messages;
        keys := keys - {k};
        left := left - {k};
      }
    }
  }
}
