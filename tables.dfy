/**
 * The three tables the backend reads and writes (app_users, contacts,
 * messages), standing in for the hosted database. The store assigns each
 * inserted row a fresh id and each message its `created_at`, both drawn
 * from one counter, so a later insert always has a larger id and a later
 * timestamp. Queries are functions of the table contents; inserts are
 * methods, and whether one raises is a parameter.
 */
module Tables {
  import opened Wrappers

  type Id = nat

  datatype AppUserRow = AppUserRow(id: Id, authUid: string, email: string)

  /** The `contact_data` dict inserted into contacts (routes.py lines 103-113). */
  datatype ContactData = ContactData(
    userId: Id,
    targetName: string,
    targetRole: string,
    linkedinUrl: string,
    company: Option<string>,
    experiences: Option<string>,
    recentPost: Option<string>,
    education: Option<string>,
    otherNotes: Option<string>)

  datatype ContactRow = ContactRow(id: Id, data: ContactData)

  /** The `msg_data` dict inserted into messages (routes.py lines 142-147). */
  datatype MessageData = MessageData(userId: Id, contactId: Id, goalPrompt: string, generatedMessage: string)

  datatype MessageRow = MessageRow(id: Id, createdAt: nat, data: MessageData)

  /** What an insert's `.data` holds: the client may hand back a list of rows or one row. */
  datatype InsertData<T> = Rows(rows: seq<T>) | Row(row: T)

  /** The `contacts (target_name, target_role, linkedin_url)` part of a history row. */
  datatype ContactFields = ContactFields(targetName: string, targetRole: string, linkedinUrl: string)

  /** One row of the history query: message columns with the embedded contact (null when it has none). */
  datatype JoinedRow = JoinedRow(
    id: Id,
    contactId: Id,
    goalPrompt: string,
    generatedMessage: string,
    createdAt: nat,
    contacts: Option<ContactFields>)

  /** `select * from app_users where auth_uid = uid`, in table order. */
  function UsersWithUid(rows: seq<AppUserRow>, uid: string): (r: seq<AppUserRow>)
    ensures forall x :: x in r ==> x in rows && x.authUid == uid
    ensures forall x :: x in rows && x.authUid == uid ==> x in r
    ensures |r| <= |rows|
  {
    if rows == [] then []
    else (if rows[0].authUid == uid then [rows[0]] else []) + UsersWithUid(rows[1..], uid)
  }

  /** The first match is the first row of the table with that uid. */
  lemma {:induction false} FirstUserWithUid(rows: seq<AppUserRow>, uid: string)
    requires UsersWithUid(rows, uid) != []
    ensures exists i ::
      && 0 <= i < |rows| && rows[i] == UsersWithUid(rows, uid)[0]
      && rows[i].authUid == uid && forall k :: 0 <= k < i ==> rows[k].authUid != uid
  {
    if rows[0].authUid != uid {
      FirstUserWithUid(rows[1..], uid);
      var i :| 0 <= i < |rows[1..]| && rows[1..][i] == UsersWithUid(rows[1..], uid)[0] &&
        rows[1..][i].authUid == uid && forall k :: 0 <= k < i ==> rows[1..][k].authUid != uid;
      assert rows[i + 1] == UsersWithUid(rows, uid)[0];
    } else {
      assert rows[0] == UsersWithUid(rows, uid)[0];
    }
  }

  /** Appending rows leaves the earlier matches first. */
  lemma {:induction false} UsersWithUidAppend(rows: seq<AppUserRow>, extra: seq<AppUserRow>, uid: string)
    ensures UsersWithUid(rows + extra, uid) == UsersWithUid(rows, uid) + UsersWithUid(extra, uid)
  {
    if rows == [] {
      assert rows + extra == extra;
    } else {
      assert (rows + extra)[1..] == rows[1..] + extra;
      UsersWithUidAppend(rows[1..], extra, uid);
    }
  }

  /** The contact a message row points at: the first contact with that id. */
  function ContactById(contacts: seq<ContactRow>, id: Id): (r: Option<ContactRow>)
    ensures r.Some? ==> r.value in contacts && r.value.id == id
    ensures r.None? ==> forall c :: c in contacts ==> c.id != id
  {
    if contacts == [] then None
    else if contacts[0].id == id then Some(contacts[0])
    else ContactById(contacts[1..], id)
  }

  /** Appending a contact does not change what existing ids resolve to, and makes the new id resolve. */
  lemma {:induction false} ContactByIdAppend(contacts: seq<ContactRow>, c: ContactRow, id: Id)
    requires forall x :: x in contacts ==> x.id != c.id
    ensures ContactById(contacts + [c], id) == if ContactById(contacts, id).Some? || id != c.id then ContactById(contacts, id) else Some(c)
  {
    if contacts == [] {
      assert contacts + [c] == [c];
    } else {
      assert (contacts + [c])[1..] == contacts[1..] + [c];
      ContactByIdAppend(contacts[1..], c, id);
    }
  }

  /**
   * The history query (routes.py lines 188-197): the messages whose user_id
   * is `uid`, newest first, each joined with its contact.
   */
  function SelectHistory(messages: seq<MessageRow>, contacts: seq<ContactRow>, uid: Id): (r: seq<JoinedRow>)
    ensures |r| <= |messages|
  {
    if messages == [] then []
    else
      var m := messages[|messages| - 1];
      var rest := SelectHistory(messages[..|messages| - 1], contacts, uid);
      if m.data.userId == uid then [Join(m, contacts)] + rest else rest
  }

  function Join(m: MessageRow, contacts: seq<ContactRow>): (j: JoinedRow)
    ensures j.id == m.id && j.contactId == m.data.contactId && j.createdAt == m.createdAt
  {
    var c := ContactById(contacts, m.data.contactId);
    JoinedRow(m.id, m.data.contactId, m.data.goalPrompt, m.data.generatedMessage, m.createdAt,
      if c.None? then None
      else Some(ContactFields(c.value.data.targetName, c.value.data.targetRole, c.value.data.linkedinUrl)))
  }

  /** Every returned row is one of the caller's messages, joined. */
  lemma {:induction false} SelectHistoryOnlyOwn(messages: seq<MessageRow>, contacts: seq<ContactRow>, uid: Id)
    ensures forall j :: j in SelectHistory(messages, contacts, uid) ==>
      exists m :: m in messages && m.data.userId == uid && j == Join(m, contacts)
  {
    if messages != [] {
      var init := messages[..|messages| - 1];
      SelectHistoryOnlyOwn(init, contacts, uid);
      forall j | j in SelectHistory(messages, contacts, uid)
        ensures exists m :: m in messages && m.data.userId == uid && j == Join(m, contacts)
      {
        if j !in SelectHistory(init, contacts, uid) {
          assert j == Join(messages[|messages| - 1], contacts);
        } else {
          var m :| m in init && m.data.userId == uid && j == Join(m, contacts);
          assert m in messages;
        }
      }
    }
  }

  /** Every one of the caller's messages is returned. */
  lemma {:induction false} SelectHistoryComplete(messages: seq<MessageRow>, contacts: seq<ContactRow>, uid: Id)
    ensures forall m :: m in messages && m.data.userId == uid ==> Join(m, contacts) in SelectHistory(messages, contacts, uid)
  {
    if messages != [] {
      var init := messages[..|messages| - 1];
      SelectHistoryComplete(init, contacts, uid);
      assert messages == init + [messages[|messages| - 1]];
    }
  }

  /** Timestamps strictly increase along the table. */
  ghost predicate CreatedInOrder(messages: seq<MessageRow>) {
    forall i, j :: 0 <= i < j < |messages| ==> messages[i].createdAt < messages[j].createdAt
  }

  /** Timestamps strictly decrease along the rows. */
  ghost predicate NewestFirst(rows: seq<JoinedRow>) {
    forall i, j :: 0 <= i < j < |rows| ==> rows[i].createdAt > rows[j].createdAt
  }

  /** With timestamps increasing along the table, the query returns newest first. */
  lemma {:induction false} SelectHistoryNewestFirst(messages: seq<MessageRow>, contacts: seq<ContactRow>, uid: Id)
    requires CreatedInOrder(messages)
    ensures NewestFirst(SelectHistory(messages, contacts, uid))
    ensures forall j :: j in SelectHistory(messages, contacts, uid) ==>
      exists k :: 0 <= k < |messages| && j.createdAt == messages[k].createdAt
  {
    if messages != [] {
      var init := messages[..|messages| - 1];
      var last := messages[|messages| - 1];
      SelectHistoryNewestFirst(init, contacts, uid);
      var rest := SelectHistory(init, contacts, uid);
      forall j | j in rest ensures j.createdAt < last.createdAt {
        var k :| 0 <= k < |init| && j.createdAt == init[k].createdAt;
        assert init[k] == messages[k];
      }
      var r := SelectHistory(messages, contacts, uid);
      if last.data.userId == uid {
        assert r == [Join(last, contacts)] + rest;
        forall i, j | 0 <= i < j < |r| ensures r[i].createdAt > r[j].createdAt {
          assert r[j] == rest[j - 1] && r[j] in rest;
          if i == 0 {
            assert r[0] == Join(last, contacts);
          } else {
            assert r[i] == rest[i - 1];
          }
        }
      }
      forall j | j in SelectHistory(messages, contacts, uid)
        ensures exists k :: 0 <= k < |messages| && j.createdAt == messages[k].createdAt
      {
        if j in rest {
          var k :| 0 <= k < |init| && j.createdAt == init[k].createdAt;
          assert messages[k] == init[k];
        } else {
          assert j.createdAt == messages[|messages| - 1].createdAt;
        }
      }
    }
  }

  /** When every message's contact exists, every history row carries its contact. */
  lemma {:induction false} SelectHistoryJoined(messages: seq<MessageRow>, contacts: seq<ContactRow>, uid: Id)
    requires forall k :: 0 <= k < |messages| ==> ContactById(contacts, messages[k].data.contactId).Some?
    ensures forall j :: j in SelectHistory(messages, contacts, uid) ==> j.contacts.Some?
  {
    if messages != [] {
      SelectHistoryJoined(messages[..|messages| - 1], contacts, uid);
    }
  }

  /** The store's contents, with one counter for ids and timestamps. */
  class Database {
    var appUsers: seq<AppUserRow>
    var contacts: seq<ContactRow>
    var messages: seq<MessageRow>
    var next: nat

    /**
     * Every id and timestamp was drawn from the counter, timestamps increase
     * along the messages table, and every message's contact exists.
     */
    ghost predicate Valid()
      reads this
    {
      && (forall u :: u in appUsers ==> u.id < next)
      && (forall c :: c in contacts ==> c.id < next)
      && (forall m :: m in messages ==> m.id < next && m.createdAt < next)
      && CreatedInOrder(messages)
      && (forall k :: 0 <= k < |messages| ==> ContactById(contacts, messages[k].data.contactId).Some?)
    }

    constructor ()
      ensures Valid()
      ensures appUsers == [] && contacts == [] && messages == []
    {
      appUsers, contacts, messages, next := [], [], [], 0;
    }

    /** `insert(new_row).execute()` on app_users. */
    method InsertAppUser(authUid: string, email: string, raises: bool, asList: bool)
      returns (r: Option<InsertData<AppUserRow>>)
      requires Valid()
      modifies this
      ensures Valid()
      ensures raises ==> r.None? && unchanged(this)
      ensures !raises ==>
        var row := AppUserRow(old(next), authUid, email);
        && appUsers == old(appUsers) + [row]
        && contacts == old(contacts) && messages == old(messages)
        && next == old(next) + 1
        && r == Some(if asList then Rows([row]) else Row(row))
    {
      if raises {
        return None;
      }
      var row := AppUserRow(next, authUid, email);
      appUsers := appUsers + [row];
      next := next + 1;
      r := Some(if asList then Rows([row]) else Row(row));
    }

    /** `insert(contact_data).execute()` on contacts. */
    method InsertContact(data: ContactData, raises: bool, asList: bool)
      returns (r: Option<InsertData<ContactRow>>)
      requires Valid()
      modifies this
      ensures Valid()
      ensures raises ==> r.None? && unchanged(this)
      ensures !raises ==>
        var row := ContactRow(old(next), data);
        && contacts == old(contacts) + [row]
        && appUsers == old(appUsers) && messages == old(messages)
        && next == old(next) + 1
        && r == Some(if asList then Rows([row]) else Row(row))
    {
      if raises {
        return None;
      }
      var row := ContactRow(next, data);
      forall k | 0 <= k < |messages|
        ensures ContactById(contacts + [row], messages[k].data.contactId).Some?
      {
        ContactByIdAppend(contacts, row, messages[k].data.contactId);
      }
      contacts := contacts + [row];
      next := next + 1;
      r := Some(if asList then Rows([row]) else Row(row));
    }

    /** `insert(msg_data).execute()` on messages; the store stamps `created_at`. */
    method InsertMessage(data: MessageData, raises: bool, asList: bool)
      returns (r: Option<InsertData<MessageRow>>)
      requires Valid()
      requires ContactById(contacts, data.contactId).Some?
      modifies this
      ensures Valid()
      ensures raises ==> r.None? && unchanged(this)
      ensures !raises ==>
        var row := MessageRow(old(next), old(next), data);
        && messages == old(messages) + [row]
        && appUsers == old(appUsers) && contacts == old(contacts)
        && next == old(next) + 1
        && r == Some(if asList then Rows([row]) else Row(row))
    {
      if raises {
        return None;
      }
      var row := MessageRow(next, next, data);
      messages := messages + [row];
      next := next + 1;
      r := Some(if asList then Rows([row]) else Row(row));
    }
  }
}
