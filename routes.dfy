/**
 * The backend's two endpoints and their helpers: the request-body length
 * bounds, `ensure_app_user` (get-or-create on app_users), the normalisation
 * of insert results, `generate_message` (user, contact, generation, message,
 * in that order) and `history` (the caller's messages, flattened). The
 * database is `Tables.Database`; the model's generated text and every
 * database failure are parameters.
 */
module Routes {
  import opened Wrappers
  import opened Tables
  import opened AuthUtils

  // ---- Request body ----

  /** The `GenerateRequest` body; the five optional fields may be absent. */
  datatype GenerateRequest = GenerateRequest(
    targetName: string,
    targetRole: string,
    linkedinUrl: string,
    company: Option<string>,
    experiences: Option<string>,
    recentPost: Option<string>,
    education: Option<string>,
    otherNotes: Option<string>,
    goalPrompt: string)

  /** The length-bounded fields of the body. */
  datatype RequestField =
    | TargetNameField | TargetRoleField | CompanyField | ExperiencesField
    | RecentPostField | EducationField | OtherNotesField | GoalPromptField

  /** The `max_length` of each bounded field, as a table. */
  function MaxLength(f: RequestField): nat {
    match f
    case TargetNameField => 100
    case TargetRoleField => 100
    case CompanyField => 200
    case ExperiencesField => 2000
    case RecentPostField => 2000
    case EducationField => 1000
    case OtherNotesField => 1000
    case GoalPromptField => 1000
  }

  /** The value of a bounded field; None for an absent optional field. */
  function FieldText(r: GenerateRequest, f: RequestField): Option<string> {
    match f
    case TargetNameField => Some(r.targetName)
    case TargetRoleField => Some(r.targetRole)
    case CompanyField => r.company
    case ExperiencesField => r.experiences
    case RecentPostField => r.recentPost
    case EducationField => r.education
    case OtherNotesField => r.otherNotes
    case GoalPromptField => Some(r.goalPrompt)
  }

  predicate Over(s: Option<string>, max: nat) {
    s.Some? && |s.value| > max
  }

  /**
   * Lines 12-21: the fields whose value is longer than its bound. A body is
   * accepted iff this is empty; an absent optional field is never over.
   */
  function Violations(r: GenerateRequest): (v: set<RequestField>)
    ensures v == {} <==>
      && |r.targetName| <= 100 && |r.targetRole| <= 100 && !Over(r.company, 200)
      && !Over(r.experiences, 2000) && !Over(r.recentPost, 2000) && !Over(r.education, 1000)
      && !Over(r.otherNotes, 1000) && |r.goalPrompt| <= 1000
  {
    (if |r.targetName| > 100 then {TargetNameField} else {})
    + (if |r.targetRole| > 100 then {TargetRoleField} else {})
    + (if Over(r.company, 200) then {CompanyField} else {})
    + (if Over(r.experiences, 2000) then {ExperiencesField} else {})
    + (if Over(r.recentPost, 2000) then {RecentPostField} else {})
    + (if Over(r.education, 1000) then {EducationField} else {})
    + (if Over(r.otherNotes, 1000) then {OtherNotesField} else {})
    + (if |r.goalPrompt| > 1000 then {GoalPromptField} else {})
  }

  /** The bounds written out in `Violations` are exactly the `MaxLength` table. */
  lemma ViolationsMatchBounds(r: GenerateRequest)
    ensures forall f :: f in Violations(r) <==> Over(FieldText(r, f), MaxLength(f))
  {
  }

  /** A body with only the required fields, each within its bound, is accepted. */
  lemma RequiredOnlyAccepted(name: string, role: string, url: string, goal: string)
    requires |name| <= 100 && |role| <= 100 && |goal| <= 1000
    ensures Violations(GenerateRequest(name, role, url, None, None, None, None, None, goal)) == {}
  {
  }

  /** One character over a bound is refused, whatever the other fields hold. */
  lemma OneOverRefused(r: GenerateRequest)
    requires |r.targetName| == 101
    ensures TargetNameField in Violations(r)
  {
  }

  // ---- Responses and errors ----

  /** The `MessageHistoryItem` response schema (lines 24-32). */
  datatype HistoryItem = HistoryItem(
    id: Id,
    contactId: Id,
    targetName: string,
    targetRole: string,
    linkedinUrl: string,
    goalPrompt: string,
    generatedMessage: string,
    createdAt: nat)

  /** How a request fails: a raised HTTPException, a body refused by validation, or an uncaught exception (500). */
  datatype RouteError = Raised(e: HttpError) | Unprocessable(violations: set<RequestField>) | Uncaught

  const InternalServerError: nat := 500
  const FetchAppUserFailed := "Failed to fetch app user: "
  const CreateAppUserFailed := "Failed to create app user: "
  const CreateContactFailed := "failed to create contact"
  const GenerateFailed := "failed to generate message"
  const SaveMessageFailed := "failed to save message"
  const FetchHistoryFailed := "failed to fetch message history"

  /** Which database calls raise, the traceback text they report, and the shape inserts come back in. */
  datatype Faults = Faults(
    selectUserRaises: bool,
    insertUserRaises: bool,
    insertContactRaises: bool,
    insertMessageRaises: bool,
    selectHistoryRaises: bool,
    insertsReturnLists: bool,
    trace: string)

  /** Lines 78-80, 130, 163: a list yields its first element, a single row is itself. */
  function Normalise<T>(d: InsertData<T>): (r: Option<T>)
    ensures d.Row? ==> r == Some(d.row)
    ensures d.Rows? ==> (r.Some? <==> d.rows != []) && (r.Some? ==> r.value == d.rows[0])
  {
    match d
    case Row(x) => Some(x)
    case Rows(xs) => if xs == [] then None else Some(xs[0])
  }

  /** An insert reports its one row whichever shape the client returns. */
  lemma NormaliseInserted<T>(row: T, asList: bool)
    ensures Normalise(if asList then Rows([row]) else Row(row)) == Some(row)
  {
  }

  /** `email or ""` */
  function EmailOrEmpty(email: Option<string>): (e: string)
    ensures email.Some? && email.value != "" ==> e == email.value
    ensures email.None? || email == Some("") ==> e == ""
  {
    if email.None? then "" else email.value
  }

  // ---- ensure_app_user ----

  /**
   * The app_users table after `ensure_app_user`: one row `{auth_uid, email or ""}`
   * appended, with the next id, exactly when the lookup succeeds, finds
   * nothing and the insert does not raise; otherwise the table as it was.
   */
  ghost function AppUsersAfter(rows: seq<AppUserRow>, next: Id, uid: string, email: Option<string>, faults: Faults): seq<AppUserRow> {
    if !faults.selectUserRaises && UsersWithUid(rows, uid) == [] && !faults.insertUserRaises
    then rows + [AppUserRow(next, uid, EmailOrEmpty(email))]
    else rows
  }

  /** Whether `ensure_app_user` yields a row: the lookup succeeds, and a row exists or can be created. */
  predicate AppUserResolves(rows: seq<AppUserRow>, uid: string, faults: Faults) {
    !faults.selectUserRaises && (UsersWithUid(rows, uid) != [] || !faults.insertUserRaises)
  }

  /** Lines 57-80: a created row is the only row with its uid, so a later lookup finds it first. */
  lemma CreatedRowFoundNext(rows: seq<AppUserRow>, row: AppUserRow)
    requires UsersWithUid(rows, row.authUid) == []
    ensures UsersWithUid(rows + [row], row.authUid) == [row]
  {
    UsersWithUidAppend(rows, [row], row.authUid);
    assert UsersWithUid([row], row.authUid) == [row] + UsersWithUid([], row.authUid);
  }

  /**
   * Lines 34-80: return the first app user with this auth uid, inserting
   * `{auth_uid, email or ""}` when there is none. Either way the row
   * returned is afterwards the table's first row with that uid.
   */
  method EnsureAppUser(db: Database, userId: string, email: Option<string>, faults: Faults)
    returns (r: Result<AppUserRow, HttpError>)
    requires db.Valid()
    modifies db
    ensures db.Valid()
    ensures db.contacts == old(db.contacts) && db.messages == old(db.messages)
    ensures r.Success? <==> AppUserResolves(old(db.appUsers), userId, faults)
    ensures faults.selectUserRaises ==>
      r == Failure(HttpError(InternalServerError, FetchAppUserFailed + faults.trace)) && unchanged(db)
    ensures !faults.selectUserRaises && UsersWithUid(old(db.appUsers), userId) != [] ==>
      r == Success(UsersWithUid(old(db.appUsers), userId)[0]) && unchanged(db)
    ensures !faults.selectUserRaises && UsersWithUid(old(db.appUsers), userId) == [] && faults.insertUserRaises ==>
      r == Failure(HttpError(InternalServerError, CreateAppUserFailed + faults.trace)) && unchanged(db)
    ensures !faults.selectUserRaises && UsersWithUid(old(db.appUsers), userId) == [] && !faults.insertUserRaises ==>
      && r == Success(AppUserRow(old(db.next), userId, EmailOrEmpty(email)))
      && db.appUsers == old(db.appUsers) + [r.value]
    ensures r.Success? ==> UsersWithUid(db.appUsers, userId) != [] && UsersWithUid(db.appUsers, userId)[0] == r.value
    ensures db.appUsers == AppUsersAfter(old(db.appUsers), old(db.next), userId, email, faults)
  {
    if faults.selectUserRaises {
      return Failure(HttpError(InternalServerError, FetchAppUserFailed + faults.trace));
    }
    var rows := UsersWithUid(db.appUsers, userId);
    if rows != [] {
      return Success(rows[0]);
    }
    var created := db.InsertAppUser(userId, EmailOrEmpty(email), faults.insertUserRaises, faults.insertsReturnLists);
    if created.None? {
      return Failure(HttpError(InternalServerError, CreateAppUserFailed + faults.trace));
    }
    var row := Normalise(created.value).value;
    CreatedRowFoundNext(old(db.appUsers), row);
    r := Success(row);
  }

  /**
   * Once `ensure_app_user` has yielded a row for a uid, any later call for
   * that uid (through either endpoint) leaves app_users as it is.
   */
  lemma {:induction false} AppUsersSettle(
    rows: seq<AppUserRow>, next: Id, next': Id, uid: string, email: Option<string>, email': Option<string>,
    faults: Faults, faults': Faults)
    requires AppUserResolves(rows, uid, faults)
    ensures AppUsersAfter(AppUsersAfter(rows, next, uid, email, faults), next', uid, email', faults') ==
            AppUsersAfter(rows, next, uid, email, faults)
  {
    if UsersWithUid(rows, uid) == [] {
      CreatedRowFoundNext(rows, AppUserRow(next, uid, EmailOrEmpty(email)));
    }
  }

  /** A second call for the same uid finds the row the first call returned and inserts nothing. */
  method EnsureAppUserTwice(db: Database, userId: string, email: Option<string>, faults: Faults, again: Faults)
    returns (first: Result<AppUserRow, HttpError>, second: Result<AppUserRow, HttpError>)
    requires db.Valid()
    requires !again.selectUserRaises
    modifies db
    ensures db.Valid()
    ensures first.Success? ==> second == first
    ensures first.Success? ==>
      |db.appUsers| == |old(db.appUsers)| + (if UsersWithUid(old(db.appUsers), userId) == [] then 1 else 0)
  {
    first := EnsureAppUser(db, userId, email, faults);
    second := EnsureAppUser(db, userId, email, again);
  }

  // ---- generate_message ----

  /** The contact row data built from the body for an app user (lines 103-113). */
  function ContactFor(payload: GenerateRequest, appUserId: Id): (c: ContactData)
    ensures c.userId == appUserId && c.targetName == payload.targetName
    ensures c.targetRole == payload.targetRole && c.linkedinUrl == payload.linkedinUrl
  {
    ContactData(appUserId, payload.targetName, payload.targetRole, payload.linkedinUrl,
      payload.company, payload.experiences, payload.recentPost, payload.education, payload.otherNotes)
  }

  /** The body passes validation and the header authenticates. */
  ghost predicate Admitted(payload: GenerateRequest, header: Option<string>, decode: string -> Option<Payload>) {
    Violations(payload) == {} && GetCurrentUser(header, decode).Success?
  }

  /** A request that gets past `ensure_app_user` (line 99) and reaches the contact insert. */
  ghost predicate PastAppUser(
    payload: GenerateRequest, header: Option<string>, decode: string -> Option<Payload>,
    rows: seq<AppUserRow>, faults: Faults)
  {
    Admitted(payload, header, decode) && AppUserResolves(rows, GetCurrentUser(header, decode).value.id, faults)
  }

  /** The signed-in user's app user, once it exists in the table. */
  ghost function AppUserOf(rows: seq<AppUserRow>, header: Option<string>, decode: string -> Option<Payload>): Id
    requires GetCurrentUser(header, decode).Success?
    requires UsersWithUid(rows, GetCurrentUser(header, decode).value.id) != []
  {
    UsersWithUid(rows, GetCurrentUser(header, decode).value.id)[0].id
  }

  /**
   * Lines 83-175. The body is validated before anything else; then the
   * caller is authenticated, their app user ensured, the contact inserted,
   * the message generated and the message inserted, each failure ending
   * the request with what the earlier steps wrote left in place. On success
   * the saved message points at the contact just inserted and the response
   * echoes both.
   */
  method GenerateMessage(
    db: Database, header: Option<string>, decode: string -> Option<Payload>,
    payload: GenerateRequest, output: Option<string>, faults: Faults)
    returns (r: Result<HistoryItem, RouteError>)
    requires db.Valid()
    modifies db
    ensures db.Valid()
    ensures Violations(payload) != {} ==> r == Failure(Unprocessable(Violations(payload))) && unchanged(db)
    ensures Violations(payload) == {} && GetCurrentUser(header, decode).Failure? ==>
      r == Failure(Raised(GetCurrentUser(header, decode).error)) && unchanged(db)
    ensures Admitted(payload, header, decode) && faults.selectUserRaises ==>
      r == Failure(Raised(HttpError(InternalServerError, FetchAppUserFailed + faults.trace))) && unchanged(db)
    ensures (Admitted(payload, header, decode) && !faults.selectUserRaises && faults.insertUserRaises
             && UsersWithUid(old(db.appUsers), GetCurrentUser(header, decode).value.id) == []) ==>
      r == Failure(Raised(HttpError(InternalServerError, CreateAppUserFailed + faults.trace))) && unchanged(db)
    ensures PastAppUser(payload, header, decode, old(db.appUsers), faults) ==>
      UsersWithUid(db.appUsers, GetCurrentUser(header, decode).value.id) != []
    ensures Admitted(payload, header, decode) ==>
      var user := GetCurrentUser(header, decode).value;
      db.appUsers == AppUsersAfter(old(db.appUsers), old(db.next), user.id, user.email, faults)
    ensures PastAppUser(payload, header, decode, old(db.appUsers), faults) && faults.insertContactRaises ==>
      && r == Failure(Raised(HttpError(InternalServerError, CreateContactFailed)))
      && db.contacts == old(db.contacts) && db.messages == old(db.messages)
    ensures PastAppUser(payload, header, decode, old(db.appUsers), faults) && !faults.insertContactRaises ==>
      && |db.contacts| == |old(db.contacts)| + 1 && db.contacts[..|old(db.contacts)|] == old(db.contacts)
      && db.contacts[|old(db.contacts)|].data == ContactFor(payload, AppUserOf(db.appUsers, header, decode))
    ensures PastAppUser(payload, header, decode, old(db.appUsers), faults) && !faults.insertContactRaises && output.None? ==>
      r == Failure(Raised(HttpError(InternalServerError, GenerateFailed))) && db.messages == old(db.messages)
    ensures PastAppUser(payload, header, decode, old(db.appUsers), faults) && !faults.insertContactRaises && output.Some? && faults.insertMessageRaises ==>
      r == Failure(Raised(HttpError(InternalServerError, SaveMessageFailed))) && db.messages == old(db.messages)
    ensures r.Success? <==>
      && Admitted(payload, header, decode)
      && AppUserResolves(old(db.appUsers), GetCurrentUser(header, decode).value.id, faults)
      && !faults.insertContactRaises && output.Some? && !faults.insertMessageRaises
    ensures r.Success? ==>
      && |db.messages| == |old(db.messages)| + 1 && db.messages[..|old(db.messages)|] == old(db.messages)
      && var contact := db.contacts[|old(db.contacts)|];
      && var message := db.messages[|old(db.messages)|];
      && var appUserId := AppUserOf(db.appUsers, header, decode);
      && message.data == MessageData(appUserId, contact.id, payload.goalPrompt, output.value)
      && r.value == HistoryItem(message.id, contact.id, payload.targetName, payload.targetRole,
                                payload.linkedinUrl, payload.goalPrompt, output.value, message.createdAt)
  {
    var violations := Violations(payload);
    if violations != {} {
      return Failure(Unprocessable(violations));
    }
    var user := GetCurrentUser(header, decode);
    if user.Failure? {
      return Failure(Raised(user.error));
    }
    var appUser := EnsureAppUser(db, user.value.id, user.value.email, faults);
    if appUser.Failure? {
      return Failure(Raised(appUser.error));
    }
    var appUserId := appUser.value.id;
    ghost var users := db.appUsers;
    assert AppUserOf(users, header, decode) == appUserId;

    var contactData := ContactFor(payload, appUserId);
    var contactRes := db.InsertContact(contactData, faults.insertContactRaises, faults.insertsReturnLists);
    if contactRes.None? {
      return Failure(Raised(HttpError(InternalServerError, CreateContactFailed)));
    }
    var contact := Normalise(contactRes.value).value;

    if output.None? {
      return Failure(Raised(HttpError(InternalServerError, GenerateFailed)));
    }
    var messageText := output.value;

    ContactByIdAppend(old(db.contacts), contact, contact.id);
    var msgData := MessageData(appUserId, contact.id, payload.goalPrompt, messageText);
    var msgRes := db.InsertMessage(msgData, faults.insertMessageRaises, faults.insertsReturnLists);
    if msgRes.None? {
      return Failure(Raised(HttpError(InternalServerError, SaveMessageFailed)));
    }
    var msg := Normalise(msgRes.value).value;

    r := Success(HistoryItem(msg.id, msg.data.contactId, contact.data.targetName, contact.data.targetRole,
                             contact.data.linkedinUrl, msg.data.goalPrompt, msg.data.generatedMessage, msg.createdAt));
  }

  // ---- history ----

  /** Lines 209-220: one history row as a response item. */
  function Flattened(row: JoinedRow): (item: HistoryItem)
    requires row.contacts.Some?
    ensures item.id == row.id && item.contactId == row.contactId && item.createdAt == row.createdAt
    ensures item.targetName == row.contacts.value.targetName && item.targetRole == row.contacts.value.targetRole
    ensures item.linkedinUrl == row.contacts.value.linkedinUrl
    ensures item.goalPrompt == row.goalPrompt && item.generatedMessage == row.generatedMessage
  {
    var c := row.contacts.value;
    HistoryItem(row.id, row.contactId, c.targetName, c.targetRole, c.linkedinUrl,
      row.goalPrompt, row.generatedMessage, row.createdAt)
  }

  /**
   * Lines 206-223: one item per row, in the rows' order; no data gives an
   * empty list; a row without its contact stops the loop with an uncaught
   * exception.
   */
  method FlattenHistory(data: Option<seq<JoinedRow>>) returns (r: Result<seq<HistoryItem>, RouteError>)
    ensures data.None? ==> r == Success([])
    ensures data.Some? ==> (r.Success? <==> forall k :: 0 <= k < |data.value| ==> data.value[k].contacts.Some?)
    ensures r.Failure? ==> r.error == Uncaught
    ensures r.Success? && data.Some? ==>
      |r.value| == |data.value| && forall k :: 0 <= k < |data.value| ==> r.value[k] == Flattened(data.value[k])
  {
    var rows := if data.None? then [] else data.value;
    var items: seq<HistoryItem> := [];
    var i := 0;
    while i < |rows|
      invariant 0 <= i <= |rows|
      invariant forall k :: 0 <= k < i ==> rows[k].contacts.Some?
      invariant |items| == i && forall k :: 0 <= k < i ==> items[k] == Flattened(rows[k])
    {
      if rows[i].contacts.None? {
        return Failure(Uncaught);
      }
      items := items + [Flattened(rows[i])];
      i := i + 1;
    }
    r := Success(items);
  }

  /** Items made from rows newest first are newest first. */
  lemma FlattenedNewestFirst(rows: seq<JoinedRow>, items: seq<HistoryItem>)
    requires NewestFirst(rows)
    requires forall k :: 0 <= k < |rows| ==> rows[k].contacts.Some?
    requires |items| == |rows| && forall k :: 0 <= k < |rows| ==> items[k] == Flattened(rows[k])
    ensures forall i, j :: 0 <= i < j < |items| ==> items[i].createdAt > items[j].createdAt
  {
  }

  /** The caller reaches the history query: authenticated, with an app user. */
  ghost predicate ReachesQuery(header: Option<string>, decode: string -> Option<Payload>, rows: seq<AppUserRow>, faults: Faults) {
    GetCurrentUser(header, decode).Success? && AppUserResolves(rows, GetCurrentUser(header, decode).value.id, faults)
  }

  /**
   * Lines 178-223: the caller's messages, newest first, each with the name,
   * role and URL of its contact. Nothing but app_users can change.
   */
  method History(db: Database, header: Option<string>, decode: string -> Option<Payload>, faults: Faults)
    returns (r: Result<seq<HistoryItem>, RouteError>)
    requires db.Valid()
    modifies db
    ensures db.Valid()
    ensures db.contacts == old(db.contacts) && db.messages == old(db.messages)
    ensures GetCurrentUser(header, decode).Failure? ==>
      r == Failure(Raised(GetCurrentUser(header, decode).error)) && unchanged(db)
    ensures r.Success? <==> ReachesQuery(header, decode, old(db.appUsers), faults) && !faults.selectHistoryRaises
    ensures GetCurrentUser(header, decode).Success? && faults.selectUserRaises ==>
      r == Failure(Raised(HttpError(InternalServerError, FetchAppUserFailed + faults.trace))) && unchanged(db)
    ensures (GetCurrentUser(header, decode).Success? && !faults.selectUserRaises && faults.insertUserRaises
             && UsersWithUid(old(db.appUsers), GetCurrentUser(header, decode).value.id) == []) ==>
      r == Failure(Raised(HttpError(InternalServerError, CreateAppUserFailed + faults.trace))) && unchanged(db)
    ensures ReachesQuery(header, decode, old(db.appUsers), faults) && faults.selectHistoryRaises ==>
      r == Failure(Raised(HttpError(InternalServerError, FetchHistoryFailed)))
    ensures r.Success? ==> UsersWithUid(db.appUsers, GetCurrentUser(header, decode).value.id) != []
    ensures GetCurrentUser(header, decode).Success? ==>
      var user := GetCurrentUser(header, decode).value;
      db.appUsers == AppUsersAfter(old(db.appUsers), old(db.next), user.id, user.email, faults)
    ensures r.Success? ==>
      var rows := SelectHistory(db.messages, db.contacts, AppUserOf(db.appUsers, header, decode));
      && (forall k :: 0 <= k < |rows| ==> rows[k].contacts.Some?)
      && |r.value| == |rows|
      && (forall k :: 0 <= k < |rows| ==> r.value[k] == Flattened(rows[k]))
      && (forall i, j :: 0 <= i < j < |r.value| ==> r.value[i].createdAt > r.value[j].createdAt)
  {
    var user := GetCurrentUser(header, decode);
    if user.Failure? {
      return Failure(Raised(user.error));
    }
    var appUser := EnsureAppUser(db, user.value.id, user.value.email, faults);
    if appUser.Failure? {
      return Failure(Raised(appUser.error));
    }
    if faults.selectHistoryRaises {
      return Failure(Raised(HttpError(InternalServerError, FetchHistoryFailed)));
    }
    var rows := SelectHistory(db.messages, db.contacts, appUser.value.id);
    SelectHistoryJoined(db.messages, db.contacts, appUser.value.id);
    SelectHistoryNewestFirst(db.messages, db.contacts, appUser.value.id);
    assert forall k :: 0 <= k < |rows| ==> rows[k].contacts.Some? by {
      forall k | 0 <= k < |rows| ensures rows[k].contacts.Some? {
        assert rows[k] in rows;
      }
    }
    r := FlattenHistory(Some(rows));
    FlattenedNewestFirst(rows, r.value);
  }
}
