/** The event controller: the split of the query string into options and
    filter, the create-then-attend sequence, and attend/unattend on the
    authenticated caller's id. */
module EventController {
  import opened Common
  import opened EventModel
  import opened UserModel
  import opened Db
  import EventService

  // ----- getEventsByFilter: `{ page = 1, limit = 10, sortBy, ...filter }` ----

  /** A query option: the raw string from the URL, or the controller's numeric
      default when the key is absent. */
  datatype Param = Given(text: string) | Default(n: int)

  datatype QueryOptions = QueryOptions(page: Param, limit: Param, sortBy: Option<string>)

  const OptionKeys: set<string> := {"page", "limit", "sortBy"}

  function SplitQuery(query: map<string, string>): (r: (QueryOptions, map<string, string>))
    ensures r.0.page == (if "page" in query then Given(query["page"]) else Default(1))
    ensures r.0.limit == (if "limit" in query then Given(query["limit"]) else Default(10))
    ensures r.0.sortBy == (if "sortBy" in query then Some(query["sortBy"]) else None)
    // every other key goes to the filter, unchanged
    ensures forall k :: k in r.1 <==> k in query && k !in OptionKeys
    ensures forall k :: k in r.1 ==> r.1[k] == query[k]
  {
    var page := if "page" in query then Given(query["page"]) else Default(1);
    var limit := if "limit" in query then Given(query["limit"]) else Default(10);
    var sortBy := if "sortBy" in query then Some(query["sortBy"]) else None;
    (QueryOptions(page, limit, sortBy), query - OptionKeys)
  }

  // ----- createEvent ----------------------------------------------------------

  /** `createEvent` then `addUserToEvent` on the new event. A failing attend
      is reported, but the created event is not rolled back. Both saves see
      one instant `now`; the source reads the clock at each, which differs
      only when the event's time falls between the two reads. */
  function CreateEventAndAttend(db: Db, userId: Id, info: EventInfo, newId: Id, now: Time): (s: Step<Id>)
    requires FreshEventId(db, newId)
    ensures s.result.Ok? <==> userId in db.users && !FinishedAt(info.time, now)
    ensures s.result.Ok? ==> s.result.value == newId
    ensures newId in s.db.events && s.db.events[newId].organizer == userId
    ensures s.result.Error? ==> s.db == EventService.CreateEvent(db, userId, info, newId, now).db
  {
    var created := EventService.CreateEvent(db, userId, info, newId, now);
    var attended := EventService.AddUserToEvent(created.db, userId, newId, now);
    match attended.result
    case Error(m) => Step(Error(m), attended.db)
    case Ok(_) => Step(created.result, attended.db)
  }

  /** After a successful create the creator attends the new event in both
      lists; I1 and I2 hold for it. */
  lemma {:induction false} CreatorAttendsCreatedEvent(db: Db, userId: Id, info: EventInfo, newId: Id, now: Time)
    requires FreshEventId(db, newId)
    requires CreateEventAndAttend(db, userId, info, newId, now).result.Ok?
    ensures
      var after := CreateEventAndAttend(db, userId, info, newId, now).db;
      && userId in after.users && newId in after.events
      && newId in after.users[userId].futureEvents
      && after.events[newId].attendees == [userId]
      && after.events[newId].organizer == userId
  {
    var created := EventService.CreateEvent(db, userId, info, newId, now);
    assert PushIfAbsent([userId], userId) == [userId];
  }

  // ----- attendEvent / unattendEvent ------------------------------------------

  /** A request as the controller sees it: the id the authentication step
      decoded from the token, the `:id` path parameter and the JSON body. */
  datatype Request = Request(userId: Id, id: Id, body: map<string, string>)

  /** `attendEvent`: the caller, and no other user, joins the event. */
  function AttendEvent(db: Db, req: Request, now: Time): (s: Step<bool>)
    ensures s.result.Ok? ==>
      && req.userId in s.db.users && req.id in s.db.events
      && req.id in s.db.users[req.userId].futureEvents
      && req.userId in s.db.events[req.id].attendees
    ensures forall u :: u in db.users && u != req.userId ==> u in s.db.users && s.db.users[u] == db.users[u]
  {
    EventService.AddUserToEvent(db, req.userId, req.id, now)
  }

  /** `unattendEvent`: the caller, and no other user, leaves the event. */
  function UnattendEvent(db: Db, req: Request, now: Time): (s: Step<bool>)
    ensures s.result.Ok? ==>
      && req.userId in s.db.users && req.id in s.db.events
      && req.id !in s.db.users[req.userId].futureEvents
      && req.userId !in s.db.events[req.id].attendees
    ensures forall u :: u in db.users && u != req.userId ==> u in s.db.users && s.db.users[u] == db.users[u]
  {
    EventService.RemoveUserFromEvent(db, req.userId, req.id, now)
  }

  /** Whatever the body says (a `userId` field included), attend and unattend
      act for the authenticated caller only. */
  lemma CallerIdentityOnly(db: Db, req: Request, body: map<string, string>, now: Time)
    ensures AttendEvent(db, req.(body := body), now) == AttendEvent(db, req, now)
    ensures UnattendEvent(db, req.(body := body), now) == UnattendEvent(db, req, now)
  {
  }
}
