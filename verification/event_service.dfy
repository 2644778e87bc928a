/** The event service as transitions of the collections: lookup, create,
    organizer-only update and delete (with its cascade), and the attendance
    protocol over `user.futureEvents` and `event.attendees`. */
module EventService {
  import opened Common
  import opened EventModel
  import opened UserModel
  import opened Db
  import UserService

  const EventNotFound := "Event not found"
  const NotAnOrganizer := "Not an organizer"
  const NotTheOrganizer := "Not the organizer"
  const NotFoundOrFinished := "Event not found or already finished"
  const AlreadyInEvent := "User already in the event"
  const NotInEvent := "User not in the event"
  const OrganizerMustDelete := "User is the organizer, please delete event instead"

  /** An event that `findOne({ _id, isFinished: false })` finds. */
  predicate Live(db: Db, eventId: Id) {
    eventId in db.events && !db.events[eventId].isFinished
  }

  function GetEventById(db: Db, eventId: Id): (r: Result<Event>)
    ensures r.Ok? <==> eventId in db.events
    ensures r.Ok? ==> r.value == db.events[eventId]
    ensures r.Error? ==> r.message == EventNotFound
  {
    if eventId in db.events then Ok(db.events[eventId]) else Error(EventNotFound)
  }

  // ----- create, update, delete ---------------------------------------------

  /** `createEvent`: the caller becomes organizer and sole attendee. */
  function CreateEvent(db: Db, userId: Id, info: EventInfo, newId: Id, now: Time): (s: Step<Id>)
    requires newId !in db.events
    ensures s.result == Ok(newId)
    ensures s.db.users == db.users && s.db.comments == db.comments
    ensures s.db.events.Keys == db.events.Keys + {newId}
    ensures forall e :: e in db.events ==> s.db.events[e] == db.events[e]
    ensures s.db.events[newId].organizer == userId
    ensures s.db.events[newId].attendees == [userId]
    ensures s.db.events[newId].name == info.name && s.db.events[newId].time == info.time
    ensures s.db.events[newId].location == info.location
    ensures s.db.events[newId].coverUrl == Some(info.coverUrl.GetOr(""))
    ensures s.db.events[newId].description == Some(info.description.GetOr(""))
    ensures s.db.events[newId].imagesUrls == Some(info.imagesUrls.GetOr([]))
    ensures s.db.events[newId].isFinished <==> FinishedAt(info.time, now)
  {
    Step(Ok(newId), db.(events := db.events[newId := NewEvent(info, userId, [userId], now)]))
  }

  /** `updateEvent`: only the organizer of a live event may overwrite its six
      caller-supplied fields; organizer and attendees stay. */
  function UpdateEvent(db: Db, userId: Id, eventId: Id, info: EventInfo, now: Time): (s: Step<Event>)
    ensures !Live(db, eventId) ==> s == Step(Error(EventNotFound), db)
    ensures Live(db, eventId) && db.events[eventId].organizer != userId ==>
              s == Step(Error(NotAnOrganizer), db)
    ensures s.result.Ok? <==> Live(db, eventId) && db.events[eventId].organizer == userId
    ensures s.result.Ok? ==>
      var e := s.result.value;
      && s.db == db.(events := db.events[eventId := e])
      && e.name == info.name && e.location == info.location && e.time == info.time
      && e.coverUrl == info.coverUrl && e.imagesUrls == info.imagesUrls
      && e.description == info.description
      && e.organizer == db.events[eventId].organizer
      && e.attendees == db.events[eventId].attendees
      && (e.isFinished <==> FinishedAt(info.time, now))
  {
    if !Live(db, eventId) then Step(Error(EventNotFound), db)
    else if db.events[eventId].organizer != userId then Step(Error(NotAnOrganizer), db)
    else
      var saved := PreSave(AssignAllowed(db.events[eventId], info), now);
      Step(Ok(saved), db.(events := db.events[eventId := saved]))
  }

  /** The names in `updateEvent`'s `allowedFields` list. */
  datatype EventKey = NameKey | LocationKey | TimeKey | CoverUrlKey | ImagesUrlsKey | DescriptionKey

  const AllowedFields: seq<EventKey> := [NameKey, LocationKey, TimeKey, CoverUrlKey, ImagesUrlsKey, DescriptionKey]

  /** `event[field] = eventInfo[field]` for one field. */
  function SetField(e: Event, info: EventInfo, k: EventKey): Event {
    match k
    case NameKey => e.(name := info.name)
    case LocationKey => e.(location := info.location)
    case TimeKey => e.(time := info.time)
    case CoverUrlKey => e.(coverUrl := info.coverUrl)
    case ImagesUrlsKey => e.(imagesUrls := info.imagesUrls)
    case DescriptionKey => e.(description := info.description)
  }

  /** Field `k` of `e` holds either the request's value or the old one. */
  predicate FieldIs(e: Event, source: Event, info: EventInfo, k: EventKey, copied: bool) {
    match k
    case NameKey => e.name == (if copied then info.name else source.name)
    case LocationKey => e.location == (if copied then info.location else source.location)
    case TimeKey => e.time == (if copied then info.time else source.time)
    case CoverUrlKey => e.coverUrl == (if copied then info.coverUrl else source.coverUrl)
    case ImagesUrlsKey => e.imagesUrls == (if copied then info.imagesUrls else source.imagesUrls)
    case DescriptionKey => e.description == (if copied then info.description else source.description)
  }

  /** The `allowedFields.forEach` loop of `updateEvent`: every allowed field
      is copied from the request, and no other field is touched. */
  method CopyAllowedFields(e: Event, info: EventInfo) returns (r: Event)
    ensures r == AssignAllowed(e, info)
  {
    r := e;
    for i := 0 to |AllowedFields|
      invariant forall k :: FieldIs(r, e, info, k, k in AllowedFields[..i])
      invariant r.organizer == e.organizer && r.attendees == e.attendees && r.isFinished == e.isFinished
    {
      assert AllowedFields[..i + 1] == AllowedFields[..i] + [AllowedFields[i]];
      r := SetField(r, info, AllowedFields[i]);
    }
    forall k ensures FieldIs(r, e, info, k, true) {
      assert FieldIs(r, e, info, k, k in AllowedFields[..|AllowedFields|]);
      assert AllowedFields[..|AllowedFields|] == AllowedFields;
      match k
      case NameKey => assert AllowedFields[0] == k;
      case LocationKey => assert AllowedFields[1] == k;
      case TimeKey => assert AllowedFields[2] == k;
      case CoverUrlKey => assert AllowedFields[3] == k;
      case ImagesUrlsKey => assert AllowedFields[4] == k;
      case DescriptionKey => assert AllowedFields[5] == k;
    }
    assert FieldIs(r, e, info, NameKey, true) && FieldIs(r, e, info, LocationKey, true);
    assert FieldIs(r, e, info, TimeKey, true) && FieldIs(r, e, info, CoverUrlKey, true);
    assert FieldIs(r, e, info, ImagesUrlsKey, true) && FieldIs(r, e, info, DescriptionKey, true);
  }

  /** The users once the event is pulled from every `futureEvents`, then from
      every `pastEvents`. */
  function PullEventFromUsers(users: map<Id, User>, eventId: Id): (r: map<Id, User>)
    ensures r.Keys == users.Keys
    ensures forall u :: u in r ==> eventId !in r[u].futureEvents && eventId !in r[u].pastEvents
    ensures forall u :: u in r ==>
      r[u] == users[u].(futureEvents := Pull(users[u].futureEvents, eventId),
                        pastEvents := Pull(users[u].pastEvents, eventId))
  {
    var pulledFuture := map u | u in users ::
                          users[u].(futureEvents := Pull(users[u].futureEvents, eventId));
    map u | u in pulledFuture ::
      pulledFuture[u].(pastEvents := Pull(pulledFuture[u].pastEvents, eventId))
  }

  /** `deleteEvent`: only the organizer may delete, finished or not; the
      event leaves every user's lists, its comments go, then the event. */
  function DeleteEvent(db: Db, userId: Id, eventId: Id): (s: Step<()>)
    ensures eventId !in db.events ==> s == Step(Error(EventNotFound), db)
    ensures eventId in db.events && db.events[eventId].organizer != userId ==>
              s == Step(Error(NotTheOrganizer), db)
    ensures s.result.Ok? <==> eventId in db.events && db.events[eventId].organizer == userId
    ensures s.result.Ok? ==>
      && s.db.events == db.events - {eventId}
      && s.db.users.Keys == db.users.Keys
      && (forall u :: u in s.db.users ==>
            && eventId !in s.db.users[u].futureEvents && eventId !in s.db.users[u].pastEvents
            && s.db.users[u] == db.users[u].(futureEvents := Pull(db.users[u].futureEvents, eventId),
                                             pastEvents := Pull(db.users[u].pastEvents, eventId)))
      && s.db.comments.Keys <= db.comments.Keys
      && (forall c :: c in s.db.comments ==> s.db.comments[c].event != eventId)
      && (forall c :: c in db.comments && db.comments[c].event != eventId ==>
            c in s.db.comments && s.db.comments[c] == db.comments[c])
  {
    if eventId !in db.events then Step(Error(EventNotFound), db)
    else if db.events[eventId].organizer != userId then Step(Error(NotTheOrganizer), db)
    else
      var db1 := db.(users := PullEventFromUsers(db.users, eventId));
      var db2 := db1.(comments := map c | c in db1.comments && db1.comments[c].event != eventId ::
                                    db1.comments[c]);
      Step(Ok(()), db2.(events := db2.events - {eventId}))
  }

  // ----- attendance ---------------------------------------------------------

  /** The membership `addUserToEvent` refuses to repeat. */
  predicate Attending(db: Db, userId: Id, eventId: Id)
    requires userId in db.users && eventId in db.events
  {
    eventId in db.users[userId].futureEvents && userId in db.events[eventId].attendees
  }

  /** The collections after `addUserToEvent`'s first save (the user's) and
      before its second (the event's). */
  function AttendUserSaved(db: Db, userId: Id, eventId: Id): (mid: Db)
    requires userId in db.users
    ensures mid.events == db.events && mid.comments == db.comments
    ensures mid.users.Keys == db.users.Keys
    ensures forall u :: u in db.users && u != userId ==> mid.users[u] == db.users[u]
    ensures eventId in mid.users[userId].futureEvents
    // pushed only when absent: no duplicate, no earlier entry lost
    ensures var before := db.users[userId].futureEvents;
      && (eventId in before ==> mid.users[userId].futureEvents == before)
      && (eventId !in before ==> mid.users[userId].futureEvents == before + [eventId])
    ensures mid.users[userId] == db.users[userId].(futureEvents := mid.users[userId].futureEvents)
  {
    var user := db.users[userId];
    db.(users := db.users[userId := user.(futureEvents := PushIfAbsent(user.futureEvents, eventId))])
  }

  /** `addUserToEvent`. */
  function AddUserToEvent(db: Db, userId: Id, eventId: Id, now: Time): (s: Step<bool>)
    ensures userId !in db.users ==> s == Step(Error(UserService.UserNotFound), db)
    ensures userId in db.users && !Live(db, eventId) ==> s == Step(Error(NotFoundOrFinished), db)
    ensures userId in db.users && Live(db, eventId) && Attending(db, userId, eventId) ==>
              s == Step(Error(AlreadyInEvent), db)
    ensures s.result.Ok? <==>
              userId in db.users && Live(db, eventId) && !Attending(db, userId, eventId)
    ensures s.result.Ok? ==> userId in s.db.users && eventId in s.db.events
    ensures s.result.Ok? ==>
      var before, after := db.users[userId].futureEvents, s.db.users[userId].futureEvents;
      var attendees, attendees' := db.events[eventId].attendees, s.db.events[eventId].attendees;
      && s.result.value
      && eventId in after && userId in attendees'
      && before <= after && |after| <= |before| + 1
      && attendees <= attendees' && |attendees'| <= |attendees| + 1
      // each list is pushed to only when the id is absent from it
      && (eventId in before ==> after == before) && (eventId !in before ==> after == before + [eventId])
      && (userId in attendees ==> attendees' == attendees)
      && (userId !in attendees ==> attendees' == attendees + [userId])
      && s.db.users == db.users[userId := db.users[userId].(futureEvents := after)]
      && s.db.events == db.events[eventId := PreSave(db.events[eventId].(attendees := attendees'), now)]
      && s.db.comments == db.comments
  {
    if UserService.GetUserById(db, userId).Error? then Step(Error(UserService.UserNotFound), db)
    else if !Live(db, eventId) then Step(Error(NotFoundOrFinished), db)
    else if Attending(db, userId, eventId) then Step(Error(AlreadyInEvent), db)
    else
      var mid := AttendUserSaved(db, userId, eventId);
      var event := db.events[eventId];
      var saved := PreSave(event.(attendees := PushIfAbsent(event.attendees, userId)), now);
      Step(Ok(true), mid.(events := mid.events[eventId := saved]))
  }

  /** How `removeUserFromEvent` tells whether the caller is the organizer. */
  datatype OrganizerCheck =
    | ByValue           // ids compared by value, as the guard intends
    | ObjectIdVsString  // `event.organizer === userId`: an ObjectId against a string

  function IsOrganizer(check: OrganizerCheck, organizer: Id, userId: Id): bool {
    match check
    case ByValue => organizer == userId
    case ObjectIdVsString => false  // strict equality of an object and a string never holds
  }

  /** `removeUserFromEvent`, with the organizer guard as given. */
  function Unattend(db: Db, userId: Id, eventId: Id, now: Time, check: OrganizerCheck): (s: Step<bool>)
    ensures s.result.Error? ==> s.db == db
    ensures s.result.Ok? ==>
      && userId in db.users && Live(db, eventId)
      && s.db.comments == db.comments
      && s.db.users == db.users[userId := db.users[userId].(
           futureEvents := Pull(db.users[userId].futureEvents, eventId))]
      && s.db.events == db.events[eventId := PreSave(db.events[eventId].(
           attendees := Pull(db.events[eventId].attendees, userId)), now)]
  {
    if UserService.GetUserById(db, userId).Error? then Step(Error(UserService.UserNotFound), db)
    else if !Live(db, eventId) then Step(Error(NotFoundOrFinished), db)
    else
      var user, event := db.users[userId], db.events[eventId];
      if eventId !in user.futureEvents && userId !in event.attendees then Step(Error(NotInEvent), db)
      else if IsOrganizer(check, event.organizer, userId) then Step(Error(OrganizerMustDelete), db)
      else
        PullAbsentIfMissing(user.futureEvents, eventId);
        PullAbsentIfMissing(event.attendees, userId);
        var user' := if eventId in user.futureEvents
                     then user.(futureEvents := Pull(user.futureEvents, eventId)) else user;
        var event' := if userId in event.attendees
                      then event.(attendees := Pull(event.attendees, userId)) else event;
        var db1 := db.(users := db.users[userId := user']);
        Step(Ok(true), db1.(events := db1.events[eventId := PreSave(event', now)]))
  }

  lemma PullAbsentIfMissing(s: seq<Id>, x: Id)
    ensures x !in s ==> Pull(s, x) == s
  {
    if x !in s {
      PullAbsent(s, x);
    }
  }

  /** `removeUserFromEvent` with the organizer guard the code means: the
      organizer is refused, after the membership check. Either membership is
      enough to leave, and both are gone afterwards. */
  function RemoveUserFromEvent(db: Db, userId: Id, eventId: Id, now: Time): (s: Step<bool>)
    ensures userId !in db.users ==> s == Step(Error(UserService.UserNotFound), db)
    ensures userId in db.users && !Live(db, eventId) ==> s == Step(Error(NotFoundOrFinished), db)
    ensures userId in db.users && Live(db, eventId) &&
            eventId !in db.users[userId].futureEvents && userId !in db.events[eventId].attendees ==>
              s == Step(Error(NotInEvent), db)
    ensures userId in db.users && Live(db, eventId) &&
            (eventId in db.users[userId].futureEvents || userId in db.events[eventId].attendees) &&
            db.events[eventId].organizer == userId ==>
              s == Step(Error(OrganizerMustDelete), db)
    ensures s.result.Ok? <==>
      && userId in db.users && Live(db, eventId)
      && (eventId in db.users[userId].futureEvents || userId in db.events[eventId].attendees)
      && db.events[eventId].organizer != userId
    ensures s.result.Ok? ==> userId in s.db.users && eventId in s.db.events
    ensures s.result.Ok? ==>
      && eventId !in s.db.users[userId].futureEvents
      && userId !in s.db.events[eventId].attendees
      && s.db.events[eventId].organizer == db.events[eventId].organizer
      && (db.events[eventId].organizer in db.events[eventId].attendees ==>
            db.events[eventId].organizer in s.db.events[eventId].attendees)
  {
    Unattend(db, userId, eventId, now, ByValue)
  }

  /** `removeUserFromEvent` exactly as written: the organizer guard never fires. */
  function RemoveUserFromEventAsWritten(db: Db, userId: Id, eventId: Id, now: Time): (s: Step<bool>)
    ensures s.result.Ok? <==>
      && userId in db.users && Live(db, eventId)
      && (eventId in db.users[userId].futureEvents || userId in db.events[eventId].attendees)
  {
    Unattend(db, userId, eventId, now, ObjectIdVsString)
  }

  // ----- properties of the attendance protocol ------------------------------

  /** A second consecutive attend of the same pair fails. */
  lemma AttendTwiceFails(db: Db, userId: Id, eventId: Id, now: Time, later: Time)
    requires AddUserToEvent(db, userId, eventId, now).result.Ok?
    ensures AddUserToEvent(AddUserToEvent(db, userId, eventId, now).db, userId, eventId, later).result.Error?
  {
  }

  /** Attend followed by unattend, by a user who is not the organizer and was
      in neither list, restores both lists (and the whole store) exactly,
      provided the event is still upcoming when the unattend is saved. */
  lemma {:induction false} AttendThenUnattendRestores(db: Db, userId: Id, eventId: Id, now: Time, later: Time)
    requires userId in db.users && Live(db, eventId)
    requires eventId !in db.users[userId].futureEvents && userId !in db.events[eventId].attendees
    requires db.events[eventId].organizer != userId
    requires now <= later && !FinishedAt(db.events[eventId].time, later)
    ensures AddUserToEvent(db, userId, eventId, now).result.Ok?
    ensures RemoveUserFromEvent(AddUserToEvent(db, userId, eventId, now).db, userId, eventId, later)
              == Step(Ok(true), db)
  {
    var user, event := db.users[userId], db.events[eventId];
    var mid := AddUserToEvent(db, userId, eventId, now).db;
    PullUndoesPush(user.futureEvents, eventId);
    PullUndoesPush(event.attendees, userId);
    var s := RemoveUserFromEvent(mid, userId, eventId, later);
    assert s.db.users[userId] == user;
    assert s.db.events[eventId] == event;
    assert s.db.users == db.users;
    assert s.db.events == db.events;
  }

  /** A crash between the two saves of `addUserToEvent` leaves the user
      listing the event without the event listing the user. Unattend accepts
      that half-membership and clears it; a retried attend completes it. */
  lemma {:induction false} InterruptedAttendIsRecoverable(db: Db, userId: Id, eventId: Id, now: Time)
    requires userId in db.users && Live(db, eventId)
    requires userId !in db.events[eventId].attendees && db.events[eventId].organizer != userId
    ensures
      var half := AttendUserSaved(db, userId, eventId);
      var left := RemoveUserFromEvent(half, userId, eventId, now);
      var retried := AddUserToEvent(half, userId, eventId, now);
      && left.result.Ok?
      && eventId !in left.db.users[userId].futureEvents
      && userId !in left.db.events[eventId].attendees
      && retried.result.Ok?
      && Attending(retried.db, userId, eventId)
  {
  }

  /** The organizer of a live event it attends can never leave it: I3. */
  lemma OrganizerCannotUnattend(db: Db, eventId: Id, now: Time)
    requires Live(db, eventId)
    ensures RemoveUserFromEvent(db, db.events[eventId].organizer, eventId, now).result.Error?
  {
  }

  /** As written, the organizer guard never fires: an organizer who attends its
      own live event can unattend it and is then no longer an attendee. */
  lemma OrganizerLeavesAsWritten()
    ensures
      var organizer := User(Some("o"), Some("o@x"), None, [], [10], Some(""), None, Some(""));
      var party := Event(Some("party"), None, Some(100), [1], 1, Some(""), Some([]), Some(""), false);
      var db := Db(map[10 := party], map[1 := organizer], map[]);
      var s := RemoveUserFromEventAsWritten(db, 1, 10, 0);
      && s.result.Ok?
      && s.db.events[10].organizer !in s.db.events[10].attendees
  {
    var party := Event(Some("party"), None, Some(100), [1], 1, Some(""), Some([]), Some(""), false);
    assert Pull([1], 1) == [];
  }
}
