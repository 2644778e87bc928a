/** The two cross-collection invariants under every service call: the
    organizer attends its event (I2), and every attendee is a stored user who
    lists the event among its future events (I1). */
module Invariants {
  import opened Common
  import opened EventModel
  import opened UserModel
  import opened Db
  import EventService
  import UserService
  import CommentService
  import EventController

  /** A state-changing request, as the routes dispatch it to a service. */
  datatype Call =
    | Attend(userId: Id, eventId: Id, now: Time)
    | Unattend(userId: Id, eventId: Id, now: Time)
    | CreateEvent(userId: Id, info: EventInfo, newId: Id, now: Time)
    | UpdateEvent(userId: Id, eventId: Id, info: EventInfo, now: Time)
    | DeleteEvent(userId: Id, eventId: Id)
    | CreateUser(name: Option<string>, email: Option<string>, password: Option<string>, newId: Id)
    | UpdateUser(userId: Id, profile: UserService.ProfileInfo)
    | DeleteUser(userId: Id)
    | CreateComment(userId: Id, eventId: Id, content: Option<string>, newId: Id)
    | UpdateComment(userId: Id, commentId: Id, content: Option<string>)
    | DeleteComment(userId: Id, commentId: Id)

  /** The store hands out ids no document uses yet. */
  predicate FreshIds(db: Db, call: Call) {
    match call
    case CreateEvent(_, _, newId, _) => FreshEventId(db, newId)
    case CreateUser(_, _, _, newId) => newId !in db.users
    case CreateComment(_, _, _, newId) => newId !in db.comments
    case _ => true
  }

  /** The outcome of a call; event creation goes through the controller's
      create-then-attend sequence. */
  function Apply(db: Db, call: Call): Step<()>
    requires FreshIds(db, call)
  {
    var s := match call
      case Attend(u, e, now) => Forget(EventService.AddUserToEvent(db, u, e, now))
      case Unattend(u, e, now) => Forget(EventService.RemoveUserFromEvent(db, u, e, now))
      case CreateEvent(u, info, newId, now) => Forget(EventController.CreateEventAndAttend(db, u, info, newId, now))
      case UpdateEvent(u, e, info, now) => Forget(EventService.UpdateEvent(db, u, e, info, now))
      case DeleteEvent(u, e) => EventService.DeleteEvent(db, u, e)
      case CreateUser(n, m, p, newId) => Forget(UserService.CreateUser(db, n, m, p, newId))
      case UpdateUser(u, profile) => Forget(UserService.UpdateUserById(db, u, profile))
      case DeleteUser(u) => UserService.DeleteUser(db, u)
      case CreateComment(u, e, c, newId) => Forget(CommentService.CreateComment(db, u, e, c, newId))
      case UpdateComment(u, c, content) => Forget(CommentService.UpdateComment(db, u, c, content))
      case DeleteComment(u, c) => Forget(CommentService.DeleteCommentById(db, u, c));
    s
  }

  function Forget<T>(s: Step<T>): Step<()> {
    match s.result
    case Ok(_) => Step(Ok(()), s.db)
    case Error(m) => Step(Error(m), s.db)
  }

  /** I2: no service call can separate an organizer from its event. */
  lemma {:induction false} CallsKeepOrganizerAttending(db: Db, call: Call)
    requires FreshIds(db, call) && OrganizerAttends(db)
    ensures OrganizerAttends(Apply(db, call).db)
  {
    var after := Apply(db, call).db;
    match call
    case Attend(u, e, now) =>
      forall x | x in after.events ensures after.events[x].organizer in after.events[x].attendees {
        if x == e && EventService.AddUserToEvent(db, u, e, now).result.Ok? {
          assert db.events[x].attendees <= after.events[x].attendees;
        }
      }
    case Unattend(u, e, now) =>
    case CreateEvent(u, info, newId, now) =>
      var created := EventService.CreateEvent(db, u, info, newId, now);
      assert OrganizerAttends(created.db);
      forall x | x in after.events ensures after.events[x].organizer in after.events[x].attendees {
        if EventService.AddUserToEvent(created.db, u, newId, now).result.Ok? && x == newId {
          assert created.db.events[x].attendees <= after.events[x].attendees;
        }
      }
    case UpdateEvent(u, e, info, now) =>
    case DeleteEvent(u, e) =>
    case CreateUser(n, m, p, newId) =>
    case UpdateUser(u, profile) =>
    case DeleteUser(u) =>
    case CreateComment(u, e, c, newId) =>
    case UpdateComment(u, c, content) =>
    case DeleteComment(u, c) =>
  }

  /** I1: every call keeps the attendee lists mirrored in the users' future
      events, except a create whose follow-up attend fails: that event stays,
      with its creator listed as attendee only. */
  lemma {:induction false} CallsKeepAttendanceMirrored(db: Db, call: Call)
    requires FreshIds(db, call) && AttendanceMirrored(db)
    ensures AttendanceMirrored(Apply(db, call).db) ||
            (call.CreateEvent? && Apply(db, call).result.Error?)
  {
    match call
    case Attend(u, e, now) => AttendKeepsMirror(db, u, e, now);
    case Unattend(u, e, now) => UnattendKeepsMirror(db, u, e, now);
    case CreateEvent(u, info, newId, now) => CreateKeepsMirror(db, u, info, newId, now);
    case UpdateEvent(u, e, info, now) =>
    case DeleteEvent(u, e) => DeleteEventKeepsMirror(db, u, e);
    case CreateUser(n, m, p, newId) =>
    case UpdateUser(u, profile) =>
    case DeleteUser(u) => DeleteUserKeepsMirror(db, u);
    case CreateComment(u, e, c, newId) =>
    case UpdateComment(u, c, content) =>
    case DeleteComment(u, c) =>
  }

  lemma {:induction false} AttendKeepsMirror(db: Db, userId: Id, eventId: Id, now: Time)
    requires AttendanceMirrored(db)
    ensures AttendanceMirrored(EventService.AddUserToEvent(db, userId, eventId, now).db)
  {
    var s := EventService.AddUserToEvent(db, userId, eventId, now);
    if s.result.Ok? {
      var after := s.db;
      forall x, v | x in after.events && v in after.events[x].attendees
        ensures v in after.users && x in after.users[v].futureEvents
      {
        if v == userId {
          assert db.users[userId].futureEvents <= after.users[userId].futureEvents;
        } else if x == eventId {
          assert after.events[x].attendees == PushIfAbsent(db.events[x].attendees, userId);
        }
      }
    }
  }

  lemma {:induction false} UnattendKeepsMirror(db: Db, userId: Id, eventId: Id, now: Time)
    requires AttendanceMirrored(db)
    ensures AttendanceMirrored(EventService.RemoveUserFromEvent(db, userId, eventId, now).db)
  {
    var s := EventService.Unattend(db, userId, eventId, now, EventService.ByValue);
    if s.result.Ok? {
      var after := s.db;
      forall x, v | x in after.events && v in after.events[x].attendees
        ensures v in after.users && x in after.users[v].futureEvents
      {
        if x == eventId {
          assert v in db.events[x].attendees && v != userId;
        } else {
          assert v in db.events[x].attendees;
        }
      }
    }
  }

  lemma {:induction false} CreateKeepsMirror(db: Db, userId: Id, info: EventInfo, newId: Id, now: Time)
    requires FreshEventId(db, newId) && AttendanceMirrored(db)
    ensures
      var s := EventController.CreateEventAndAttend(db, userId, info, newId, now);
      s.result.Ok? ==> AttendanceMirrored(s.db)
  {
    var s := EventController.CreateEventAndAttend(db, userId, info, newId, now);
    if s.result.Ok? {
      var created := EventService.CreateEvent(db, userId, info, newId, now);
      var attended := EventService.AddUserToEvent(created.db, userId, newId, now);
      assert s.db == attended.db;
      var after := s.db;
      forall x, v | x in after.events && v in after.events[x].attendees
        ensures v in after.users && x in after.users[v].futureEvents
      {
        if x == newId {
          assert after.events[x].attendees == [userId];
        } else if v == userId {
          assert x in created.db.users[userId].futureEvents;
          assert created.db.users[userId].futureEvents <= after.users[userId].futureEvents;
        } else {
          assert v in db.events[x].attendees;
        }
      }
    }
  }

  lemma {:induction false} DeleteEventKeepsMirror(db: Db, userId: Id, eventId: Id)
    requires AttendanceMirrored(db)
    ensures AttendanceMirrored(EventService.DeleteEvent(db, userId, eventId).db)
  {
    var s := EventService.DeleteEvent(db, userId, eventId);
    if s.result.Ok? {
      var after := s.db;
      forall x, v | x in after.events && v in after.events[x].attendees
        ensures v in after.users && x in after.users[v].futureEvents
      {
        assert x in db.events && x != eventId;
        assert x in db.users[v].futureEvents;
        assert after.users[v].futureEvents == Pull(db.users[v].futureEvents, eventId);
      }
    }
  }

  lemma {:induction false} DeleteUserKeepsMirror(db: Db, userId: Id)
    requires AttendanceMirrored(db)
    ensures AttendanceMirrored(UserService.DeleteUser(db, userId).db)
  {
    var s := UserService.DeleteUser(db, userId);
    if s.result.Ok? {
      MirrorSurvivesUserRemoval(db, s.db, userId);
    }
  }

  /** I1 survives removing a user from the users and from every attendee list
      while keeping only events that were there. */
  lemma {:induction false} MirrorSurvivesUserRemoval(db: Db, after: Db, userId: Id)
    requires AttendanceMirrored(db)
    requires after.users == db.users - {userId}
    requires forall e :: e in after.events ==> e in db.events
    requires forall e :: e in after.events ==>
               after.events[e] == db.events[e].(attendees := Pull(db.events[e].attendees, userId))
    ensures AttendanceMirrored(after)
  {
    forall x, v | x in after.events && v in after.events[x].attendees
      ensures v in after.users && x in after.users[v].futureEvents
    {
      var attendees := db.events[x].attendees;
      assert after.events[x].attendees == Pull(attendees, userId);
      PairSurvivesUserRemoval(db.users, after.users, userId, x, v, attendees);
    }
  }

  lemma PairSurvivesUserRemoval(users: map<Id, User>, users': map<Id, User>, userId: Id,
                                x: Id, v: Id, attendees: seq<Id>)
    requires users' == users - {userId}
    requires v in Pull(attendees, userId)
    requires v in attendees ==> v in users && x in users[v].futureEvents
    ensures v in users' && x in users'[v].futureEvents
  {
  }

  /** The exception is real: a create whose attend fails (here: the event is
      already in the past) leaves an attendee the user's list does not know.
      The create route rejects a past `time` up front, so over HTTP this case
      needs the clock to pass the event's time between validation and save;
      `DeletedCreatorBreaksMirror` is the common way in. */
  lemma FailedCreateBreaksMirror()
    ensures
      var creator := User(Some("c"), Some("c@x"), None, [], [], Some(""), None, Some(""));
      var db := Db(map[], map[1 := creator], map[]);
      var info := EventInfo(Some("past"), None, Some(5), None, None, None);
      var s := EventController.CreateEventAndAttend(db, 1, info, 10, 100);
      && AttendanceMirrored(db)
      && s.result.Error?
      && !AttendanceMirrored(s.db)
  {
    var creator := User(Some("c"), Some("c@x"), None, [], [], Some(""), None, Some(""));
    var db := Db(map[], map[1 := creator], map[]);
    var info := EventInfo(Some("past"), None, Some(5), None, None, None);
    var s := EventController.CreateEventAndAttend(db, 1, info, 10, 100);
    assert 1 in s.db.events[10].attendees && 10 !in s.db.users[1].futureEvents;
  }

  /** The same exception on the path a request can take at any time: the
      token still names a user who has since been deleted, so `createEvent`
      stores the event with that id as organizer and attendee, and the attend
      that follows fails with "User not found". */
  lemma DeletedCreatorBreaksMirror()
    ensures
      var db := Db(map[], map[], map[]);
      var info := EventInfo(Some("e"), None, Some(500), None, None, None);
      var s := EventController.CreateEventAndAttend(db, 1, info, 10, 100);
      && AttendanceMirrored(db)
      && s.result == Error(UserService.UserNotFound)
      && 10 in s.db.events && s.db.events[10].attendees == [1]
      && !AttendanceMirrored(s.db)
  {
    var db := Db(map[], map[], map[]);
    var info := EventInfo(Some("e"), None, Some(500), None, None, None);
    var s := EventController.CreateEventAndAttend(db, 1, info, 10, 100);
    assert 1 in s.db.events[10].attendees && 1 !in s.db.users;
  }

  /** I4: after an event is deleted no user and no comment refers to it. */
  lemma {:induction false} DeletedEventIsUnreferenced(db: Db, userId: Id, eventId: Id)
    requires EventService.DeleteEvent(db, userId, eventId).result.Ok?
    ensures
      var after := EventService.DeleteEvent(db, userId, eventId).db;
      && eventId !in after.events
      && CommentService.GetCommentsFromEvent(after, eventId) == map[]
      && FreshEventId(after, eventId)
  {
    var after := EventService.DeleteEvent(db, userId, eventId).db;
    assert CommentService.GetCommentsFromEvent(after, eventId).Keys == {};
  }

  /** I5: after a user is deleted it organizes no event and attends none. */
  lemma DeletedUserIsGoneFromEvents(db: Db, userId: Id)
    requires userId in db.users
    ensures
      var after := UserService.DeleteUser(db, userId).db;
      && userId !in after.users
      && forall e :: e in after.events ==>
           after.events[e].organizer != userId && userId !in after.events[e].attendees
  {
  }
}
