/** The document store as mutable state: the three collections are fields
    that each service call reassigns one store write at a time, in the order
    the service issues them. Every method ends in exactly the state, and
    returns exactly the result, of the corresponding transition function, so
    the invariants proved about those functions hold of the store. */
module Store {
  import opened Common
  import opened EventModel
  import opened UserModel
  import opened Db
  import EventService
  import UserService
  import CommentService
  import EventController

  class Store {
    var events: map<Id, Event>
    var users: map<Id, User>
    var comments: map<Id, Comment>

    function Snapshot(): Db
      reads this
    {
      Db(events, users, comments)
    }

    constructor (db: Db)
      ensures Snapshot() == db
    {
      events, users, comments := db.events, db.users, db.comments;
    }

    /** `save` of an event document: the pre-save hook, then the write. */
    method SaveEvent(id: Id, e: Event, now: Time)
      modifies this
      ensures events == old(events)[id := PreSave(e, now)]
      ensures users == old(users) && comments == old(comments)
    {
      var doc := new EventDocument.Load(e);
      doc.RunPreSave(now);
      events := events[id := doc.doc];
    }

    // ----- events ------------------------------------------------------------

    method CreateEvent(userId: Id, info: EventInfo, newId: Id, now: Time) returns (r: Result<Id>)
      requires newId !in events
      modifies this
      ensures Step(r, Snapshot()) == EventService.CreateEvent(old(Snapshot()), userId, info, newId, now)
    {
      var doc := Defaulted(info, userId, [userId]);
      SaveEvent(newId, doc, now);
      r := Ok(newId);
    }

    method UpdateEvent(userId: Id, eventId: Id, info: EventInfo, now: Time) returns (r: Result<Event>)
      modifies this
      ensures Step(r, Snapshot()) == EventService.UpdateEvent(old(Snapshot()), userId, eventId, info, now)
    {
      if eventId !in events || events[eventId].isFinished {
        return Error(EventService.EventNotFound);
      }
      var event := events[eventId];
      if event.organizer != userId {
        return Error(EventService.NotAnOrganizer);
      }
      event := EventService.CopyAllowedFields(event, info);
      SaveEvent(eventId, event, now);
      r := Ok(events[eventId]);
    }

    /** Four writes: pull from `futureEvents`, pull from `pastEvents`, delete
        the comments, delete the event. */
    method DeleteEvent(userId: Id, eventId: Id) returns (r: Result<()>)
      modifies this
      ensures Step(r, Snapshot()) == EventService.DeleteEvent(old(Snapshot()), userId, eventId)
    {
      if eventId !in events {
        return Error(EventService.EventNotFound);
      }
      if events[eventId].organizer != userId {
        return Error(EventService.NotTheOrganizer);
      }
      users := map u | u in users :: users[u].(futureEvents := Pull(users[u].futureEvents, eventId));
      users := map u | u in users :: users[u].(pastEvents := Pull(users[u].pastEvents, eventId));
      comments := map c | c in comments && comments[c].event != eventId :: comments[c];
      events := events - {eventId};
      r := Ok(());
    }

    /** Both lists get the missing entries, then two saves: the user's, then
        the event's. */
    method AddUserToEvent(userId: Id, eventId: Id, now: Time) returns (r: Result<bool>)
      modifies this
      ensures Step(r, Snapshot()) == EventService.AddUserToEvent(old(Snapshot()), userId, eventId, now)
    {
      if userId !in users {
        return Error(UserService.UserNotFound);
      }
      if eventId !in events || events[eventId].isFinished {
        return Error(EventService.NotFoundOrFinished);
      }
      var user, event := users[userId], events[eventId];
      if eventId in user.futureEvents && userId in event.attendees {
        return Error(EventService.AlreadyInEvent);
      }
      if eventId !in user.futureEvents {
        user := user.(futureEvents := user.futureEvents + [eventId]);
      }
      if userId !in event.attendees {
        event := event.(attendees := event.attendees + [userId]);
      }
      users := users[userId := user];
      SaveEvent(eventId, event, now);
      r := Ok(true);
    }

    /** The mirror image of `AddUserToEvent`, with the organizer refused. */
    method RemoveUserFromEvent(userId: Id, eventId: Id, now: Time) returns (r: Result<bool>)
      modifies this
      ensures Step(r, Snapshot()) == EventService.RemoveUserFromEvent(old(Snapshot()), userId, eventId, now)
    {
      if userId !in users {
        return Error(UserService.UserNotFound);
      }
      if eventId !in events || events[eventId].isFinished {
        return Error(EventService.NotFoundOrFinished);
      }
      var user, event := users[userId], events[eventId];
      if eventId !in user.futureEvents && userId !in event.attendees {
        return Error(EventService.NotInEvent);
      }
      if event.organizer == userId {
        return Error(EventService.OrganizerMustDelete);
      }
      if eventId in user.futureEvents {
        user := user.(futureEvents := Pull(user.futureEvents, eventId));
      }
      if userId in event.attendees {
        event := event.(attendees := Pull(event.attendees, userId));
      }
      users := users[userId := user];
      SaveEvent(eventId, event, now);
      r := Ok(true);
    }

    /** The controller's `createEvent`: create, then attend. */
    method CreateEventAndAttend(userId: Id, info: EventInfo, newId: Id, now: Time) returns (r: Result<Id>)
      requires FreshEventId(Snapshot(), newId)
      modifies this
      ensures Step(r, Snapshot()) == EventController.CreateEventAndAttend(old(Snapshot()), userId, info, newId, now)
    {
      r := CreateEvent(userId, info, newId, now);
      var attended := AddUserToEvent(userId, newId, now);
      if attended.Error? {
        r := Error(attended.message);
      }
    }

    // ----- users ---------------------------------------------------------------

    method CreateUser(name: Option<string>, email: Option<string>, password: Option<string>, newId: Id)
      returns (r: Result<Id>)
      requires newId !in users
      modifies this
      ensures Step(r, Snapshot()) == UserService.CreateUser(old(Snapshot()), name, email, password, newId)
    {
      users := users[newId := NewUser(name, email, password)];
      r := Ok(newId);
    }

    method UpdateUserById(userId: Id, info: UserService.ProfileInfo) returns (r: Result<User>)
      modifies this
      ensures Step(r, Snapshot()) == UserService.UpdateUserById(old(Snapshot()), userId, info)
    {
      if userId !in users {
        return Error(UserService.UserNotFound);
      }
      var user := UserService.CopyProfileFields(users[userId], info);
      users := users[userId := user];
      r := Ok(user);
    }

    /** Three writes: delete the user, delete the events it organizes, pull it
        from the remaining attendee lists. */
    method DeleteUser(userId: Id) returns (r: Result<()>)
      modifies this
      ensures Step(r, Snapshot()) == UserService.DeleteUser(old(Snapshot()), userId)
    {
      if userId !in users {
        return Error(UserService.UserNotFound);
      }
      users := users - {userId};
      events := map e | e in events && events[e].organizer != userId :: events[e];
      events := map e | e in events :: events[e].(attendees := Pull(events[e].attendees, userId));
      r := Ok(());
    }

    // ----- comments ------------------------------------------------------------

    method CreateComment(userId: Id, eventId: Id, content: Option<string>, newId: Id) returns (r: Result<Comment>)
      requires newId !in comments
      modifies this
      ensures Step(r, Snapshot()) == CommentService.CreateComment(old(Snapshot()), userId, eventId, content, newId)
    {
      if eventId !in events || userId !in events[eventId].attendees {
        return Error(CommentService.NotAnAttendee);
      }
      var comment := Comment(content, userId, eventId);
      comments := comments[newId := comment];
      r := Ok(comment);
    }

    method UpdateComment(userId: Id, commentId: Id, content: Option<string>) returns (r: Result<Comment>)
      modifies this
      ensures Step(r, Snapshot()) == CommentService.UpdateComment(old(Snapshot()), userId, commentId, content)
    {
      if commentId !in comments {
        return Error(CommentService.CommentNotFound);
      }
      var comment := comments[commentId];
      if comment.commenter != userId {
        return Error(CommentService.InsufficientRight);
      }
      comment := comment.(content := content);
      comments := comments[commentId := comment];
      r := Ok(comment);
    }

    method DeleteCommentById(userId: Id, commentId: Id) returns (r: Result<Comment>)
      modifies this
      ensures Step(r, Snapshot()) == CommentService.DeleteCommentById(old(Snapshot()), userId, commentId)
    {
      if commentId !in comments {
        return Error(CommentService.CommentNotFound);
      }
      var comment := comments[commentId];
      if comment.commenter != userId {
        return Error(CommentService.InsufficientRight);
      }
      comments := comments - {commentId};
      r := Ok(comment);
    }
  }
}
