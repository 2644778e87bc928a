/** The three collections of the document store as one value, the Comment
    record, and the two cross-collection invariants the services maintain. */
module Db {
  import opened Common
  import opened EventModel
  import opened UserModel

  /** A comment document. */
  datatype Comment = Comment(content: Option<string>, commenter: Id, event: Id)

  /** The `events`, `users` and `comments` collections, keyed by document id. */
  datatype Db = Db(events: map<Id, Event>, users: map<Id, User>, comments: map<Id, Comment>)

  /** What a service call returns, with the collections it leaves behind. */
  datatype Step<T> = Step(result: Result<T>, db: Db)

  /** An event id the store has never handed out: no document refers to it.
      (ObjectIds are never reused.) */
  predicate FreshEventId(db: Db, id: Id) {
    && id !in db.events
    && (forall u :: u in db.users ==> id !in db.users[u].futureEvents && id !in db.users[u].pastEvents)
    && (forall c :: c in db.comments ==> db.comments[c].event != id)
  }

  /** The organizer of every event is one of its attendees. */
  ghost predicate OrganizerAttends(db: Db) {
    forall e :: e in db.events ==> db.events[e].organizer in db.events[e].attendees
  }

  /** Every attendee of a stored event is a stored user who lists that event
      among its future events. */
  ghost predicate AttendanceMirrored(db: Db) {
    forall e, u :: e in db.events && u in db.events[e].attendees ==>
      u in db.users && e in db.users[u].futureEvents
  }
}
