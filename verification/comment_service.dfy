/** The comment service as transitions of the collections: only an attendee
    may comment, and only the commenter may edit or delete a comment. */
module CommentService {
  import opened Common
  import opened EventModel
  import opened Db

  const NotAnAttendee := "Event does not exist or commenter not in the event"
  const CommentNotFound := "Comment does not exist or deleted"
  const InsufficientRight := "Insufficient right to update comment"

  /** `createComment`: `Event.findOne({ _id: eventId, attendees: userId })`
      must find the event (finished or not); the comment records both ids. */
  function CreateComment(db: Db, userId: Id, eventId: Id, content: Option<string>, newId: Id): (s: Step<Comment>)
    requires newId !in db.comments
    ensures s.result.Ok? <==> eventId in db.events && userId in db.events[eventId].attendees
    ensures s.result.Error? ==> s == Step(Error(NotAnAttendee), db)
    ensures s.result.Ok? ==>
      && s.result.value == Comment(content, userId, eventId)
      && s.db == db.(comments := db.comments[newId := s.result.value])
  {
    if eventId !in db.events || userId !in db.events[eventId].attendees then Step(Error(NotAnAttendee), db)
    else
      var comment := Comment(content, userId, eventId);
      Step(Ok(comment), db.(comments := db.comments[newId := comment]))
  }

  /** The ownership guard shared by update and delete. */
  function CheckOwner(db: Db, userId: Id, commentId: Id): (r: Result<Comment>)
    ensures r.Ok? <==> commentId in db.comments && db.comments[commentId].commenter == userId
    ensures commentId !in db.comments ==> r == Error(CommentNotFound)
    ensures commentId in db.comments && db.comments[commentId].commenter != userId ==>
              r == Error(InsufficientRight)
    ensures r.Ok? ==> r.value == db.comments[commentId]
  {
    if commentId !in db.comments then Error(CommentNotFound)
    else if db.comments[commentId].commenter != userId then Error(InsufficientRight)
    else Ok(db.comments[commentId])
  }

  /** `updateComment`: only `content` changes. */
  function UpdateComment(db: Db, userId: Id, commentId: Id, content: Option<string>): (s: Step<Comment>)
    ensures s.result.Ok? <==> CheckOwner(db, userId, commentId).Ok?
    ensures s.result.Error? ==> s == Step(Error(CheckOwner(db, userId, commentId).message), db)
    ensures s.result.Ok? ==>
      && s.result.value == db.comments[commentId].(content := content)
      && s.db == db.(comments := db.comments[commentId := s.result.value])
  {
    match CheckOwner(db, userId, commentId)
    case Error(m) => Step(Error(m), db)
    case Ok(comment) =>
      var saved := comment.(content := content);
      Step(Ok(saved), db.(comments := db.comments[commentId := saved]))
  }

  /** `getCommentsFromEvent`: every comment on the event and no other; an
      empty answer is not an error. */
  function GetCommentsFromEvent(db: Db, eventId: Id): (r: map<Id, Comment>)
    ensures forall c :: c in r <==> c in db.comments && db.comments[c].event == eventId
    ensures forall c :: c in r ==> r[c] == db.comments[c]
  {
    map c | c in db.comments && db.comments[c].event == eventId :: db.comments[c]
  }

  /** `deleteCommentById`: the commenter's comment goes, every other stays. */
  function DeleteCommentById(db: Db, userId: Id, commentId: Id): (s: Step<Comment>)
    ensures s.result.Ok? <==> CheckOwner(db, userId, commentId).Ok?
    ensures s.result.Error? ==> s == Step(Error(CheckOwner(db, userId, commentId).message), db)
    ensures s.result.Ok? ==>
      && s.result.value == db.comments[commentId]
      && s.db == db.(comments := db.comments - {commentId})
  {
    match CheckOwner(db, userId, commentId)
    case Error(m) => Step(Error(m), db)
    case Ok(comment) => Step(Ok(comment), db.(comments := db.comments - {commentId}))
  }

  /** A created comment is listed among its event's comments, and a deleted
      one no longer is. */
  lemma CommentListingFollowsCreateAndDelete(db: Db, userId: Id, eventId: Id, content: Option<string>, newId: Id)
    requires newId !in db.comments
    requires eventId in db.events && userId in db.events[eventId].attendees
    ensures
      var created := CreateComment(db, userId, eventId, content, newId).db;
      && newId in GetCommentsFromEvent(created, eventId)
      && DeleteCommentById(created, userId, newId).result.Ok?
      && GetCommentsFromEvent(DeleteCommentById(created, userId, newId).db, eventId)
           == GetCommentsFromEvent(db, eventId)
  {
    var created := CreateComment(db, userId, eventId, content, newId).db;
    var deleted := DeleteCommentById(created, userId, newId).db;
    assert deleted.comments == db.comments;
  }
}
