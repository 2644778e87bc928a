# WazzUp event store, modelled in Dafny

WazzUp's back end stores three collections — events, users and comments —
and lets users organize events, attend and unattend them, comment on them
and search them. This project models the logic of that store and proves
what it guarantees.

- The collections are maps from document id to record (`Db.Db`). Every
  service call is a transition function from one `Db` to a result and a new
  `Db` (modules `EventService`, `UserService`, `CommentService`,
  `EventController`). These functions are the specification.
- `Store.Store` is the store as mutable state. Each of its methods performs
  the service's writes one at a time, in the service's order. Each method
  is proved to end in the state, and return the result, of its transition
  function. Unattend uses the organizer guard compared by value, as the
  code evidently intends (see ## Findings).
- `EventModel` holds the Event document and its pre-save hook. `UserModel`
  holds the User document and its `toJSON`. `Validators` holds the
  request-validation middleware.
- `EventQuery` models `getEventsByFilter`. It builds the filter clause by
  clause, maps the sort token to an order, sorts and paginates the
  selection, and re-sorts a `nearestDate` page in place in an array.
- `Invariants` proves that every state-changing call keeps two
  cross-collection invariants:
  - I2: the organizer of an event is one of its attendees. This holds with
    unattend's organizer guard compared by value; as written, the guard never
    fires and the organizer can leave (see ## Findings).
  - I1: every attendee of an event is a stored user who lists the event in
    its `futureEvents`.

  The one exception to I1 is real, and a lemma exhibits it: an event
  created through the controller whose follow-up attend fails.

Ids are opaque values compared by equality. The clock is a `now` parameter.
Fresh ids for created documents are parameters that are required to be
unused. The store's `$centerSphere` geo operator and the `timeUntilToday`
comparator are function parameters (`Within`, `untilToday`). The operator
belongs to the database, and `timeUntilToday` and `latLngStringToLngLatArray`
live in helpers/utils.js; neither is part of this model.

The route documentation says `limit` defaults to 1. The controller uses 10.
The model follows the controller.

## Model

| member | source | states |
|---|---|---|
| Common.Pull | services/event.service.js:260-261 | after `pull` the id is absent and every other entry is still present; the list never grows |
| Common.PullCounts | services/event.service.js:260-261 | `pull` removes every occurrence of the id and keeps every other entry with its multiplicity |
| Common.PullAppend | services/event.service.js:260-261 | pulling from a concatenation is the concatenation of the pulls, so the entries that stay keep their order |
| Common.PullAbsent | services/event.service.js:260-261 | pulling an id that is not in the list leaves the list unchanged |
| Common.PullUndoesPush | services/event.service.js:215-217 | pulling an id that was pushed because it was absent restores the list exactly |
| Common.PushIfAbsent | services/event.service.js:215-217 | `if (!list.includes(x)) list.push(x)`: afterwards the list holds exactly the old members and `x`; the old list is a prefix and at most one entry is added; nothing changes when `x` was already there |
| EventModel.PreSave | models/Event.js:62-65 | after the hook `isFinished` holds iff `now` is strictly after `time`; an event at exactly `now` is unfinished; no other field changes |
| EventModel.FinishedAt | models/Event.js:63 | an event without a time is never finished, and one whose time is exactly `now` is not yet finished |
| EventModel.FinishedStaysFinished | models/Event.js:63 | a finished event stays finished at every later instant |
| EventModel.EventDocument.RunPreSave | models/Event.js:62-65 | the hook assigns the loaded document's `isFinished` in place, to the value `PreSave` gives |
| EventModel.HookIgnoresStoredFlag | models/Event.js:63 | the saved document does not depend on the `isFinished` it carried, so the flag cannot be set through `save` |
| EventModel.HookIdempotent | models/Event.js:62-65 | saving twice at the same instant gives the same document as saving once |
| EventModel.NewEvent | models/Event.js:33-49 | a created event keeps the six given fields; `coverUrl` and `description` default to "" and `imagesUrls` to []; organizer and attendees as given; the hook has run |
| EventModel.AssignAllowed | services/event.service.js:145-155 | the six allowed fields take the request's values, an absent one becoming undefined; organizer, attendees and the stored `isFinished` are kept |
| UserModel.NewUser | models/User.js:22-52 | a new user has the given name, email and password, empty `futureEvents` and `pastEvents`, `avatarUrl` and `biography` defaulted to "", and a `location` whose `coordinates` is the empty array |
| UserModel.WithoutSecrets | models/User.js:61-66 | the serialized map has no `password` and no `isDeleted` key, and every other key with its value |
| UserModel.UserDocument.ToJSON | models/User.js:61-66 | `toJSON` deletes the two keys from the document's own field map, so they are gone from the document too, and returns that map |
| UserModel.SerializedUserKeepsProfile | models/User.js:61-66 | a serialized user never carries the password and keeps its name, email, location and both event lists |
| Validators.Dedup | middlewares/validators.js:13-14 | the `Set` keeps exactly the messages that occur, each once, never more than there were |
| Validators.DedupKeepsFirstOccurrenceOrder | middlewares/validators.js:14-15 | the surviving messages are ordered by their first occurrence |
| Validators.JoinAppend | middlewares/validators.js:15 | `join(" & ")` puts the separator between consecutive messages and nowhere else |
| Validators.Join | middlewares/validators.js:15 | no parts give "", one part gives itself; otherwise the result starts with the first part and its length is the parts' total plus one separator between each pair |
| Validators.Validate | middlewares/validators.js:8-17 | the request proceeds iff there are no errors; otherwise the answer is status 422 with the de-duplicated messages joined by " & " |
| Validators.ValidateReportsEachMessageOnce | middlewares/validators.js:13-15 | errors `[a, a]` give message `a`; errors `[a, b, a]` give `a & b` |
| Validators.IsLongLatArray | middlewares/validators.js:27-42 | a non-array is rejected; the type check rejects only when both entries are non-numbers; a present number outside [-180, 180] (longitude) or [-90, 90] (latitude) is rejected, bounds inclusive; otherwise true |
| Validators.IsInThePast | middlewares/validators.js:44-48 | rejects with "The time is in the past" iff `now` is strictly after the time, accepts otherwise |
| Validators.AcceptedTimeSavesUnfinished | middlewares/validators.js:44-48 | a time the validator accepts gives an unfinished event when saved at the same instant |
| UserService.DoesUserExist | services/user.service.js:7-15 | true iff some stored user has that email |
| UserService.GetUserById | services/user.service.js:17-26 | the stored user, or "User not found" exactly when the id is absent |
| UserService.AssignProfile | services/user.service.js:43-46 | `name`, `biography`, `avatarUrl` and `location` take the request's values; email, password and both event lists are kept |
| UserService.CopyProfileFields | services/user.service.js:43-46 | the `forEach` loop copies exactly `name`, `biography`, `avatarUrl` and `location` from the request |
| UserService.UpdateUserById | services/user.service.js:39-53 | fails "User not found" with nothing changed when the user is absent; otherwise the four profile fields are overwritten (absent ones become undefined), `email`, `password`, `futureEvents` and `pastEvents` are kept, and no other document changes |
| UserService.DeleteUser | services/user.service.js:55-69 | fails with nothing changed when the user is absent; otherwise the user is gone, exactly the events it organized are gone, the user is pulled from every remaining attendee list, and comments are untouched |
| UserService.CreateUser | services/user.service.js:71-81 | the new user has the given name, email and password and empty event lists; every other document is unchanged |
| UserService.RegisteredEmailExists | services/user.service.js:71-77 | after registration `doesUserExist` finds the email |
| UserService.DeletedEmailIsGone | services/user.service.js:55-60 | deleting the only user with an email makes `doesUserExist` false for it |
| UserService.DeleteUserLeavesDanglingReferences | services/user.service.js:55-69 | the cascade does not reach comments or other users' lists: both keep the id of an event deleted with its organizer |
| EventService.GetEventById | services/event.service.js:13-22 | the stored event, or "Event not found" exactly when the id is absent |
| EventService.CreateEvent | services/event.service.js:110-130 | the new event has the given name, time and location, `coverUrl` and `description` defaulting to "" and `imagesUrls` to []; `organizer = userId` and `attendees = [userId]`; `isFinished` follows the hook; nothing else changes |
| EventService.CopyAllowedFields | services/event.service.js:145-155 | the `forEach` loop copies exactly the six allowed fields from the request |
| EventService.UpdateEvent | services/event.service.js:132-163 | fails "Event not found" for a missing or finished event and "Not an organizer" for anyone but the organizer, with nothing changed; otherwise the six fields are overwritten (absent ones become undefined), organizer and attendees are kept, and the hook recomputes `isFinished` |
| EventService.PullEventFromUsers | services/event.service.js:173-181 | the same users remain; none lists the event in `futureEvents` or `pastEvents` afterwards; each user differs only by those two pulls |
| EventService.DeleteEvent | services/event.service.js:165-190 | fails before any write if the event is missing or the caller is not its organizer (a finished event can be deleted); otherwise the event is gone and every other event is unchanged, it is pulled from every user's `futureEvents` and `pastEvents`, its comments are gone, all other comments are kept and no comment is added |
| EventService.AddUserToEvent | services/event.service.js:192-226 | fails for a missing user, a missing or finished event, and with "User already in the event" iff both memberships hold, changing nothing; otherwise both memberships hold afterwards; each id is appended to a list only when absent from it, so a list that already held it is unchanged and none gains a duplicate; only that user and that event changed |
| EventService.AttendUserSaved | services/event.service.js:215-219 | after the first save only the attending user changed: its `futureEvents` is unchanged if it already listed the event and is the old list plus the event otherwise; its other fields are as before; events and comments are untouched |
| EventService.Unattend | services/event.service.js:228-270 | a failing call changes nothing; a successful one pulls the id from both lists and changes nothing else |
| EventService.RemoveUserFromEvent | services/event.service.js:228-270 | fails for a missing user, a missing or finished event, when neither membership holds, and (checked after membership) for the organizer, changing nothing; otherwise neither membership holds afterwards and the organizer still attends |
| EventService.RemoveUserFromEventAsWritten | services/event.service.js:254 | with the guard as written, any member of a live event, the organizer included, can leave it |
| EventService.AttendTwiceFails | services/event.service.js:208-213 | a second consecutive attend of the same user and event fails |
| EventService.AttendThenUnattendRestores | services/event.service.js:215-264 | attend then unattend by a non-organizer who was in neither list gives back exactly the original store |
| EventService.InterruptedAttendIsRecoverable | services/event.service.js:219-220 | after a crash between the two saves of attend, unattend clears the half-membership and a retried attend completes it |
| EventService.OrganizerCannotUnattend | services/event.service.js:253-258 | the organizer of a live event can never unattend it |
| EventService.OrganizerLeavesAsWritten | services/event.service.js:254-261 | as written, an organizer can unattend its own live event, which then lists the organizer as no attendee |
| CommentService.CreateComment | services/comment.service.js:7-27 | fails iff the event is missing or the caller is not among its attendees; otherwise the new comment records the event, the caller and the content, and nothing else changes |
| CommentService.CheckOwner | services/comment.service.js:32-37 | "Comment does not exist or deleted" for a missing comment, "Insufficient right to update comment" for anyone but the commenter, otherwise the comment |
| CommentService.UpdateComment | services/comment.service.js:29-46 | with the ownership guard, only the content of that comment changes |
| CommentService.GetCommentsFromEvent | services/comment.service.js:48-57 | exactly the comments on that event; an empty answer is not an error |
| CommentService.DeleteCommentById | services/comment.service.js:59-76 | with the same guard, that comment is gone and every other comment is unchanged |
| CommentService.CommentListingFollowsCreateAndDelete | services/comment.service.js:7-76 | a created comment is listed for its event, and deleting it restores the listing |
| EventController.SplitQuery | controllers/event.controller.js:24-28 | `page` defaults to 1 and `limit` to 10; `page`, `limit` and `sortBy` go to the options and every other key goes to the filter unchanged |
| EventController.CreateEventAndAttend | controllers/event.controller.js:71-88 | succeeds iff the creator exists and the event is not already finished; the created event stays when the follow-up attend fails |
| EventController.CreatorAttendsCreatedEvent | controllers/event.controller.js:74-75 | after a successful create, the creator is the organizer and only attendee, and the new event is in the creator's `futureEvents` |
| EventController.AttendEvent | controllers/event.controller.js:42-51 | on success the caller attends in both lists; no other user changes |
| EventController.UnattendEvent | controllers/event.controller.js:53-69 | on success the caller attends in neither list; no other user changes |
| EventController.CallerIdentityOnly | controllers/event.controller.js:44-57 | the request body, a `userId` field included, never changes who attends or leaves |
| Invariants.CallsKeepOrganizerAttending | services/event.service.js:110-270 | no create, update, delete, attend, unattend, user or comment call can leave an event whose organizer is not an attendee (I2), with the organizer guard of unattend compared by value (see ## Findings) |
| Invariants.CallsKeepAttendanceMirrored | services/event.service.js:165-270 | every call keeps each attendee a stored user listing the event (I1), except a controller create whose attend fails |
| Invariants.AttendKeepsMirror | services/event.service.js:215-220 | attend keeps I1 |
| Invariants.UnattendKeepsMirror | services/event.service.js:260-264 | unattend keeps I1 |
| Invariants.CreateKeepsMirror | controllers/event.controller.js:74-75 | a successful create-then-attend keeps I1 |
| Invariants.DeleteEventKeepsMirror | services/event.service.js:173-185 | the event-deletion cascade keeps I1 |
| Invariants.DeleteUserKeepsMirror | services/user.service.js:59-64 | the user-deletion cascade keeps I1 |
| Invariants.MirrorSurvivesUserRemoval | services/user.service.js:59-64 | removing a user from the users and from every attendee list, keeping only events that were there, keeps I1 |
| Invariants.FailedCreateBreaksMirror | controllers/event.controller.js:73-75 | creating an event already in the past leaves it with an attendee whose `futureEvents` does not list it; the create route rejects a past time, so over HTTP this takes the clock passing the event time between validation and save |
| Invariants.DeletedCreatorBreaksMirror | controllers/event.controller.js:73-75 | a create by a deleted user whose token is still valid stores the event with that id as its attendee, fails with "User not found", and breaks I1 |
| Invariants.DeletedEventIsUnreferenced | services/event.service.js:173-185 | after `deleteEvent` no user list and no comment refers to the event, and its comment listing is empty |
| Invariants.DeletedUserIsGoneFromEvents | services/user.service.js:59-64 | after `deleteUser` no remaining event is organized or attended by the user |
| Store.Store.SaveEvent | models/Event.js:62-65 | an event `save` runs the hook on the document, then writes it |
| Store.Store.CreateEvent | services/event.service.js:110-130 | the store ends as `EventService.CreateEvent` says |
| Store.Store.UpdateEvent | services/event.service.js:132-163 | loads, copies the allowed fields in a loop and saves; ends as `EventService.UpdateEvent` says |
| Store.Store.DeleteEvent | services/event.service.js:165-190 | the four writes in order end as `EventService.DeleteEvent` says |
| Store.Store.AddUserToEvent | services/event.service.js:192-226 | push-if-absent on both lists, then the user's save, then the event's; ends as `EventService.AddUserToEvent` says |
| Store.Store.RemoveUserFromEvent | services/event.service.js:228-270 | pull from both lists, then the two saves; ends as `EventService.RemoveUserFromEvent` says |
| Store.Store.CreateEventAndAttend | controllers/event.controller.js:71-88 | the two service calls in sequence end as `EventController.CreateEventAndAttend` says |
| Store.Store.CreateUser | services/user.service.js:71-81 | ends as `UserService.CreateUser` says |
| Store.Store.UpdateUserById | services/user.service.js:39-53 | the field loop then the save end as `UserService.UpdateUserById` says |
| Store.Store.DeleteUser | services/user.service.js:55-69 | the three writes in order end as `UserService.DeleteUser` says |
| Store.Store.CreateComment | services/comment.service.js:7-27 | ends as `CommentService.CreateComment` says |
| Store.Store.UpdateComment | services/comment.service.js:29-46 | ends as `CommentService.UpdateComment` says |
| Store.Store.DeleteCommentById | services/comment.service.js:59-76 | ends as `CommentService.DeleteCommentById` says |
| EventQuery.ContainsCI | services/event.service.js:36-42 | the keyword occurs in the text at some position, ignoring ASCII letter case |
| EventQuery.Holds | services/event.service.js:36-64 | an event without a time fails both time clauses; one with neither a name nor a location name fails a keyword clause; an empty keyword matches any event that has either |
| EventQuery.Clauses | services/event.service.js:33-64 | at most four clauses; none iff keyword and latLng are falsy and from and to are absent; a truthy keyword gives the first clause |
| EventQuery.FilterConditions | services/event.service.js:33-64 | one clause is pushed per present parameter, in the order keyword, from, to, latLng |
| EventQuery.CriteriaOf | services/event.service.js:66-67 | match-all iff there are no clauses; otherwise an event matches iff every clause holds |
| EventQuery.CriteriaMeanWanted | services/event.service.js:31-67 | the criteria select an event iff: the keyword occurs in `name` or in `location.name`, case-insensitively; `time > from` and `time < to` strictly; the geo test passes with radius `kmDistance / 6378.1`, `kmDistance` defaulting to 5; each only when its parameter is present |
| EventQuery.EmptyFilterMatchesAll | services/event.service.js:66-67 | a query without filter parameters gets the match-all criteria |
| EventQuery.Find | services/event.service.js:91-95 | the selection holds exactly the events of the collection that match the criteria |
| EventQuery.FindCounts | services/event.service.js:91-95 | a matching event is selected as often as the collection holds it, any other event never |
| EventQuery.MatchAllFindsEverything | services/event.service.js:66-67 | the match-all criteria select the whole collection in its order |
| EventQuery.EmptyFilterSelectsAll | services/event.service.js:33-67 | a query without filter parameters selects the whole collection |
| EventQuery.SortOrderFor | services/event.service.js:70-88 | `nameAscending`, `nameDescending` and `timeAscending` give name ascending, name descending and time ascending; every other token, and none, gives time descending |
| EventQuery.OtherTokensSortByTimeDescending | services/event.service.js:80-87 | `timeDescending`, `nearestDate`, "" and an absent token all give time descending |
| EventQuery.StrLeTotal | services/event.service.js:71-75 | any two names are comparable in the binary string order |
| EventQuery.StrLeTransitive | services/event.service.js:71-75 | the binary string order is transitive |
| EventQuery.InOrderTotal | services/event.service.js:70-88 | any two events are comparable in each of the four orders |
| EventQuery.InOrderTransitive | services/event.service.js:70-88 | each of the four orders is transitive |
| EventQuery.InsertPermutes | services/event.service.js:95-96 | inserting an event adds exactly that event |
| EventQuery.SortEvents | services/event.service.js:96 | `.sort(sortOrder)` returns as many events as it is given; `SortEventsPermutes` and `SortEventsSorted` state that they are the same events in the requested order |
| EventQuery.InsertSorted | services/event.service.js:95-96 | inserting into a sorted sequence keeps it sorted |
| EventQuery.SortEventsPermutes | services/event.service.js:95-96 | the sort returns the selected events, each as often as before |
| EventQuery.SortEventsSorted | services/event.service.js:95-96 | the sort returns them in the requested order |
| EventQuery.SortThreeByTime | services/event.service.js:77-78 | three events stored out of time order come back in time order |
| EventQuery.CeilDiv | services/event.service.js:92 | `totalPages` is the least number of pages of `limit` that hold `count` events |
| EventQuery.Window | services/event.service.js:93-98 | the page is the slice `[offset, offset + limit)`, clipped to the end: at most `limit` events, each at its offset in the input; a full page when enough remain, every remaining event on a partly filled last page, and none past the end |
| EventQuery.EventIsOnItsPage | services/event.service.js:92-98 | the `i`-th sorted event is on page `i / limit + 1` at position `i % limit` |
| EventQuery.PagesPastTheLastAreEmpty | services/event.service.js:92-98 | every page after `totalPages` is empty |
| EventQuery.SortByNearestDate | services/event.service.js:100-105 | the fetched page is re-sorted in place, ascending by `timeUntilToday(time)`, as a permutation of itself |
| EventQuery.ResortPage | services/event.service.js:100-105 | the re-sorted page has the same events, each as often, ordered nearest first |
| EventQuery.InsertNearest | services/event.service.js:102-104 | one insertion step extends the sorted prefix by one event and permutes the array |
| EventQuery.Swap | services/event.service.js:102-104 | exchanging two entries changes only them and permutes the array |
| EventQuery.GetEventsByFilter | services/event.service.js:24-108 | `count` is the size of the whole selection, not of the page; `totalPages = ceil(count / limit)`; the events are the `[limit * (page - 1), + limit)` slice of the sorted selection; a `nearestDate` page is a permutation of the time-descending slice, sorted nearest first |
| EventQuery.TwoPagesOfThree | services/event.service.js:91-98 | three events sorted `timeAscending`, two per page: count 3, two pages, the two earliest on page 1 and the last alone on page 2 |

## Left out

- The database is not modelled: connection, `populate`, timestamps and ObjectId casting. Ids are opaque values with equality. `checkObjectId` (middlewares/validators.js:20-25) is a library call.
- HTTP is not modelled: the Express routers, the express-validator chains, `sendResponse`, `AppError` codes and app bootstrap. The route's `sortBy` whitelist is not enforced. `SortOrderFor` is total, so it needs no whitelist.
- Authentication is not modelled: JWT issuing and checking, bcrypt hashing and comparison, `generateToken` and `isPasswordMatched`. The caller id is simply an input.
- Thin controllers are not modelled: auth, user and comment controllers only forward. `getAttendeesFromEvent` and `getOrganizerFromEvent` call service functions that do not exist. `getUserByFilter` (services/user.service.js:28-37) serves login only.
- The Conversation and Message schemas are not modelled. No code uses them.
- Concurrent requests are not modelled. Each call runs alone. The gap between the two saves of attend is `EventService.AttendUserSaved`.
- UserService.GetUserById: the store never selects `password` (`select: false` in models/User.js), so the user the source loads has none, while the modelled user carries it. No reply changes, because `toJSON` removes it. The same holds for `UserService.UpdateUserById`.
- The clock is the `now` parameter. `Date.now()` and `dayjs` are not modelled.
- EventController.CreateEventAndAttend: both saves see one instant `now`. The source reads the clock at each save, so the outcome can differ only when the event's time falls between those two reads.
- The geo test is the `Within` parameter. `$centerSphere` geometry and the parsing of `latLng` by `latLngStringToLngLatArray` are not modelled.
- `timeUntilToday` is the `untilToday` parameter. A comparator that yields `NaN` is not modelled.
- Query strings arrive parsed. `from` and `to` are times, and an empty `from` or `to` is absent. `kmDistance` is a number: an absent key is `None` (radius 5 km), while an empty `kmDistance=`, which the route lets through, is `Some(0.0)`, the radius 0 that JavaScript's `"" / 6378.1` gives. ISO-date parsing and other number coercion are not modelled.
- The controller's page and limit parameters stay raw text. `EventQuery.GetEventsByFilter` takes them as numbers.
- EventQuery.GetEventsByFilter: requires `page >= 1` and `limit >= 1`. A negative skip, which the store rejects, and a zero, NaN or infinite `limit` are not modelled.
- EventQuery.SortEvents: the store's order among equal keys is modelled as the collection's order. Names compare in Unicode code-point order, which is the UTF-8 byte order the store uses; collations are not modelled. A missing field sorts first in the two ascending orders and last in the two descending ones.
- EventQuery.SortByNearestDate: it does not state stability. Events with equal keys keep their relative order in the code, but the contract does not say so.
- EventQuery.ContainsCI: the keyword is a literal substring. Regex metacharacters and non-ASCII case folding are not modelled.
- Validators.IsLongLatArray: every entry is a number or a non-number. JavaScript's coercion of numeric strings in `<` and `>` is not modelled.
- Validators.Validate: express-validator's error collection is the input list of messages.
- CommentService.UpdateComment: `comment.save()` is not awaited in the source. The model treats the write as done before the reply.
- `populate("commenter")` in `getCommentsFromEvent` is not modelled.

## Findings

| source | as written | input that shows it | evidently intended | confidence | as-written member | corrected member |
|---|---|---|---|---|---|---|
| services/event.service.js:254 | `event.organizer === userId` compares the stored ObjectId with the caller's id string. Strict equality of an object and a string never holds, so the guard never fires. Lines 142 and 170 call `toString()` first. | The organizer of live event 10, who attends it, calls unattend on it. The call succeeds, and event 10 no longer lists its organizer as an attendee. | The organizer is refused with "User is the organizer, please delete event instead". | high; not executed | EventService.RemoveUserFromEventAsWritten (counterexample `EventService.OrganizerLeavesAsWritten`) | EventService.RemoveUserFromEvent (proved by `EventService.OrganizerCannotUnattend` and `Invariants.CallsKeepOrganizerAttending`) |
