/** The Event document: its shape, the defaults the schema supplies on
    creation, and the pre-save hook that recomputes `isFinished`. */
module EventModel {
  import opened Common

  /** An event document. The six caller-supplied fields are optional because
      an update can write `undefined` into any of them. */
  datatype Event = Event(
    name: Option<string>,
    location: Option<Location>,
    time: Option<Time>,
    attendees: seq<Id>,
    organizer: Id,
    coverUrl: Option<string>,
    imagesUrls: Option<seq<string>>,
    description: Option<string>,
    isFinished: bool)

  /** The six fields a caller may set, as read from the request body;
      `None` is a field the body does not carry. */
  datatype EventInfo = EventInfo(
    name: Option<string>,
    location: Option<Location>,
    time: Option<Time>,
    coverUrl: Option<string>,
    imagesUrls: Option<seq<string>>,
    description: Option<string>)

  /** `dayjs(now).isAfter(time)`: strictly after. An undefined time is read by
      dayjs as the current instant, which `now` is never strictly after. */
  function FinishedAt(time: Option<Time>, now: Time): (finished: bool)
    ensures time.None? ==> !finished
    ensures time == Some(now) ==> !finished
  {
    time.Some? && now > time.value
  }

  /** Once finished, an event stays finished as the clock moves on. */
  lemma FinishedStaysFinished(time: Option<Time>, now: Time, later: Time)
    requires FinishedAt(time, now) && now <= later
    ensures FinishedAt(time, later)
  {
  }

  /** The pre-save hook, run on every `save` (and on `create`): it overwrites
      `isFinished` and nothing else. */
  function PreSave(e: Event, now: Time): (r: Event)
    ensures r.isFinished <==> (e.time.Some? && e.time.value < now)
    ensures e.time == Some(now) ==> !r.isFinished
    ensures r.(isFinished := e.isFinished) == e
  {
    e.(isFinished := FinishedAt(e.time, now))
  }

  /** A loaded event document, as the object the pre-save hook runs on. */
  class EventDocument {
    var doc: Event

    constructor Load(e: Event)
      ensures doc == e
    {
      doc := e;
    }

    /** The hook body: assigns `isFinished` on the document being saved. */
    method RunPreSave(now: Time)
      modifies this
      ensures doc == PreSave(old(doc), now)
    {
      doc := doc.(isFinished := FinishedAt(doc.time, now));
    }
  }

  /** Whatever `isFinished` a document carried before the save, the saved
      document is the same: the flag cannot be set through `save`. */
  lemma HookIgnoresStoredFlag(e: Event, b: bool, now: Time)
    ensures PreSave(e.(isFinished := b), now) == PreSave(e, now)
  {
  }

  /** The hook is idempotent at a fixed clock. */
  lemma HookIdempotent(e: Event, now: Time)
    ensures PreSave(PreSave(e, now), now) == PreSave(e, now)
  {
  }

  /** The document `Event.create` builds before its save: the given fields
      and the schema defaults (`coverUrl` and `description` to the empty
      string, `imagesUrls` to the empty array). */
  function Defaulted(info: EventInfo, organizer: Id, attendees: seq<Id>): Event {
    Event(info.name, info.location, info.time, attendees, organizer,
          Some(info.coverUrl.GetOr("")), Some(info.imagesUrls.GetOr([])),
          Some(info.description.GetOr("")), false)
  }

  /** `Event.create`: the defaulted document, then the hook. */
  function NewEvent(info: EventInfo, organizer: Id, attendees: seq<Id>, now: Time): (e: Event)
    ensures e.name == info.name && e.location == info.location && e.time == info.time
    ensures e.coverUrl == Some(info.coverUrl.GetOr(""))
    ensures e.description == Some(info.description.GetOr(""))
    ensures e.imagesUrls == Some(info.imagesUrls.GetOr([]))
    ensures info.coverUrl.None? ==> e.coverUrl == Some("")
    ensures info.description.None? ==> e.description == Some("")
    ensures e.organizer == organizer && e.attendees == attendees
    ensures e.isFinished <==> FinishedAt(info.time, now)
  {
    PreSave(Defaulted(info, organizer, attendees), now)
  }

  /** `updateEvent`'s copy of exactly the six allowed fields, absent ones
      written as `undefined`. */
  function AssignAllowed(e: Event, info: EventInfo): (r: Event)
    ensures r.name == info.name && r.location == info.location && r.time == info.time
    ensures r.coverUrl == info.coverUrl && r.imagesUrls == info.imagesUrls
    ensures r.description == info.description
    ensures r.organizer == e.organizer && r.attendees == e.attendees
    ensures r.isFinished == e.isFinished
  {
    e.(name := info.name, location := info.location, time := info.time,
       coverUrl := info.coverUrl, imagesUrls := info.imagesUrls,
       description := info.description)
  }
}
