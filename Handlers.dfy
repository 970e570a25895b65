/** The request handlers of the event management API over a document store
    with one collection per entity kind and three media collections. Each
    handler is one atomic step on the store. */
module Handlers {
  import opened Wrappers
  import opened ObjectIds
  import opened Documents

  /** An `HTTPException`: a status code and a detail message. */
  datatype HttpError = HttpError(status: int, detail: string)

  datatype Result<T> = Ok(value: T) | Err(error: HttpError)

  /** The `{"message": ..., "id": ...}` body of create, update, delete and
      upload replies; `id` is absent from update and delete replies. */
  datatype Reply = Reply(message: string, id: Option<string>)

  const LIST_LIMIT: nat := 100

  datatype Coll = Events | Venues | Attendees | Bookings | EventPosters | PromoVideos | VenuePhotos {

    /** The four collections that have get, list and delete handlers. */
    predicate IsEntity() {
      Events? || Venues? || Attendees? || Bookings?
    }

    /** The 400 detail for an identifier that does not parse. */
    function InvalidId(): string
      requires IsEntity()
    {
      match this
      case Events => "Invalid event ID"
      case Venues => "Invalid venue ID"
      case Attendees => "Invalid attendee ID"
      case Bookings => "Invalid booking ID"
    }

    /** The 404 detail for an identifier that matches no document. */
    function NotFound(): string
      requires IsEntity()
    {
      match this
      case Events => "Event not found"
      case Venues => "Venue not found"
      case Attendees => "Attendee not found"
      case Bookings => "Booking not found"
    }

    function Created(): string
      requires IsEntity()
    {
      match this
      case Events => "Event created"
      case Venues => "Venue created"
      case Attendees => "Attendee created"
      case Bookings => "Booking created"
    }

    function Updated(): string
      requires IsEntity()
    {
      match this
      case Events => "Event updated"
      case Venues => "Venue updated"
      case Attendees => "Attendee updated"
      case Bookings => "Booking updated"
    }

    function Deleted(): string
      requires IsEntity()
    {
      match this
      case Events => "Event deleted"
      case Venues => "Venue deleted"
      case Attendees => "Attendee deleted"
      case Bookings => "Booking deleted"
    }

    /** The 500 detail when the driver reports no inserted identifier. */
    function CreateFailed(): string
      requires IsEntity()
    {
      match this
      case Events => "Failed to create event"
      case Venues => "Failed to create venue"
      case Attendees => "Failed to create attendee"
      case Bookings => "Failed to create booking"
    }
  }

  /** `validate_object_id(raw, collection, name)`: the parsed identifier of
      a document that exists, or a 400 naming the entity. It only reads. */
  function ValidateObjectId(raw: string, t: Table, name: string): (r: Result<ObjectId>)
    ensures !IsWellFormed(raw) ==> r == Err(HttpError(400, "Invalid " + name + " ID format"))
    ensures IsWellFormed(raw) && Parse(raw).value !in t.docs ==> r == Err(HttpError(400, name + " not found"))
    ensures r.Ok? <==> IsWellFormed(raw) && Parse(raw).value in t.docs
    ensures r.Ok? ==> Parse(raw) == Some(r.value) && Render(r.value) == Lower(raw)
  {
    match Parse(raw)
    case None => Err(HttpError(400, "Invalid " + name + " ID format"))
    case Some(id) =>
      if id in t.docs then RenderParse(raw); Ok(id)
      else Err(HttpError(400, name + " not found"))
  }

  /** `get_<entity>(raw)`: the stored document with `_id` as a string, 400
      for a malformed identifier, 404 for an absent one. It only reads. */
  function GetOne(t: Table, c: Coll, raw: string): (r: Result<Fields>)
    requires t.Valid() && c.IsEntity()
    ensures !IsWellFormed(raw) ==> r == Err(HttpError(400, c.InvalidId()))
    ensures IsWellFormed(raw) && Parse(raw).value !in t.docs ==> r == Err(HttpError(404, c.NotFound()))
    ensures r.Ok? <==> IsWellFormed(raw) && Parse(raw).value in t.docs
    ensures r.Ok? ==> var id := Parse(raw).value;
      && r.value.Keys == t.docs[id].Keys
      && (forall name :: name in r.value && name != "_id" ==> r.value[name] == t.docs[id][name])
      && r.value["_id"] == Str(Lower(raw))
  {
    match Parse(raw)
    case None => Err(HttpError(400, c.InvalidId()))
    case Some(id) =>
      if id in t.docs then RenderParse(raw); Ok(StringifyId(t.docs[id]))
      else Err(HttpError(404, c.NotFound()))
  }

  /** The loop of the list handlers: `for doc in docs: doc["_id"] =
      str(doc["_id"])`, rewriting each fetched document in place. */
  method StringifyIds(docs: array<Fields>)
    requires forall k :: 0 <= k < docs.Length ==> HasObjectId(docs[k])
    modifies docs
    ensures forall k :: 0 <= k < docs.Length ==> docs[k] == StringifyId(old(docs[k]))
  {
    var i := 0;
    while i < docs.Length
      invariant 0 <= i <= docs.Length
      invariant forall k :: 0 <= k < i ==> docs[k] == StringifyId(old(docs[k]))
      invariant forall k :: i <= k < docs.Length ==> docs[k] == old(docs[k])
    {
      docs[i] := StringifyId(docs[i]);
      i := i + 1;
    }
  }

  /** The database: one field per collection, each reassigned by the
      handler that writes it. */
  class Store {
    var events: Table
    var venues: Table
    var attendees: Table
    var bookings: Table
    var eventPosters: Table
    var promoVideos: Table
    var venuePhotos: Table

    ghost predicate Valid()
      reads this
    {
      && events.Valid() && venues.Valid() && attendees.Valid() && bookings.Valid()
      && eventPosters.Valid() && promoVideos.Valid() && venuePhotos.Valid()
    }

    /** `db.<collection>`. */
    function Collection(c: Coll): Table
      reads this
    {
      match c
      case Events => events
      case Venues => venues
      case Attendees => attendees
      case Bookings => bookings
      case EventPosters => eventPosters
      case PromoVideos => promoVideos
      case VenuePhotos => venuePhotos
    }

    /** Every collection other than `c` is as it was. */
    twostate predicate OnlyChanged(c: Coll)
      reads this
    {
      && (c != Events ==> events == old(events))
      && (c != Venues ==> venues == old(venues))
      && (c != Attendees ==> attendees == old(attendees))
      && (c != Bookings ==> bookings == old(bookings))
      && (c != EventPosters ==> eventPosters == old(eventPosters))
      && (c != PromoVideos ==> promoVideos == old(promoVideos))
      && (c != VenuePhotos ==> venuePhotos == old(venuePhotos))
    }

    constructor ()
      ensures Valid()
      ensures events == EMPTY && venues == EMPTY && attendees == EMPTY && bookings == EMPTY
      ensures eventPosters == EMPTY && promoVideos == EMPTY && venuePhotos == EMPTY
    {
      events, venues, attendees, bookings := EMPTY, EMPTY, EMPTY, EMPTY;
      eventPosters, promoVideos, venuePhotos := EMPTY, EMPTY, EMPTY;
    }

    method Put(c: Coll, t: Table)
      requires Valid() && t.Valid()
      modifies this
      ensures Valid() && Collection(c) == t && OnlyChanged(c)
    {
      match c
      case Events => events := t;
      case Venues => venues := t;
      case Attendees => attendees := t;
      case Bookings => bookings := t;
      case EventPosters => eventPosters := t;
      case PromoVideos => promoVideos := t;
      case VenuePhotos => venuePhotos := t;
    }

    /** `get_<entity>(raw)` on the database: the get of the collection that
        `c` names, so its messages always match the collection it reads. */
    function Get(c: Coll, raw: string): (r: Result<Fields>)
      requires Valid() && c.IsEntity()
      reads this
      ensures !IsWellFormed(raw) ==> r == Err(HttpError(400, c.InvalidId()))
      ensures IsWellFormed(raw) && Parse(raw).value !in Collection(c).docs ==> r == Err(HttpError(404, c.NotFound()))
      ensures r.Ok? <==> IsWellFormed(raw) && Parse(raw).value in Collection(c).docs
      ensures r.Ok? ==> r.value == StringifyId(Collection(c).docs[Parse(raw).value])
    {
      GetOne(Collection(c), c, raw)
    }

    /** `get_<entity>s()`: the first 100 documents of collection `c` in
        store order, each with its `_id` rewritten as a string. */
    method List(c: Coll) returns (r: seq<Fields>)
      requires Valid() && c.IsEntity()
      ensures |r| == Min(LIST_LIMIT, |Collection(c).order|) && |r| <= LIST_LIMIT
      ensures forall k :: 0 <= k < |r| ==>
        && Collection(c).order[k] in Collection(c).docs
        && HasObjectId(Collection(c).docs[Collection(c).order[k]])
        && r[k] == StringifyId(Collection(c).docs[Collection(c).order[k]])
    {
      var t := Collection(c);
      var fetched := t.FirstN(LIST_LIMIT);
      var docs := new Fields[|fetched|](k requires 0 <= k < |fetched| => fetched[k]);
      StringifyIds(docs);
      r := docs[..];
    }

    /** `create_venue` and `create_attendee`: insert the payload's fields
        unchecked and reply with the new identifier. `inserted` is the
        identifier the driver reports for the insert, `None` when it
        reports none. */
    method Create(c: Coll, payload: Fields, inserted: Option<ObjectId>) returns (r: Result<Reply>)
      requires Valid() && (c == Venues || c == Attendees) && "_id" !in payload
      requires inserted.Some? ==> inserted.value !in Collection(c).docs
      modifies this
      ensures Valid() && OnlyChanged(c)
      ensures inserted.None? ==>
        r == Err(HttpError(500, c.CreateFailed())) && Collection(c) == old(Collection(c))
      ensures inserted.Some? ==>
        && r == Ok(Reply(c.Created(), Some(Render(inserted.value))))
        && Collection(c) == old(Collection(c)).Insert(inserted.value, payload)
    {
      match inserted
      case None =>
        r := Err(HttpError(500, c.CreateFailed()));
      case Some(id) =>
        Put(c, Collection(c).Insert(id, payload));
        r := Ok(Reply(c.Created(), Some(Render(id))));
    }

    /** `update_venue` and `update_attendee`: `$set` the payload's fields on
        the addressed document; there is no reference to check. */
    method Update(c: Coll, raw: string, payload: Fields) returns (r: Result<Reply>)
      requires Valid() && (c == Venues || c == Attendees) && "_id" !in payload
      modifies this
      ensures Valid() && OnlyChanged(c)
      ensures !IsWellFormed(raw) ==>
        r == Err(HttpError(400, c.InvalidId())) && Collection(c) == old(Collection(c))
      ensures IsWellFormed(raw) && Parse(raw).value !in old(Collection(c)).docs ==>
        r == Err(HttpError(404, c.NotFound())) && Collection(c) == old(Collection(c))
      ensures IsWellFormed(raw) && Parse(raw).value in old(Collection(c)).docs ==>
        && r == Ok(Reply(c.Updated(), None))
        && Collection(c) == old(Collection(c)).SetFields(Parse(raw).value, payload)
    {
      match Parse(raw)
      case None =>
        r := Err(HttpError(400, c.InvalidId()));
      case Some(id) =>
        if id !in Collection(c).docs {
          r := Err(HttpError(404, c.NotFound()));
        } else {
          Put(c, Collection(c).SetFields(id, payload));
          r := Ok(Reply(c.Updated(), None));
        }
    }

    /** `delete_<entity>(raw)`: remove exactly the addressed document from
        collection `c`; documents elsewhere that refer to it stay. */
    method Delete(c: Coll, raw: string) returns (r: Result<Reply>)
      requires Valid() && c.IsEntity()
      modifies this
      ensures Valid() && OnlyChanged(c)
      ensures !IsWellFormed(raw) ==>
        r == Err(HttpError(400, c.InvalidId())) && Collection(c) == old(Collection(c))
      ensures IsWellFormed(raw) && Parse(raw).value !in old(Collection(c)).docs ==>
        r == Err(HttpError(404, c.NotFound())) && Collection(c) == old(Collection(c))
      ensures IsWellFormed(raw) && Parse(raw).value in old(Collection(c)).docs ==>
        && r == Ok(Reply(c.Deleted(), None))
        && Collection(c) == old(Collection(c)).Remove(Parse(raw).value)
    {
      match Parse(raw)
      case None =>
        r := Err(HttpError(400, c.InvalidId()));
      case Some(id) =>
        if id !in Collection(c).docs {
          r := Err(HttpError(404, c.NotFound()));
        } else {
          Put(c, Collection(c).Remove(id));
          r := Ok(Reply(c.Deleted(), None));
        }
    }

    /** `create_event`: check the venue, store the payload with `venue_id`
        in canonical form, reply with the new identifier. */
    method CreateEvent(e: Event, inserted: Option<ObjectId>) returns (r: Result<Reply>)
      requires Valid()
      requires inserted.Some? ==> inserted.value !in events.docs
      modifies this
      ensures Valid() && OnlyChanged(Events)
      ensures var venue := ValidateObjectId(e.venueId, venues, "Venue");
        && (venue.Err? ==> r == Err(venue.error) && events == old(events))
        && (venue.Ok? && inserted.None? ==>
              r == Err(HttpError(500, "Failed to create event")) && events == old(events))
        && (venue.Ok? && inserted.Some? ==>
              && r == Ok(Reply("Event created", Some(Render(inserted.value))))
              && events == old(events).Insert(inserted.value, EventDoc(e, venue.value)))
    {
      var venue := ValidateObjectId(e.venueId, venues, "Venue");
      if venue.Err? {
        return Err(venue.error);
      }
      var doc := EventDoc(e, venue.value);
      match inserted
      case None =>
        r := Err(HttpError(500, "Failed to create event"));
      case Some(id) =>
        Put(Events, events.Insert(id, doc));
        r := Ok(Reply("Event created", Some(Render(id))));
    }

    /** `update_event`: parse the event's identifier, then check the venue,
        then `$set` the payload with `venue_id` in canonical form. */
    method UpdateEvent(raw: string, e: Event) returns (r: Result<Reply>)
      requires Valid()
      modifies this
      ensures Valid() && OnlyChanged(Events)
      ensures !IsWellFormed(raw) ==> r == Err(HttpError(400, "Invalid event ID")) && events == old(events)
      ensures IsWellFormed(raw) ==>
        var id := Parse(raw).value;
        var venue := ValidateObjectId(e.venueId, venues, "Venue");
        && (venue.Err? ==> r == Err(venue.error) && events == old(events))
        && (venue.Ok? && id !in old(events).docs ==>
              r == Err(HttpError(404, "Event not found")) && events == old(events))
        && (venue.Ok? && id in old(events).docs ==>
              && r == Ok(Reply("Event updated", None))
              && events == old(events).SetFields(id, EventDoc(e, venue.value)))
    {
      var parsed := Parse(raw);
      if parsed.None? {
        return Err(HttpError(400, "Invalid event ID"));
      }
      var venue := ValidateObjectId(e.venueId, venues, "Venue");
      if venue.Err? {
        return Err(venue.error);
      }
      var id := parsed.value;
      if id !in events.docs {
        return Err(HttpError(404, "Event not found"));
      }
      Put(Events, events.SetFields(id, EventDoc(e, venue.value)));
      r := Ok(Reply("Event updated", None));
    }

    /** `create_booking`: check the event, then the attendee, store the
        payload with both references in canonical form. */
    method CreateBooking(b: Booking, inserted: Option<ObjectId>) returns (r: Result<Reply>)
      requires Valid()
      requires inserted.Some? ==> inserted.value !in bookings.docs
      modifies this
      ensures Valid() && OnlyChanged(Bookings)
      ensures
        var event := ValidateObjectId(b.eventId, events, "Event");
        var attendee := ValidateObjectId(b.attendeeId, attendees, "Attendee");
        && (event.Err? ==> r == Err(event.error) && bookings == old(bookings))
        && (event.Ok? && attendee.Err? ==> r == Err(attendee.error) && bookings == old(bookings))
        && (event.Ok? && attendee.Ok? && inserted.None? ==>
              r == Err(HttpError(500, "Failed to create booking")) && bookings == old(bookings))
        && (event.Ok? && attendee.Ok? && inserted.Some? ==>
              && r == Ok(Reply("Booking created", Some(Render(inserted.value))))
              && bookings == old(bookings).Insert(inserted.value,
                   BookingDoc(b, event.value, attendee.value)))
    {
      var event := ValidateObjectId(b.eventId, events, "Event");
      if event.Err? {
        return Err(event.error);
      }
      var attendee := ValidateObjectId(b.attendeeId, attendees, "Attendee");
      if attendee.Err? {
        return Err(attendee.error);
      }
      var doc := BookingDoc(b, event.value, attendee.value);
      match inserted
      case None =>
        r := Err(HttpError(500, "Failed to create booking"));
      case Some(id) =>
        Put(Bookings, bookings.Insert(id, doc));
        r := Ok(Reply("Booking created", Some(Render(id))));
    }

    /** `update_booking`: parse the booking's identifier, check the event,
        then the attendee, then `$set` the payload. */
    method UpdateBooking(raw: string, b: Booking) returns (r: Result<Reply>)
      requires Valid()
      modifies this
      ensures Valid() && OnlyChanged(Bookings)
      ensures !IsWellFormed(raw) ==> r == Err(HttpError(400, "Invalid booking ID")) && bookings == old(bookings)
      ensures IsWellFormed(raw) ==>
        var id := Parse(raw).value;
        var event := ValidateObjectId(b.eventId, events, "Event");
        var attendee := ValidateObjectId(b.attendeeId, attendees, "Attendee");
        && (event.Err? ==> r == Err(event.error) && bookings == old(bookings))
        && (event.Ok? && attendee.Err? ==> r == Err(attendee.error) && bookings == old(bookings))
        && (event.Ok? && attendee.Ok? && id !in old(bookings).docs ==>
              r == Err(HttpError(404, "Booking not found")) && bookings == old(bookings))
        && (event.Ok? && attendee.Ok? && id in old(bookings).docs ==>
              && r == Ok(Reply("Booking updated", None))
              && bookings == old(bookings).SetFields(id,
                   BookingDoc(b, event.value, attendee.value)))
    {
      var parsed := Parse(raw);
      if parsed.None? {
        return Err(HttpError(400, "Invalid booking ID"));
      }
      var event := ValidateObjectId(b.eventId, events, "Event");
      if event.Err? {
        return Err(event.error);
      }
      var attendee := ValidateObjectId(b.attendeeId, attendees, "Attendee");
      if attendee.Err? {
        return Err(attendee.error);
      }
      var id := parsed.value;
      if id !in bookings.docs {
        return Err(HttpError(404, "Booking not found"));
      }
      Put(Bookings, bookings.SetFields(id, BookingDoc(b, event.value, attendee.value)));
      r := Ok(Reply("Booking updated", None));
    }

    /** `upload_event_poster`: check the event, then store the file under
        the raw `event_id`. There is no check of the inserted identifier:
        when the driver reports none the reply carries the text "None". */
    method UploadEventPoster(raw: string, file: Upload, uploadedAt: int, inserted: Option<ObjectId>)
      returns (r: Result<Reply>)
      requires Valid()
      requires inserted.Some? ==> inserted.value !in eventPosters.docs
      modifies this
      ensures Valid() && OnlyChanged(EventPosters)
      ensures var event := ValidateObjectId(raw, events, "Event");
        && (event.Err? ==> r == Err(event.error) && eventPosters == old(eventPosters))
        && (event.Ok? && inserted.None? ==>
              r == Ok(Reply("Event poster uploaded", Some("None"))) && eventPosters == old(eventPosters))
        && (event.Ok? && inserted.Some? ==>
              && r == Ok(Reply("Event poster uploaded", Some(Render(inserted.value))))
              && eventPosters == old(eventPosters).Insert(inserted.value, MediaFields("event_id", raw, file, uploadedAt)))
    {
      var event := ValidateObjectId(raw, events, "Event");
      if event.Err? {
        return Err(event.error);
      }
      match inserted
      case None =>
        r := Ok(Reply("Event poster uploaded", Some("None")));
      case Some(id) =>
        Put(EventPosters, eventPosters.Insert(id, MediaFields("event_id", raw, file, uploadedAt)));
        r := Ok(Reply("Event poster uploaded", Some(Render(id))));
    }

    /** `upload_promo_video`: check the event, then store the file under the
        raw `event_id`; 500 when the driver reports no inserted identifier. */
    method UploadPromoVideo(raw: string, file: Upload, uploadedAt: int, inserted: Option<ObjectId>)
      returns (r: Result<Reply>)
      requires Valid()
      requires inserted.Some? ==> inserted.value !in promoVideos.docs
      modifies this
      ensures Valid() && OnlyChanged(PromoVideos)
      ensures var event := ValidateObjectId(raw, events, "Event");
        && (event.Err? ==> r == Err(event.error) && promoVideos == old(promoVideos))
        && (event.Ok? && inserted.None? ==>
              r == Err(HttpError(500, "Failed to upload promotional video")) && promoVideos == old(promoVideos))
        && (event.Ok? && inserted.Some? ==>
              && r == Ok(Reply("Promotional video uploaded", Some(Render(inserted.value))))
              && promoVideos == old(promoVideos).Insert(inserted.value, MediaFields("event_id", raw, file, uploadedAt)))
    {
      var event := ValidateObjectId(raw, events, "Event");
      if event.Err? {
        return Err(event.error);
      }
      match inserted
      case None =>
        r := Err(HttpError(500, "Failed to upload promotional video"));
      case Some(id) =>
        Put(PromoVideos, promoVideos.Insert(id, MediaFields("event_id", raw, file, uploadedAt)));
        r := Ok(Reply("Promotional video uploaded", Some(Render(id))));
    }

    /** `upload_venue_photo`: check the venue, then store the file under the
        raw `venue_id`; 500 when the driver reports no inserted identifier. */
    method UploadVenuePhoto(raw: string, file: Upload, uploadedAt: int, inserted: Option<ObjectId>)
      returns (r: Result<Reply>)
      requires Valid()
      requires inserted.Some? ==> inserted.value !in venuePhotos.docs
      modifies this
      ensures Valid() && OnlyChanged(VenuePhotos)
      ensures var venue := ValidateObjectId(raw, venues, "Venue");
        && (venue.Err? ==> r == Err(venue.error) && venuePhotos == old(venuePhotos))
        && (venue.Ok? && inserted.None? ==>
              r == Err(HttpError(500, "Failed to upload venue photo")) && venuePhotos == old(venuePhotos))
        && (venue.Ok? && inserted.Some? ==>
              && r == Ok(Reply("Venue photo uploaded", Some(Render(inserted.value))))
              && venuePhotos == old(venuePhotos).Insert(inserted.value, MediaFields("venue_id", raw, file, uploadedAt)))
    {
      var venue := ValidateObjectId(raw, venues, "Venue");
      if venue.Err? {
        return Err(venue.error);
      }
      match inserted
      case None =>
        r := Err(HttpError(500, "Failed to upload venue photo"));
      case Some(id) =>
        Put(VenuePhotos, venuePhotos.Insert(id, MediaFields("venue_id", raw, file, uploadedAt)));
        r := Ok(Reply("Venue photo uploaded", Some(Render(id))));
    }
  }
}
