/** Properties that relate several handlers: what a get returns after a
    create, an update or a delete, and the dangling reference a venue
    deletion leaves behind. */
module Properties {
  import opened Wrappers
  import opened ObjectIds
  import opened Documents
  import opened Handlers

  /** A document created with identifier `id` is returned by a get on the
      identifier's canonical string: the stored fields, `_id` as a string. */
  lemma GetAfterInsert(t: Table, c: Coll, id: ObjectId, d: Fields)
    requires t.Valid() && c.IsEntity() && id !in t.docs
    ensures GetOne(t.Insert(id, d), c, Render(id)) == Ok(d["_id" := Str(Render(id))])
  {
    ParseRender(id);
    var after := t.Insert(id, d);
    assert after.docs[id] == d["_id" := Oid(id)];
    assert StringifyId(after.docs[id]) == d["_id" := Str(Render(id))];
  }

  /** A venue created from payload `v` reads back as exactly that payload
      plus its `_id`. */
  lemma VenueRoundTrip(t: Table, id: ObjectId, v: Venue)
    requires t.Valid() && id !in t.docs
    ensures var r := GetOne(t.Insert(id, VenueFields(v)), Venues, Render(id));
      && r.Ok?
      && r.value - {"_id"} == VenueFields(v)
      && r.value["_id"] == Str(Render(id))
  {
    GetAfterInsert(t, Venues, id, VenueFields(v));
    assert VenueFields(v)["_id" := Str(Render(id))] - {"_id"} == VenueFields(v);
  }

  /** After a `$set` of `f`, a get on the document returns the old fields
      overwritten by `f`, with its own `_id`. */
  lemma GetAfterSetFields(t: Table, c: Coll, id: ObjectId, f: Fields)
    requires t.Valid() && c.IsEntity() && id in t.docs && "_id" !in f
    ensures GetOne(t.SetFields(id, f), c, Render(id)) == Ok((t.docs[id] + f)["_id" := Str(Render(id))])
  {
    ParseRender(id);
    var after := t.SetFields(id, f);
    assert after.docs[id] == t.docs[id] + f;
    assert StringifyId(after.docs[id]) == (t.docs[id] + f)["_id" := Str(Render(id))];
  }

  /** A deleted identifier is gone: a get answers 404, and a reference
      check on it answers 400 "... not found". */
  lemma DeletedIsNotFound(t: Table, c: Coll, id: ObjectId, name: string)
    requires t.Valid() && c.IsEntity() && id in t.docs
    ensures GetOne(t.Remove(id), c, Render(id)) == Err(HttpError(404, c.NotFound()))
    ensures ValidateObjectId(Render(id), t.Remove(id), name) == Err(HttpError(400, name + " not found"))
  {
    ParseRender(id);
  }

  /** A delete touches no other document: every other identifier reads as
      before. */
  lemma DeleteKeepsOthers(t: Table, c: Coll, id: ObjectId, raw: string)
    requires t.Valid() && c.IsEntity() && id in t.docs
    requires Parse(raw) != Some(id)
    ensures GetOne(t.Remove(id), c, raw) == GetOne(t, c, raw)
  {
  }

  /** A document just inserted can serve as a reference right away, under
      its canonical string. */
  lemma ValidateAfterInsert(t: Table, id: ObjectId, d: Fields, name: string)
    requires t.Valid() && id !in t.docs
    ensures ValidateObjectId(Render(id), t.Insert(id, d), name) == Ok(id)
  {
    ParseRender(id);
  }

  /** The end-to-end scenario of the API: create venue `v` as `v1`, event `e`
      held there as `e1`, attendee `a` as `a1` and a booking of that
      attendee for that event as `b1`, then delete the venue. The booking
      succeeds, the venue is gone, and the event still names it: deleting
      does not cascade. */
  method DanglingVenueReference(v: Venue, e: Event, a: Attendee, b: Booking,
                                v1: ObjectId, e1: ObjectId, a1: ObjectId, b1: ObjectId)
    returns (booked: Result<Reply>, venueAfter: Result<Fields>, eventAfter: Result<Fields>)
    requires e.venueId == Render(v1)
    requires b.eventId == Render(e1) && b.attendeeId == Render(a1)
    ensures booked == Ok(Reply("Booking created", Some(Render(b1))))
    ensures venueAfter == Err(HttpError(404, "Venue not found"))
    ensures eventAfter.Ok? && "venue_id" in eventAfter.value && eventAfter.value["venue_id"] == Str(Render(v1))
  {
    var s := new Store();
    ParseRender(v1);
    ParseRender(e1);
    ParseRender(a1);
    var venue := s.Create(Venues, VenueFields(v), Some(v1));
    var event := s.CreateEvent(e, Some(e1));
    var attendee := s.Create(Attendees, AttendeeFields(a), Some(a1));
    booked := s.CreateBooking(b, Some(b1));
    var deleted := s.Delete(Venues, Render(v1));
    venueAfter := s.Get(Venues, Render(v1));
    eventAfter := s.Get(Events, Render(e1));
  }
}
