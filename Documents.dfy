/** Documents and collections of the document store, as the handlers use
    them: a document is a map from field names to values, a collection maps
    each identifier to its document and keeps the store's natural order. */
module Documents {
  import opened Wrappers
  import opened ObjectIds

  datatype Value =
    | Null
    | Str(s: string)
    | Int(i: int)
    | Oid(id: ObjectId)
    | Binary(content: seq<Byte>)
    | Timestamp(time: int)

  type Fields = map<string, Value>

  /** The request payloads, already validated and typed. */
  datatype Event = Event(name: string, description: string, date: string, venueId: string, maxAttendees: int)
  datatype Venue = Venue(name: string, address: string, capacity: int)
  datatype Attendee = Attendee(name: string, email: string, phone: Option<string>)
  datatype Booking = Booking(eventId: string, attendeeId: string, ticketType: string, quantity: int)

  /** An uploaded file: its name and content type as the client sent them
      (either may be absent) and its bytes. */
  datatype Upload = Upload(filename: Option<string>, contentType: Option<string>, content: seq<Byte>)

  function OptionalStr(o: Option<string>): Value {
    match o
    case None => Null
    case Some(s) => Str(s)
  }

  /** `event.dict()`: the five model fields, never an `_id`. */
  function EventFields(e: Event): (r: Fields)
    ensures "_id" !in r && r.Keys == {"name", "description", "date", "venue_id", "max_attendees"}
  {
    map["name" := Str(e.name), "description" := Str(e.description), "date" := Str(e.date),
        "venue_id" := Str(e.venueId), "max_attendees" := Int(e.maxAttendees)]
  }

  /** `venue.dict()`. */
  function VenueFields(v: Venue): (r: Fields)
    ensures "_id" !in r && r.Keys == {"name", "address", "capacity"}
  {
    map["name" := Str(v.name), "address" := Str(v.address), "capacity" := Int(v.capacity)]
  }

  /** `attendee.dict()`: an absent phone is stored as null. */
  function AttendeeFields(a: Attendee): (r: Fields)
    ensures "_id" !in r && r.Keys == {"name", "email", "phone"}
    ensures a.phone.None? ==> r["phone"] == Null
  {
    map["name" := Str(a.name), "email" := Str(a.email), "phone" := OptionalStr(a.phone)]
  }

  /** `booking.dict()`. */
  function BookingFields(b: Booking): (r: Fields)
    ensures "_id" !in r && r.Keys == {"event_id", "attendee_id", "ticket_type", "quantity"}
  {
    map["event_id" := Str(b.eventId), "attendee_id" := Str(b.attendeeId),
        "ticket_type" := Str(b.ticketType), "quantity" := Int(b.quantity)]
  }

  /** The document `create_event` and `update_event` write: the payload
      with `venue_id` replaced by the canonical string of the venue. */
  function EventDoc(e: Event, venue: ObjectId): (r: Fields)
    ensures "_id" !in r && r.Keys == EventFields(e).Keys
    ensures r["venue_id"] == Str(Render(venue))
    ensures forall name :: name in r && name != "venue_id" ==> r[name] == EventFields(e)[name]
  {
    EventFields(e)["venue_id" := Str(Render(venue))]
  }

  /** The document `create_booking` and `update_booking` write: the payload
      with both references replaced by canonical strings. */
  function BookingDoc(b: Booking, event: ObjectId, attendee: ObjectId): (r: Fields)
    ensures "_id" !in r && r.Keys == BookingFields(b).Keys
    ensures r["event_id"] == Str(Render(event)) && r["attendee_id"] == Str(Render(attendee))
    ensures r["ticket_type"] == Str(b.ticketType) && r["quantity"] == Int(b.quantity)
  {
    BookingFields(b)["event_id" := Str(Render(event))]["attendee_id" := Str(Render(attendee))]
  }

  /** The document an upload handler inserts: the parent reference under
      `parentKey` exactly as the caller wrote it, the file's metadata and
      bytes, and the upload time. */
  function MediaFields(parentKey: string, parent: string, file: Upload, uploadedAt: int): (r: Fields)
    requires parentKey !in {"_id", "filename", "content_type", "content", "uploaded_at"}
    ensures r.Keys == {parentKey, "filename", "content_type", "content", "uploaded_at"}
    ensures r[parentKey] == Str(parent)
    ensures r["filename"] == OptionalStr(file.filename) && r["content_type"] == OptionalStr(file.contentType)
    ensures r["content"] == Binary(file.content) && r["uploaded_at"] == Timestamp(uploadedAt)
  {
    map["filename" := OptionalStr(file.filename), "content_type" := OptionalStr(file.contentType),
        "content" := Binary(file.content), "uploaded_at" := Timestamp(uploadedAt)][parentKey := Str(parent)]
  }

  /** `doc["_id"] = str(doc["_id"])`: the same fields, only `_id` now its
      canonical string. */
  predicate HasObjectId(d: Fields) {
    "_id" in d && d["_id"].Oid?
  }

  function StringifyId(d: Fields): (r: Fields)
    requires HasObjectId(d)
    ensures r.Keys == d.Keys && r["_id"] == Str(Render(d["_id"].id))
    ensures forall name :: name in d && name != "_id" ==> r[name] == d[name]
  {
    d["_id" := Str(Render(d["_id"].id))]
  }

  function Min(a: int, b: int): int {
    if a <= b then a else b
  }

  ghost predicate Distinct(s: seq<ObjectId>) {
    forall i, j :: 0 <= i < j < |s| ==> s[i] != s[j]
  }

  /** `s` with every occurrence of `x` dropped, the rest in order. */
  function Without(s: seq<ObjectId>, x: ObjectId): (r: seq<ObjectId>)
    ensures forall y :: y in r <==> y in s && y != x
    ensures |r| <= |s|
  {
    if s == [] then []
    else if s[0] == x then Without(s[1..], x)
    else [s[0]] + Without(s[1..], x)
  }

  lemma {:induction false} WithoutDistinct(s: seq<ObjectId>, x: ObjectId)
    requires Distinct(s)
    ensures Distinct(Without(s, x))
  {
    if s != [] {
      DistinctTail(s);
      WithoutDistinct(s[1..], x);
      if s[0] != x {
        var rest := Without(s[1..], x);
        var r := [s[0]] + rest;
        forall i, j | 0 <= i < j < |r| ensures r[i] != r[j] {
          if i == 0 {
            assert r[j] == rest[j - 1];
          } else {
            assert r[i] == rest[i - 1] && r[j] == rest[j - 1];
          }
        }
      }
    }
  }

  lemma DistinctTail(s: seq<ObjectId>)
    requires Distinct(s) && s != []
    ensures Distinct(s[1..]) && s[0] !in s[1..]
  {
    forall i, j | 0 <= i < j < |s[1..]| ensures s[1..][i] != s[1..][j] {
      assert s[1..][i] == s[i + 1] && s[1..][j] == s[j + 1];
    }
    forall k | 0 <= k < |s[1..]| ensures s[1..][k] != s[0] {
      assert s[1..][k] == s[k + 1];
    }
  }

  /** Dropping an identifier that does not occur changes nothing. */
  lemma {:induction false} WithoutAbsent(s: seq<ObjectId>, x: ObjectId)
    requires x !in s
    ensures Without(s, x) == s
  {
    if s != [] {
      assert x !in s[1..];
      WithoutAbsent(s[1..], x);
      assert [s[0]] + s[1..] == s;
    }
  }

  /** In a duplicate-free order, dropping the identifier at position `k`
      leaves every other identifier in its relative place. */
  lemma {:induction false} WithoutAt(s: seq<ObjectId>, x: ObjectId, k: nat)
    requires Distinct(s) && k < |s| && s[k] == x
    ensures Without(s, x) == s[..k] + s[k + 1..]
  {
    DistinctTail(s);
    if k == 0 {
      WithoutAbsent(s[1..], x);
    } else {
      assert s[0] != x;
      WithoutAt(s[1..], x, k - 1);
      assert s[1..][..k - 1] == s[1..k] && s[1..][k..] == s[k + 1..];
      assert [s[0]] + s[1..k] == s[..k];
    }
  }

  lemma WithoutSplit(s: seq<ObjectId>, x: ObjectId)
    requires Distinct(s)
    ensures forall k :: 0 <= k < |s| && s[k] == x ==> Without(s, x) == s[..k] + s[k + 1..]
  {
    forall k | 0 <= k < |s| && s[k] == x ensures Without(s, x) == s[..k] + s[k + 1..] {
      WithoutAt(s, x, k);
    }
  }

  lemma AppendDistinct(s: seq<ObjectId>, x: ObjectId)
    requires Distinct(s) && x !in s
    ensures Distinct(s + [x])
  {
    forall i, j | 0 <= i < j < |s + [x]| ensures (s + [x])[i] != (s + [x])[j] {
      if j == |s| {
        assert (s + [x])[i] == s[i];
      }
    }
  }

  /** One collection: its documents by identifier, and the store's natural
      order of those identifiers. */
  datatype Table = Table(docs: map<ObjectId, Fields>, order: seq<ObjectId>) {

    /** Every stored document appears once in the order and carries its own
        identifier under `_id`. */
    ghost predicate Valid() {
      && Distinct(order)
      && (forall id :: id in docs <==> id in order)
      && (forall id :: id in docs ==> "_id" in docs[id] && docs[id]["_id"] == Oid(id))
    }

    /** `insert_one(d)` that was assigned the fresh identifier `id`. */
    function Insert(id: ObjectId, d: Fields): (r: Table)
      requires Valid() && id !in docs
      ensures r.Valid()
      ensures r.docs.Keys == docs.Keys + {id}
      ensures r.docs[id] == d["_id" := Oid(id)]
      ensures forall k :: k in docs ==> r.docs[k] == docs[k]
      ensures r.order == order + [id]
    {
      InsertValid(id, d);
      Table(docs[id := d["_id" := Oid(id)]], order + [id])
    }

    lemma InsertValid(id: ObjectId, d: Fields)
      requires Valid() && id !in docs
      ensures Table(docs[id := d["_id" := Oid(id)]], order + [id]).Valid()
    {
      AppendDistinct(order, id);
    }

    /** `update_one({"_id": id}, {"$set": f})` on a matching document: the
        fields named in `f` take its values, every other field keeps its own. */
    function SetFields(id: ObjectId, f: Fields): (r: Table)
      requires Valid() && id in docs && "_id" !in f
      ensures r.Valid()
      ensures r.order == order && r.docs.Keys == docs.Keys
      ensures forall k :: k in docs && k != id ==> r.docs[k] == docs[k]
      ensures forall name :: name in r.docs[id] <==> name in docs[id] || name in f
      ensures forall name :: name in f ==> r.docs[id][name] == f[name]
      ensures forall name :: name in docs[id] && name !in f ==> r.docs[id][name] == docs[id][name]
      ensures r.docs[id]["_id"] == Oid(id)
    {
      Table(docs[id := docs[id] + f], order)
    }

    /** `delete_one({"_id": id})` on a matching document. */
    function Remove(id: ObjectId): (r: Table)
      requires Valid() && id in docs
      ensures r.Valid()
      ensures r.docs.Keys == docs.Keys - {id}
      ensures forall k :: k in r.docs ==> r.docs[k] == docs[k]
      ensures forall k :: k in r.order <==> k in order && k != id
      ensures forall k :: 0 <= k < |order| && order[k] == id ==> r.order == order[..k] + order[k + 1..]
    {
      WithoutDistinct(order, id);
      WithoutSplit(order, id);
      Table(docs - {id}, Without(order, id))
    }

    /** `find().to_list(limit)`: the first `limit` documents in store order. */
    function FirstN(limit: nat): (r: seq<Fields>)
      requires Valid()
      ensures |r| == Min(limit, |order|)
      ensures forall k :: 0 <= k < |r| ==> order[k] in docs && r[k] == docs[order[k]]
    {
      seq(Min(limit, |order|), k requires 0 <= k < Min(limit, |order|) => docs[order[k]])
    }
  }

  const EMPTY: Table := Table(map[], [])
}
