# Event management API: the request handlers, modelled in Dafny

This project models the request-handler layer of a small REST API for
events, venues, attendees and bookings, backed by a document store, plus
three upload endpoints for event posters, promotional videos and venue
photos (`main.py`). It also proves properties of that model.

The document store is modelled as one `Table` per collection. A `Table`
maps each object identifier to its document and keeps the identifiers in
the store's natural order. A document is a map from field names to values.
The seven collections are the fields of a `Store` class (`events`, `venues`,
`attendees`, `bookings`, `eventPosters`, `promoVideos`, `venuePhotos`).
Each handler is one atomic step on the store:

- **Read-only handlers** are functions over a snapshot of one collection:
  - `validate_object_id` is `ValidateObjectId`;
  - the four `get_<entity>` handlers are `GetOne` on one collection;
    `Store.Get` applies it to the collection its tag names.
- **List handlers** are `Store.List`. It takes the first 100 documents in
  store order and rewrites each one's `_id` in place in a local array
  (`StringifyIds`).
- **Writing handlers** are `Store` methods. Each one reassigns exactly one
  collection field and says what that collection becomes. Every other
  collection stays as it was (`OnlyChanged`).

Modules:

- `Wrappers` holds `Option`, used for optional fields, identifiers that do
  not parse, and inserts that report no identifier.
- `ObjectIds` is the identifier codec. A BSON object identifier is twelve
  bytes. `ObjectId(s)` is modelled as accepting exactly 24 hexadecimal
  digits in either case; `str(oid)` writes them in lower case. The handler
  proofs use two facts about it:
  - parsing a rendering gives the identifier back (`ParseRender`);
  - rendering a parsed string gives its lower-case form (`RenderParse`).

  A third fact, that rendering is injective (`RenderInjective`), is stated
  and proved, but no other proof uses it.
- `Documents` holds values, field maps, the typed payloads and their
  `.dict()` forms, and `Table` with the three writes the handlers issue:
  - `insert_one` is `Insert`;
  - `update_one` with `$set` is `SetFields`, a map union, so fields the
    payload does not name are kept;
  - `delete_one` is `Remove`.
- `Handlers` holds the error and reply types, the validator, the get
  function and the `Store` class.
- `Properties` holds lemmas that relate several handlers, and the
  end-to-end scenario that leaves a dangling venue reference.

Parameters stand in for what the handlers get from outside:

- `inserted` is the identifier `insert_one` reports. `Some(id)` is a fresh
  identifier; the method requires that it is not already in the collection.
  `None` stands for an insert that reports no identifier; the model then
  treats the document as not written.
- `uploadedAt` is the value of `datetime.utcnow()`.
- `Upload` is the file's name, content type and bytes.

Four behaviours of the code that are easy to misread, and which the model
keeps:

- An update is a `$set` of the payload's fields, not a replacement of the
  whole document. Fields that the payload does not name are kept.
- A reference that fails its check answers 400 with one of two messages:
  "Invalid {name} ID format" or "{name} not found".
- The event-poster upload has no check that an identifier was inserted.
  When the driver reports none, it answers success with the id text
  "None" (`str(None)`), where the other creates answer 500.
- Upload documents store the parent reference exactly as the caller wrote
  it. Create and update store references in canonical (lower-case) form.
  So the same event can be named `"65AB..."` in a poster document and
  `"65ab..."` in a booking (`ParseIgnoresCase`).

## Model

| member | source | states |
|---|---|---|
| `ObjectIds.Parse` | main.py:59 | `ObjectId(s)` succeeds exactly when `s` is well formed (24 hexadecimal digits); otherwise it raises `InvalidId`, modelled as `None` |
| `ObjectIds.Render` | main.py:78 | `str(oid)` is always a well-formed identifier string, already in lower case |
| `ObjectIds.ParseRender` | main.py:85-88 | parsing the canonical string of an identifier gives that identifier back, so a returned id addresses the new document |
| `ObjectIds.RenderParse` | main.py:73-78 | for every well-formed string, parsing succeeds and the canonical string of the result is the string in lower case |
| `ObjectIds.RenderInjective` | main.py:87 | distinct identifiers have distinct canonical strings |
| `ObjectIds.ParseIgnoresCase` | main.py:398 | a well-formed string and its lower-case form parse to the same identifier, so a raw stored reference can differ from the canonical one |
| `ObjectIds.DecodeEncode` | main.py:59 | decoding the hex text of any byte sequence gives the bytes back |
| `ObjectIds.EncodeDecode` | main.py:78 | encoding the decoded bytes of hex text gives the text in lower case |
| `Documents.EventFields` | main.py:33-38 | `event.dict()` has exactly the five Event fields and no `_id` |
| `Documents.VenueFields` | main.py:45-48 | `venue.dict()` has exactly the three Venue fields and no `_id` |
| `Documents.AttendeeFields` | main.py:40-43 | `attendee.dict()` has exactly name, email and phone, with an absent phone stored as null |
| `Documents.BookingFields` | main.py:50-54 | `booking.dict()` has exactly the four Booking fields and no `_id` |
| `Documents.EventDoc` | main.py:77-78 | the stored event is the payload with only `venue_id` replaced by the venue's canonical string |
| `Documents.BookingDoc` | main.py:307-309 | the stored booking has the payload's keys, both references as canonical strings, and ticket type and quantity from the payload |
| `Documents.MediaFields` | main.py:397-403 | an upload document has exactly five fields: the parent reference under its key exactly as given, the file's name and content type (null when absent), its bytes, and the upload time; it has no `_id` |
| `Documents.StringifyId` | main.py:96 | rewriting `_id` keeps every field and changes only `_id`, to the canonical string of the stored identifier |
| `Documents.Table.Insert` | main.py:80 | `insert_one` adds exactly one key, the fresh id, whose document is the given one plus its `_id`; other documents are untouched; the id goes last in store order; the table stays consistent |
| `Documents.Table.SetFields` | main.py:130-133 | a `$set` keeps the key set and the order; in the target document the named fields take the payload's values, the other fields and `_id` keep theirs; other documents are untouched |
| `Documents.Table.Remove` | main.py:144-146 | `delete_one` removes exactly that key from the map and the order; the remaining identifiers keep their relative order; every other document is untouched |
| `Documents.WithoutAt` | main.py:144-146 | in a duplicate-free order, dropping the identifier at position k gives the order before k followed by the order after k |
| `Documents.Table.FirstN` | main.py:93 | `find().to_list(n)` returns the first `min(n, size)` documents in store order |
| `Documents.WithoutDistinct` | main.py:144-146 | removing an identifier from a duplicate-free store order leaves it duplicate-free |
| `Handlers.Store.constructor` | main.py:29-30 | builds a store of seven empty, consistent collections, the starting point of the end-to-end scenario; every handler accepts any consistent store, whatever it already holds |
| `Handlers.ValidateObjectId` | main.py:57-67 | a malformed id gives 400 "Invalid {name} ID format"; a well-formed absent id gives 400 "{name} not found"; it succeeds exactly when the id parses and is present, and then returns the parsed id, whose canonical string is the input in lower case |
| `Handlers.GetOne` | main.py:102-112 | malformed id gives 400 "Invalid event ID"; well-formed absent id gives 404 "Event not found"; otherwise it returns the stored document's fields with `_id` as the id's canonical string. The same holds for venue (182-192), attendee (252-262) and booking (333-343) |
| `Handlers.Store.Get` | main.py:181-192 | a get on the database reads the collection its tag names: 400 for a malformed id, 404 "{Entity} not found" for a well-formed id not stored there; success exactly when the id is stored there, and then the stored document with `_id` as a string. The same holds for 102-112, 252-262 and 333-343 |
| `Handlers.StringifyIds` | main.py:95-96 | the loop rewrites every fetched document's `_id` in place, in the same positions |
| `Handlers.Store.List` | main.py:92-98 | at most 100 results, as many as the collection holds up to 100; the k-th result is the k-th stored document in store order with `_id` stringified; no collection changes. The same holds for 172-178, 242-248 and 323-329 |
| `Handlers.Store.Create` | main.py:157-168 | venue or attendee create: with an inserted id, exactly that document is added and the reply carries the id's canonical string; with none, 500 "Failed to create venue" and no change. Same for attendees (227-238); other collections untouched |
| `Handlers.Store.Update` | main.py:196-208 | venue or attendee update: malformed id gives 400 and absent id gives 404, both with the collection unchanged; otherwise only the payload's fields of that one document are overwritten. Same for attendees (266-278) |
| `Handlers.Store.Delete` | main.py:142-153 | malformed id gives 400 and absent id gives 404, both with the collection unchanged; otherwise exactly that key is removed and no other collection changes (no cascade). Same for 212-223, 282-293 and 377-388 |
| `Handlers.Store.CreateEvent` | main.py:72-88 | a failed venue check returns its error with events unchanged; with no inserted id, 500 and no change; otherwise one new key whose document is the payload with `venue_id` canonical, and the reply carries that key |
| `Handlers.Store.UpdateEvent` | main.py:116-138 | a malformed event id gives 400 before any venue check; a failed venue check gives its 400 even if the event is absent; an absent event gives 404; all three leave events unchanged; otherwise a `$set` of the canonical payload on that one event |
| `Handlers.Store.CreateBooking` | main.py:298-319 | the event is checked before the attendee, so when both fail the error is the event's; any failure leaves bookings unchanged; on success one new booking with both references canonical |
| `Handlers.Store.UpdateBooking` | main.py:347-373 | malformed booking id gives 400 first; then the event check, then the attendee check; then 404 for an absent booking; failures leave bookings unchanged; otherwise a `$set` of the canonical payload on that booking |
| `Handlers.Store.UploadEventPoster` | main.py:392-409 | a failed event check leaves posters unchanged; there is no 500 branch: with no inserted id the reply is a success carrying "None"; otherwise one poster with the raw `event_id` |
| `Handlers.Store.UploadPromoVideo` | main.py:414-435 | a failed event check leaves videos unchanged; with no inserted id, 500 "Failed to upload promotional video"; otherwise one video document with the raw `event_id` |
| `Handlers.Store.UploadVenuePhoto` | main.py:439-460 | a failed venue check leaves photos unchanged; with no inserted id, 500 "Failed to upload venue photo"; otherwise one photo document with the raw `venue_id` |
| `Properties.GetAfterInsert` | main.py:157-192 | after a create with id `id`, a get on the id's canonical string returns the created document with `_id` as that string |
| `Properties.VenueRoundTrip` | main.py:157-192 | a created venue reads back as exactly its payload plus `_id` |
| `Properties.GetAfterSetFields` | main.py:180-208 | after an update, a get returns the old fields overwritten by the payload, with the same `_id` |
| `Properties.DeletedIsNotFound` | main.py:210-223 | after a delete, a get on that id answers 404 and a reference check on it answers 400 "... not found" |
| `Properties.DeleteKeepsOthers` | main.py:212-223 | a delete leaves the get result of every other id as it was |
| `Properties.ValidateAfterInsert` | main.py:72-75 | a just-created document passes the reference check under its canonical string |
| `Properties.DanglingVenueReference` | main.py:157-223 | create venue, event, attendee and booking, then delete the venue: the booking succeeded, the venue answers 404, and the event still holds the venue's id |

## Left out

- App construction, routing, `.env` loading and the database client (main.py:1-30): configuration and I/O.
- `Handlers.Store.constructor`: builds an empty store. The connected database (main.py:29-30) already holds whatever was stored before, so the empty store is not its initial state. The handlers' contracts hold for any consistent store.
- `async`/`await` and the time-of-check/time-of-use gap between a reference check and the write after it. Each handler is modelled as one atomic step.
- The pydantic models' coercion and validation (main.py:33-54). Payloads are already-typed records; `.dict()` is a function per model.
- Reading the upload stream and the clock (main.py:395-402). The bytes and the timestamp are parameters.
- The internals of the bson library. The model assumes the documented format (24 hexadecimal digits, case-insensitive on input, lower case on output) and does not model other inputs the library might accept.
- Identifier generation by the driver. The identifier is a parameter that must be fresh.
- Store failures other than "no inserted identifier" (network errors, duplicate keys, server errors). The source does not catch them.
- `Handlers.Store.Create`, `Handlers.Store.Update`, `Handlers.Store.CreateEvent`, `Handlers.Store.UpdateEvent`, `Handlers.Store.CreateBooking`, `Handlers.Store.UpdateBooking`: integers are unbounded in the model. BSON stores them in at most 64 bits. A `max_attendees`, `capacity` or `quantity` outside the signed 64-bit range passes the request model. The write then raises `OverflowError` (main.py:80, 130, 160, 198, 230, 268, 311, 365). Nothing catches it, so the client gets an unhandled 500 where the model reports success.
- `Handlers.Store.UploadEventPoster`, `Handlers.Store.UploadPromoVideo`, `Handlers.Store.UploadVenuePhoto`: documents have no size limit in the model. BSON limits a document to 16 MiB. A larger upload makes `insert_one` raise `DocumentTooLarge` (main.py:405, 427, 452). Nothing catches it, so the client gets an unhandled 500 where the model reports success.
- `app/main.py` is an earlier revision of the same endpoints. Its handlers pass requests straight to the database with no reference checks, and it is not part of this model.
- `Handlers.Store.Create`, `Handlers.Store.CreateEvent`, `Handlers.Store.CreateBooking`, `Handlers.Store.UploadEventPoster`, `Handlers.Store.UploadPromoVideo`, `Handlers.Store.UploadVenuePhoto`: when the driver reports no inserted identifier, the model assumes nothing was written. The source cannot tell whether the write happened.
- `Handlers.Store.List`: the store's natural order is modelled as insertion order with deleted entries removed. Updates in place do not move a document in this model. The real store gives no such promise.
