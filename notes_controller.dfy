/** The five handlers of server/controllers/notesController.js. `*Spec` functions give, for a
    store state and a request, the new store state, the HTTP response and the note counter the
    handler bumps; the `Controller` class runs the same steps on the collection object,
    the mongoose documents and the metric objects, and is proved to agree with them. */
module NotesController {
  import opened Wrappers
  import opened NoteModel
  import opened NoteStore
  import M = Metrics

  // ---------------------------------------------------------------------------
  // Messages and the JSON envelope
  // ---------------------------------------------------------------------------

  const RequiredMessage: string := "Title and content are required"
  const CreatedMessage: string := "Note created successfully"
  const CreateErrorMessage: string := "Error creating note"
  const ListErrorMessage: string := "Error retrieving notes"
  const NotFoundMessage: string := "Note not found"
  const GetErrorMessage: string := "Error retrieving note"
  const UpdatedMessage: string := "Note updated successfully"
  const UpdateErrorMessage: string := "Error updating note"
  const DeletedMessage: string := "Note deleted successfully"
  const DeleteErrorMessage: string := "Error deleting note"

  /** The parsed JSON request body: only `title` and `content` are read. */
  datatype NoteBody = NoteBody(title: Field, content: Field)

  /** The `{id, title, content, createdAt, updatedAt}` projection every handler responds with;
      the id is the ObjectId's hex string, as it is serialised. */
  datatype NoteView = NoteView(id: string, title: string, content: string, createdAt: int, updatedAt: int)

  function View(n: Note): NoteView {
    NoteView(n.id.hex, n.title, n.content, n.createdAt, n.updatedAt)
  }

  /** `notes.map(note => ({...}))`: the projection of each note, in the same order. */
  function Views(ns: seq<Note>): seq<NoteView> {
    seq(|ns|, i requires 0 <= i < |ns| => View(ns[i]))
  }

  /** The `data` property: absent, one projection, or a list of them. */
  datatype Payload = NoData | One(view: NoteView) | Many(views: seq<NoteView>)

  /** The JSON body; `message`, `count` and `error` are absent where a handler leaves them out.
      `error` carries the store failure whose message the catch branch sends. */
  datatype Body = Body(success: bool, message: Option<string>, count: Option<nat>,
                       data: Payload, error: Option<StoreError>)

  datatype Response = Response(status: int, body: Body)

  function Succeeded(status: int, message: Option<string>, data: Payload): Response {
    Response(status, Body(true, message, None, data, None))
  }

  function Rejected(status: int, message: string): Response {
    Response(status, Body(false, Some(message), None, NoData, None))
  }

  /** A catch branch: 500 with the handler's message and the failure. */
  function StoreFailure(message: string, e: StoreError): Response {
    Response(500, Body(false, Some(message), None, NoData, Some(e)))
  }

  /** What one handler call does: the store afterwards, the response, and the note counter it
      bumps, if any. */
  datatype Outcome = Outcome(db: Db, response: Response, bumped: Option<M.NoteOp>)

  // ---------------------------------------------------------------------------
  // createNote
  // ---------------------------------------------------------------------------

  /** The note a successful create stores: trimmed values, both stamps at `now`. */
  function CreatedNote(body: NoteBody, newId: ObjectId, now: int): Note
    requires body.title.Str? && body.content.Str?
  {
    Note(newId, Trim(body.title.text), Trim(body.content.text), now, now)
  }

  /** When `Note.create` succeeds: both fields truthy, their trimmed values accepted by the
      schema, the store connected, and the generated id not taken. */
  predicate CreateAccepted(db: Db, body: NoteBody, newId: ObjectId) {
    && !IsFalsy(body.title) && !IsFalsy(body.content)
    && TitleAccepted(Some(Trim(body.title.text))) && ContentAccepted(Some(Trim(body.content.text)))
    && db.connected && newId !in db.docs
  }

  /** `createNote`: 400 when a field is falsy; otherwise `Note.create` with the id the driver
      generates (`newId`) at time `now`, and 201 with the stored projection, or 500 when the
      store refuses the document. Only a 201 changes the store or bumps `notesCreated`. */
  function CreateNoteSpec(db: Db, body: NoteBody, newId: ObjectId, now: int): (o: Outcome)
    ensures o.response.status in {201, 400, 500}
    ensures o.response.status == 400 <==> IsFalsy(body.title) || IsFalsy(body.content)
    ensures o.response.status == 400 ==> o.response == Rejected(400, RequiredMessage)
    ensures o.response.status == 201 <==> CreateAccepted(db, body, newId)
    ensures o.response.status == 201 ==>
              && o.db == InsertNote(db, CreatedNote(body, newId, now))
              && o.response == Succeeded(201, Some(CreatedMessage), One(View(CreatedNote(body, newId, now))))
              && o.bumped == Some(M.Created)
    ensures o.response.status == 500 ==>
              o.response.body.message == Some(CreateErrorMessage) && !o.response.body.success
              && o.response.body.error.Some?
    ensures o.response.status != 201 ==> o.db == db && o.bumped.None?
  {
    if IsFalsy(body.title) || IsFalsy(body.content) then
      Outcome(db, Rejected(400, RequiredMessage), None)
    else
      match SaveSpec(db, NewDocument(newId, body.title.text, body.content.text, now), now)
      case Saved(db', n) => Outcome(db', Succeeded(201, Some(CreatedMessage), One(View(n))), Some(M.Created))
      case SaveFailed(e) => Outcome(db, StoreFailure(CreateErrorMessage, e), None)
  }

  // ---------------------------------------------------------------------------
  // getAllNotes
  // ---------------------------------------------------------------------------

  /** Each projection is at least as new as the one after it. */
  predicate ViewsNewestFirst(vs: seq<NoteView>) {
    forall i :: 0 <= i < |vs| - 1 ==> vs[i].createdAt >= vs[i + 1].createdAt
  }

  /** `getAllNotes`: `find().sort({createdAt: -1})`, then 200 with the count and the
      projections, bumping `notesRetrieved` however many notes there are; 500 when the store
      cannot be reached. Never changes the store. */
  function GetAllNotesSpec(db: Db): (o: Outcome)
    ensures o.db == db
    ensures o.response.status == 200 <==> db.connected
    ensures o.response.status != 200 ==>
              o.response == StoreFailure(ListErrorMessage, Disconnected) && o.bumped.None?
    ensures o.response.status == 200 ==>
              && o.response.body.success && o.response.body.data.Many?
              && o.response.body.count == Some(|o.response.body.data.views|)
              && ViewsNewestFirst(o.response.body.data.views)
              && o.bumped == Some(M.Retrieved)
  {
    if !db.connected then
      Outcome(db, StoreFailure(ListErrorMessage, Disconnected), None)
    else
      var notes := SortNewestFirst(FindAll(db));
      Outcome(db, Response(200, Body(true, None, Some(|notes|), Many(Views(notes)), None)),
              Some(M.Retrieved))
  }

  // ---------------------------------------------------------------------------
  // getNoteById
  // ---------------------------------------------------------------------------

  /** `getNoteById`: 200 with the projection of the stored note (bumping `notesRetrieved`),
      404 "Note not found" for a well-formed id with no note, 500 when `findById` throws.
      Never changes the store. */
  function GetNoteByIdSpec(db: Db, raw: string): (o: Outcome)
    ensures o.db == db
    ensures o.response.status == 200 <==> FindById(db, raw).Found?
    ensures o.response.status == 200 ==>
              && o.response == Succeeded(200, None, One(View(db.docs[CastObjectId(raw).value])))
              && o.bumped == Some(M.Retrieved)
    ensures o.response.status == 404 <==>
              IsWellFormedId(raw) && db.connected && CastObjectId(raw).value !in db.docs
    ensures o.response.status == 404 ==> o.response == Rejected(404, NotFoundMessage)
    ensures o.response.status == 500 <==> !IsWellFormedId(raw) || !db.connected
    ensures o.response.status == 500 ==>
              o.response == StoreFailure(GetErrorMessage, FindById(db, raw).error)
    ensures o.response.status != 200 ==> o.bumped.None?
  {
    match FindById(db, raw)
    case Failed(e) => Outcome(db, StoreFailure(GetErrorMessage, e), None)
    case Absent => Outcome(db, Rejected(404, NotFoundMessage), None)
    case Found(n) => Outcome(db, Succeeded(200, None, One(View(n))), Some(M.Retrieved))
  }

  // ---------------------------------------------------------------------------
  // updateNote
  // ---------------------------------------------------------------------------

  /** A path after `if (f !== undefined) note.path = f`: kept when `f` is undefined, otherwise
      the setter's value (no value at all for `null`). */
  function Assigned(current: string, f: Field): Option<string> {
    if f.Undefined? then Some(current) else SetterValue(f)
  }

  /** The document `updateNote` saves: the stored note with the supplied paths assigned and
      `updatedAt` set to `now`. */
  function EditedDocument(n: Note, body: NoteBody, now: int): DocState {
    StoredDocument(n).(title := Assigned(n.title, body.title),
                       content := Assigned(n.content, body.content),
                       updatedAt := now)
  }

  /** `updateNote`: `findById` (500 when it throws, 404 when nothing is stored), then the
      supplied fields assigned, `updatedAt` set, and `save()`: 200 with the saved projection
      and a bump of `notesUpdated`, or 500 when the schema or the store refuses it. */
  function UpdateNoteSpec(db: Db, raw: string, body: NoteBody, now: int): (o: Outcome)
    ensures o.response.status in {200, 404, 500}
    ensures o.response.status == 404 <==> FindById(db, raw).Absent?
    ensures o.response.status == 404 ==> o.response == Rejected(404, NotFoundMessage)
    ensures o.response.status == 200 <==>
              && FindById(db, raw).Found?
              && SaveSpec(db, EditedDocument(FindById(db, raw).note, body, now), now).Saved?
    ensures o.response.status == 200 ==>
              && o.db == SaveSpec(db, EditedDocument(FindById(db, raw).note, body, now), now).db
              && o.response == Succeeded(200, Some(UpdatedMessage),
                   One(View(SaveSpec(db, EditedDocument(FindById(db, raw).note, body, now), now).note)))
              && o.bumped == Some(M.Updated)
    ensures o.response.status == 500 ==>
              o.response.body.message == Some(UpdateErrorMessage) && !o.response.body.success
              && o.response.body.error.Some?
    ensures o.response.status != 200 ==> o.db == db && o.bumped.None?
  {
    match FindById(db, raw)
    case Failed(e) => Outcome(db, StoreFailure(UpdateErrorMessage, e), None)
    case Absent => Outcome(db, Rejected(404, NotFoundMessage), None)
    case Found(n) =>
      match SaveSpec(db, EditedDocument(n, body, now), now)
      case Saved(db', n') => Outcome(db', Succeeded(200, Some(UpdatedMessage), One(View(n'))), Some(M.Updated))
      case SaveFailed(e) => Outcome(db, StoreFailure(UpdateErrorMessage, e), None)
  }

  // ---------------------------------------------------------------------------
  // deleteNote
  // ---------------------------------------------------------------------------

  /** `deleteNote`: `findById` (500 when it throws, 404 when nothing is stored), the projection
      captured, `findByIdAndDelete`, then 200 with the captured projection and a bump of
      `notesDeleted`. */
  function DeleteNoteSpec(db: Db, raw: string): (o: Outcome)
    ensures o.response.status in {200, 404, 500}
    ensures o.response.status == 200 <==> FindById(db, raw).Found?
    ensures o.response.status == 200 ==>
              && o.db == RemoveNote(db, CastObjectId(raw).value)
              && o.response == Succeeded(200, Some(DeletedMessage), One(View(db.docs[CastObjectId(raw).value])))
              && o.bumped == Some(M.Deleted)
    ensures o.response.status == 404 <==> FindById(db, raw).Absent?
    ensures o.response.status == 404 ==> o.response == Rejected(404, NotFoundMessage)
    ensures o.response.status == 500 ==>
              o.response == StoreFailure(DeleteErrorMessage, FindById(db, raw).error)
    ensures o.response.status != 200 ==> o.db == db && o.bumped.None?
  {
    match FindById(db, raw)
    case Failed(e) => Outcome(db, StoreFailure(DeleteErrorMessage, e), None)
    case Absent => Outcome(db, Rejected(404, NotFoundMessage), None)
    case Found(n) =>
      var snapshot := View(n);
      match DeleteByIdSpec(db, raw)
      case Deleted(db') => Outcome(db', Succeeded(200, Some(DeletedMessage), One(snapshot)), Some(M.Deleted))
      case DeleteFailed(e) => Outcome(db, StoreFailure(DeleteErrorMessage, e), None)
  }

  // ---------------------------------------------------------------------------
  // Properties of the handlers
  // ---------------------------------------------------------------------------

  /** A created note is retrievable under the id the create response reports, with identical
      data. */
  lemma CreateThenGet(db: Db, body: NoteBody, newId: ObjectId, now: int)
    requires IsCanonicalId(newId.hex)
    requires CreateNoteSpec(db, body, newId, now).response.status == 201
    ensures var c := CreateNoteSpec(db, body, newId, now);
            && c.response.body.data.One? && c.response.body.data.view.id == newId.hex
            && GetNoteByIdSpec(c.db, newId.hex).response == Succeeded(200, None, c.response.body.data)
  {
    assert CastObjectId(newId.hex) == Some(newId);
  }

  /** After a successful delete the id is gone: getting or deleting it again gives 404. */
  lemma DeleteThenNotFound(db: Db, raw: string)
    requires DeleteNoteSpec(db, raw).response.status == 200
    ensures var after := DeleteNoteSpec(db, raw).db;
            && GetNoteByIdSpec(after, raw).response == Rejected(404, NotFoundMessage)
            && DeleteNoteSpec(after, raw).response == Rejected(404, NotFoundMessage)
  {
    var id := CastObjectId(raw).value;
    assert id !in DeleteNoteSpec(db, raw).db.docs;
  }

  /** A successful delete takes out exactly the one note and leaves every other note as it
      was, and the collection stays valid. */
  lemma DeleteTouchesOnlyItsNote(db: Db, raw: string, clock: int)
    requires DbValid(db) && StampedBy(db, clock)
    requires DeleteNoteSpec(db, raw).response.status == 200
    ensures var after := DeleteNoteSpec(db, raw).db;
            && DbValid(after) && StampedBy(after, clock)
            && after.docs.Keys == db.docs.Keys - {CastObjectId(raw).value}
            && |after.docs| == |db.docs| - 1
            && forall k :: k in after.docs ==> after.docs[k] == db.docs[k]
  {
    var id := CastObjectId(raw).value;
    RemovePreservesValid(db, id, clock);
    RemoveKeepsCount(db, id);
    assert DeleteNoteSpec(db, raw).db.docs.Keys == db.docs.Keys - {id};
  }

  /** The value a successful update stores in a path: the trimmed string supplied, or the old
      value when the field was left out. */
  function UpdatedValue(current: string, f: Field): string {
    if f.Str? then Trim(f.text) else current
  }

  /** A successful update found the note and was given no `null` field (the schema rejects
      those); it overwrites only the supplied fields, keeps the id and `createdAt`, stamps
      `updatedAt` with `now`, responds with what it stored, and leaves every other note, the
      natural order and the connection as they were. */
  lemma UpdateIsPartial(db: Db, raw: string, body: NoteBody, now: int)
    requires DbValid(db)
    requires UpdateNoteSpec(db, raw, body, now).response.status == 200
    ensures FindById(db, raw).Found? && !body.title.Null? && !body.content.Null?
    ensures var id := CastObjectId(raw).value;
            var before := db.docs[id];
            var edited := Note(id, UpdatedValue(before.title, body.title),
                               UpdatedValue(before.content, body.content), before.createdAt, now);
            var o := UpdateNoteSpec(db, raw, body, now);
            && o.db == Db(db.docs[id := edited], db.order, db.connected)
            && o.response == Succeeded(200, Some(UpdatedMessage), One(View(edited)))
  {
    var n := FindById(db, raw).note;
    var d := EditedDocument(n, body, now);
    assert body.title.Null? ==> !TitleAccepted(d.title);
    assert body.content.Null? ==> !ContentAccepted(d.content);
  }

  /** The stamp of a successful update is strictly later than the one it replaces when the
      clock has moved on since the last write. */
  lemma UpdateAdvancesUpdatedAt(db: Db, raw: string, body: NoteBody, now: int, clock: int)
    requires DbValid(db) && StampedBy(db, clock) && clock < now
    requires UpdateNoteSpec(db, raw, body, now).response.status == 200
    ensures FindById(db, raw).Found?
    ensures var id := CastObjectId(raw).value;
            var after := UpdateNoteSpec(db, raw, body, now).db;
            id in after.docs && after.docs[id].updatedAt > db.docs[id].updatedAt
            && after.docs[id].createdAt == db.docs[id].createdAt
  {
    UpdateIsPartial(db, raw, body, now);
  }

  /** An update that supplies neither field succeeds on any stored note of a valid, connected
      collection, and only re-stamps it. */
  lemma EmptyUpdateSucceeds(db: Db, raw: string, now: int)
    requires DbValid(db) && FindById(db, raw).Found?
    ensures var o := UpdateNoteSpec(db, raw, NoteBody(Undefined, Undefined), now);
            var n := FindById(db, raw).note;
            o.response == Succeeded(200, Some(UpdatedMessage), One(View(n.(updatedAt := now))))
  {
    var n := FindById(db, raw).note;
    assert WellFormedNote(n);
    var d := EditedDocument(n, NoteBody(Undefined, Undefined), now);
    assert d == DocState(n.id, Some(n.title), Some(n.content), n.createdAt, now, false);
    assert Validate(d.title, d.content) == [];
  }

  /** An update that blanks the title (an empty or all-whitespace string, or `null`) is
      refused by the schema: 500, store and counters unchanged. */
  lemma BlankTitleUpdateFails(db: Db, raw: string, body: NoteBody, now: int)
    requires FindById(db, raw).Found?
    requires body.title.Null? || (body.title.Str? && AllWhitespace(body.title.text))
    ensures var o := UpdateNoteSpec(db, raw, body, now);
            var errs := Validate(SetterValue(body.title),
                                 EditedDocument(FindById(db, raw).note, body, now).content);
            && FieldError("title", TitleRequiredMessage) in errs
            && o == Outcome(db, StoreFailure(UpdateErrorMessage, ValidationError(errs)), None)
  {
    var d := EditedDocument(FindById(db, raw).note, body, now);
    assert d.title == SetterValue(body.title) && !TitleAccepted(d.title);
    assert TitleErrors(d.title) == [FieldError("title", TitleRequiredMessage)];
  }

  /** A create whose fields pass the truthiness guard but whose document the store refuses
      answers 500 with the refusal, and changes nothing. */
  lemma CreateRefused(db: Db, body: NoteBody, newId: ObjectId, now: int)
    requires !IsFalsy(body.title) && !IsFalsy(body.content)
    requires SaveSpec(db, NewDocument(newId, body.title.text, body.content.text, now), now).SaveFailed?
    ensures CreateNoteSpec(db, body, newId, now)
            == Outcome(db, StoreFailure(CreateErrorMessage,
                 SaveSpec(db, NewDocument(newId, body.title.text, body.content.text, now), now).error), None)
  {
  }

  /** A title of only whitespace passes the handler's truthiness guard but not the schema,
      which sees the trimmed, empty title: the create fails with 500, not 400. */
  lemma BlankTitleCreateFails(db: Db, body: NoteBody, newId: ObjectId, now: int)
    requires body.title.Str? && body.title.text != [] && AllWhitespace(body.title.text)
    requires !IsFalsy(body.content)
    ensures var errs := Validate(Some([]), Some(Trim(body.content.text)));
            && FieldError("title", TitleRequiredMessage) in errs
            && CreateNoteSpec(db, body, newId, now)
               == Outcome(db, StoreFailure(CreateErrorMessage, ValidationError(errs)), None)
  {
    var t, c := body.title.text, body.content.text;
    var errs := Validate(Some([]), Some(Trim(c)));
    assert Trim(t) == [];
    assert FieldError("title", TitleRequiredMessage) in errs by {
      assert TitleErrors(Some([])) == [FieldError("title", TitleRequiredMessage)];
    }
    assert SaveSpec(db, NewDocument(newId, t, c, now), now) == SaveFailed(ValidationError(errs));
    CreateRefused(db, body, newId, now);
  }

  /** A title over 200 characters after trimming fails the create with the schema's
      length message among the validation errors. */
  lemma LongTitleCreateFails(db: Db, body: NoteBody, newId: ObjectId, now: int)
    requires body.title.Str? && |Trim(body.title.text)| > MaxTitleLength
    requires !IsFalsy(body.content)
    ensures var errs := Validate(Some(Trim(body.title.text)), Some(Trim(body.content.text)));
            && FieldError("title", TitleTooLongMessage) in errs
            && CreateNoteSpec(db, body, newId, now)
               == Outcome(db, StoreFailure(CreateErrorMessage, ValidationError(errs)), None)
  {
    var t, c := body.title.text, body.content.text;
    LongTitleRejected(t, c);
    var errs := Validate(Some(Trim(t)), Some(Trim(c)));
    assert SaveSpec(db, NewDocument(newId, t, c, now), now) == SaveFailed(ValidationError(errs));
    CreateRefused(db, body, newId, now);
  }

  /** The listing of a valid collection holds every stored note exactly once and nothing else,
      newest first between any two positions. */
  lemma ListingIsCompleteAndOrdered(db: Db)
    requires DbValid(db) && db.connected
    ensures var vs := GetAllNotesSpec(db).response.body.data.views;
            && |vs| == |db.docs|
            && (forall id :: id in db.docs ==> View(db.docs[id]) in vs)
            && (forall k :: 0 <= k < |vs| ==> exists id :: id in db.docs && vs[k] == View(db.docs[id]))
            && (forall i, j :: 0 <= i < j < |vs| ==> vs[i].createdAt >= vs[j].createdAt)
  {
    var ns := FindAll(db);
    var sorted := SortNewestFirst(ns);
    var vs := Views(sorted);
    assert vs == GetAllNotesSpec(db).response.body.data.views;
    forall id | id in db.docs ensures View(db.docs[id]) in vs {
      assert id in db.order;
      var i :| 0 <= i < |db.order| && db.order[i] == id;
      assert ns[i] == db.docs[id];
      assert db.docs[id] in multiset(sorted);
      var k :| 0 <= k < |sorted| && sorted[k] == db.docs[id];
      assert vs[k] == View(db.docs[id]);
    }
    forall k | 0 <= k < |vs| ensures exists id :: id in db.docs && vs[k] == View(db.docs[id]) {
      assert sorted[k] in multiset(ns);
      assert sorted[k] in ns;
      var id :| id in db.docs && sorted[k] == db.docs[id];
      assert vs[k] == View(db.docs[id]);
    }
    forall i, j | 0 <= i < j < |vs| ensures vs[i].createdAt >= vs[j].createdAt {
      NewestFirstOrdersAllPairs(sorted, i, j);
    }
  }

  /** An empty connected collection lists as `count: 0, data: []`. */
  lemma EmptyListing(db: Db)
    requires db.connected && db.order == []
    ensures GetAllNotesSpec(db).response == Response(200, Body(true, None, Some(0), Many([]), None))
  {
    assert FindAll(db) == [];
  }

  // ---------------------------------------------------------------------------
  // The collection invariant across handlers
  // ---------------------------------------------------------------------------

  /** A create at time `now` with a generated canonical id keeps the collection valid. */
  lemma CreatePreservesValid(db: Db, body: NoteBody, newId: ObjectId, now: int, clock: int)
    requires DbValid(db) && StampedBy(db, clock) && clock <= now && IsCanonicalId(newId.hex)
    ensures var o := CreateNoteSpec(db, body, newId, now);
            DbValid(o.db) && StampedBy(o.db, now)
  {
    if !IsFalsy(body.title) && !IsFalsy(body.content) {
      SavePreservesValid(db, NewDocument(newId, body.title.text, body.content.text, now), now, clock);
    }
  }

  /** An update at time `now` keeps the collection valid. */
  lemma UpdatePreservesValid(db: Db, raw: string, body: NoteBody, now: int, clock: int)
    requires DbValid(db) && StampedBy(db, clock) && clock <= now
    ensures var o := UpdateNoteSpec(db, raw, body, now);
            DbValid(o.db) && StampedBy(o.db, now)
  {
    var f := FindById(db, raw);
    if f.Found? {
      var n := f.note;
      assert WellFormedNote(n) && n.id == CastObjectId(raw).value && n.updatedAt <= clock;
      SavePreservesValid(db, EditedDocument(n, body, now), now, clock);
    }
  }

  /** A delete keeps the collection valid. */
  lemma DeletePreservesValid(db: Db, raw: string, clock: int)
    requires DbValid(db) && StampedBy(db, clock)
    ensures var o := DeleteNoteSpec(db, raw);
            DbValid(o.db) && StampedBy(o.db, clock)
  {
    if FindById(db, raw).Found? {
      RemovePreservesValid(db, CastObjectId(raw).value, clock);
    }
  }

  // ---------------------------------------------------------------------------
  // The create-read-update-delete lifecycle
  // ---------------------------------------------------------------------------

  /** Create, get, update of the title, delete and get again answer 201, 200, 200 (new title,
      old content), 200 (the updated snapshot) and 404. */
  lemma Lifecycle(db: Db, title: string, content: string, newTitle: string, newId: ObjectId,
                  t1: int, t2: int)
    requires DbValid(db) && StampedBy(db, t1) && db.connected
    requires IsCanonicalId(newId.hex) && newId !in db.docs
    requires TitleAccepted(Some(title)) && IsTrimmed(title)
    requires ContentAccepted(Some(content)) && IsTrimmed(content)
    requires TitleAccepted(Some(newTitle)) && IsTrimmed(newTitle)
    ensures var created := View(Note(newId, title, content, t1, t1));
            var updated := View(Note(newId, newTitle, content, t1, t2));
            var c := CreateNoteSpec(db, NoteBody(Str(title), Str(content)), newId, t1);
            var u := UpdateNoteSpec(c.db, newId.hex, NoteBody(Str(newTitle), Undefined), t2);
            var d := DeleteNoteSpec(u.db, newId.hex);
            && c.response == Succeeded(201, Some(CreatedMessage), One(created))
            && GetNoteByIdSpec(c.db, newId.hex).response == Succeeded(200, None, One(created))
            && u.response == Succeeded(200, Some(UpdatedMessage), One(updated))
            && d.response == Succeeded(200, Some(DeletedMessage), One(updated))
            && GetNoteByIdSpec(d.db, newId.hex).response == Rejected(404, NotFoundMessage)
  {
    TrimOfTrimmed(title);
    TrimOfTrimmed(content);
    TrimOfTrimmed(newTitle);
    var body := NoteBody(Str(title), Str(content));
    assert CreateAccepted(db, body, newId);
    var c := CreateNoteSpec(db, body, newId, t1);
    CreateThenGet(db, body, newId, t1);
    CreatePreservesValid(db, body, newId, t1, t1);
    assert CastObjectId(newId.hex) == Some(newId);
    var edit := NoteBody(Str(newTitle), Undefined);
    LifecycleUpdateStep(c.db, newId, newTitle, Note(newId, title, content, t1, t1), t2);
    var u := UpdateNoteSpec(c.db, newId.hex, edit, t2);
    DeleteThenNotFound(u.db, newId.hex);
  }

  /** The update step of the lifecycle: a new trimmed, accepted title on a stored note. */
  lemma LifecycleUpdateStep(db: Db, id: ObjectId, newTitle: string, n: Note, now: int)
    requires DbValid(db) && db.connected && IsCanonicalId(id.hex) && id in db.docs && db.docs[id] == n
    requires TitleAccepted(Some(newTitle)) && IsTrimmed(newTitle)
    ensures var edited := n.(title := newTitle, updatedAt := now);
            var u := UpdateNoteSpec(db, id.hex, NoteBody(Str(newTitle), Undefined), now);
            && u.response == Succeeded(200, Some(UpdatedMessage), One(View(edited)))
            && u.db.docs == db.docs[id := edited]
            && DeleteNoteSpec(u.db, id.hex).response == Succeeded(200, Some(DeletedMessage), One(View(edited)))
  {
    TrimOfTrimmed(newTitle);
    assert CastObjectId(id.hex) == Some(id);
    assert WellFormedNote(n) && n.id == id;
    var d := EditedDocument(n, NoteBody(Str(newTitle), Undefined), now);
    assert d == DocState(id, Some(newTitle), Some(n.content), n.createdAt, now, false);
    assert Validate(d.title, d.content) == [];
  }

  /** The lifecycle with the strings of the route tests, from an empty store. */
  lemma LifecycleOfTestNote(newId: ObjectId, t1: int, t2: int)
    requires IsCanonicalId(newId.hex)
    ensures var db := Db(map[], [], true);
            var c := CreateNoteSpec(db, NoteBody(Str("Lifecycle Note"), Str("Testing CRUD")), newId, t1);
            var u := UpdateNoteSpec(c.db, newId.hex, NoteBody(Str("Updated Lifecycle"), Undefined), t2);
            var d := DeleteNoteSpec(u.db, newId.hex);
            && c.response.status == 201
            && GetNoteByIdSpec(c.db, newId.hex).response.body.data
               == One(NoteView(newId.hex, "Lifecycle Note", "Testing CRUD", t1, t1))
            && u.response.status == 200
            && u.response.body.data == One(NoteView(newId.hex, "Updated Lifecycle", "Testing CRUD", t1, t2))
            && d.response.status == 200
            && GetNoteByIdSpec(d.db, newId.hex).response.status == 404
  {
    assert IsTrimmed("Lifecycle Note") && IsTrimmed("Testing CRUD") && IsTrimmed("Updated Lifecycle");
    Lifecycle(Db(map[], [], true), "Lifecycle Note", "Testing CRUD", "Updated Lifecycle", newId, t1, t2);
  }

  // ---------------------------------------------------------------------------
  // The handlers, run on the collection, the documents and the metric objects
  // ---------------------------------------------------------------------------

  /** The document `updateNote` builds in place: hydrated from the stored note, the supplied
      paths assigned through their setters, then `updatedAt` set to `now`. */
  method HydrateEdited(n: Note, body: NoteBody, now: int) returns (doc: NoteDocument)
    ensures fresh(doc) && doc.State() == EditedDocument(n, body, now)
  {
    doc := new NoteDocument.FromStored(n);
    if !body.title.Undefined? {
      doc.AssignTitle(body.title);
    }
    if !body.content.Undefined? {
      doc.AssignContent(body.content);
    }
    doc.AssignUpdatedAt(now);
  }

  /** The exported handlers with the collection and the metric objects they share. `clock` is
      a bound on every stamp in the collection: the latest `now` a handler was called with. */
  class Controller {
    const notes: NoteCollection
    const metrics: M.Metrics
    ghost var clock: int

    ghost predicate Valid()
      reads this, notes, metrics
    {
      DbValid(notes.State()) && StampedBy(notes.State(), clock) && metrics.Valid()
    }

    constructor (notes: NoteCollection, metrics: M.Metrics, clock: int)
      requires DbValid(notes.State()) && StampedBy(notes.State(), clock) && metrics.Valid()
      ensures Valid() && this.notes == notes && this.metrics == metrics && this.clock == clock
    {
      this.notes := notes;
      this.metrics := metrics;
      this.clock := clock;
    }

    /** `createNote` at time `now`, where the driver generates `newId`. */
    method CreateNote(body: NoteBody, newId: ObjectId, now: int) returns (resp: Response)
      requires Valid() && clock <= now && IsCanonicalId(newId.hex)
      modifies this, notes, metrics
      ensures Valid() && clock == now && metrics.gaugeEvents == old(metrics.gaugeEvents)
      ensures var o := CreateNoteSpec(old(notes.State()), body, newId, now);
              && resp == o.response && notes.State() == o.db
              && metrics.Read() == old(metrics.Read()).(notes := M.BumpIf(old(metrics.Counters()), o.bumped))
    {
      ghost var db0 := notes.State();
      CreatePreservesValid(db0, body, newId, now, clock);
      clock := now;
      if IsFalsy(body.title) || IsFalsy(body.content) {
        return Rejected(400, RequiredMessage);
      }
      var doc := new NoteDocument(newId, body.title.text, body.content.text, now);
      var err := notes.Save(doc, now);
      match err
      case Some(e) =>
        resp := StoreFailure(CreateErrorMessage, e);
      case None =>
        metrics.IncNote(M.Created);
        var note := Note(doc.id, doc.title.value, doc.content.value, doc.createdAt, doc.updatedAt);
        resp := Succeeded(201, Some(CreatedMessage), One(View(note)));
    }

    /** `getAllNotes`. */
    method GetAllNotes() returns (resp: Response)
      requires Valid()
      modifies metrics
      ensures Valid() && metrics.gaugeEvents == old(metrics.gaugeEvents)
      ensures var o := GetAllNotesSpec(notes.State());
              && resp == o.response
              && metrics.Read() == old(metrics.Read()).(notes := M.BumpIf(old(metrics.Counters()), o.bumped))
    {
      if !notes.connected {
        return StoreFailure(ListErrorMessage, Disconnected);
      }
      var found := SortNewestFirst(FindAll(notes.State()));
      metrics.IncNote(M.Retrieved);
      resp := Response(200, Body(true, None, Some(|found|), Many(Views(found)), None));
    }

    /** `getNoteById` with the `:id` path parameter `raw`. */
    method GetNoteById(raw: string) returns (resp: Response)
      requires Valid()
      modifies metrics
      ensures Valid() && metrics.gaugeEvents == old(metrics.gaugeEvents)
      ensures var o := GetNoteByIdSpec(notes.State(), raw);
              && resp == o.response
              && metrics.Read() == old(metrics.Read()).(notes := M.BumpIf(old(metrics.Counters()), o.bumped))
    {
      var found := FindById(notes.State(), raw);
      match found
      case Failed(e) =>
        resp := StoreFailure(GetErrorMessage, e);
      case Absent =>
        resp := Rejected(404, NotFoundMessage);
      case Found(n) =>
        metrics.IncNote(M.Retrieved);
        resp := Succeeded(200, None, One(View(n)));
    }

    /** `updateNote` at time `now`: the document is hydrated, its supplied paths and
        `updatedAt` are assigned in place, and it is saved. */
    method UpdateNote(raw: string, body: NoteBody, now: int) returns (resp: Response)
      requires Valid() && clock <= now
      modifies this, notes, metrics
      ensures Valid() && clock == now && metrics.gaugeEvents == old(metrics.gaugeEvents)
      ensures var o := UpdateNoteSpec(old(notes.State()), raw, body, now);
              && resp == o.response && notes.State() == o.db
              && metrics.Read() == old(metrics.Read()).(notes := M.BumpIf(old(metrics.Counters()), o.bumped))
    {
      ghost var db0 := notes.State();
      UpdatePreservesValid(db0, raw, body, now, clock);
      clock := now;
      var found := FindById(notes.State(), raw);
      if found.Failed? {
        return StoreFailure(UpdateErrorMessage, found.error);
      } else if found.Absent? {
        return Rejected(404, NotFoundMessage);
      }
      var n := found.note;
      var doc := HydrateEdited(n, body, now);
      var err := notes.Save(doc, now);
      match err
      case Some(e) =>
        resp := StoreFailure(UpdateErrorMessage, e);
      case None =>
        metrics.IncNote(M.Updated);
        var note := Note(doc.id, doc.title.value, doc.content.value, doc.createdAt, doc.updatedAt);
        resp := Succeeded(200, Some(UpdatedMessage), One(View(note)));
    }

    /** `deleteNote`: the projection is captured before `findByIdAndDelete` runs. */
    method DeleteNote(raw: string) returns (resp: Response)
      requires Valid()
      modifies notes, metrics
      ensures Valid() && metrics.gaugeEvents == old(metrics.gaugeEvents)
      ensures var o := DeleteNoteSpec(old(notes.State()), raw);
              && resp == o.response && notes.State() == o.db
              && metrics.Read() == old(metrics.Read()).(notes := M.BumpIf(old(metrics.Counters()), o.bumped))
    {
      ghost var db0 := notes.State();
      DeletePreservesValid(db0, raw, clock);
      var found := FindById(notes.State(), raw);
      match found
      case Failed(e) =>
        resp := StoreFailure(DeleteErrorMessage, e);
      case Absent =>
        resp := Rejected(404, NotFoundMessage);
      case Found(n) =>
        var snapshot := View(n);
        var err := notes.FindByIdAndDelete(raw);
        match err
        case Some(e) =>
          resp := StoreFailure(DeleteErrorMessage, e);
        case None =>
          metrics.IncNote(M.Deleted);
          resp := Succeeded(200, Some(DeletedMessage), One(snapshot));
    }
  }
}
