/** The document store behind the `Note` model, reduced to what the controller relies on:
    `findById`, `find().sort({createdAt: -1})`, `save` and `findByIdAndDelete`, over an in-memory
    collection. The pure functions over `Db` specify each operation; `NoteCollection` is the
    collection object those operations update in place. */
module NoteStore {
  import opened Wrappers
  import opened NoteModel

  /** Why a store call threw: the handlers' catch branches turn every one of these into 500. */
  datatype StoreError =
    | CastError(value: string)                 // the id parameter is not an ObjectId
    | ValidationError(errors: seq<FieldError>) // the schema rejected the document
    | DuplicateKey(id: ObjectId)               // an insert reused an existing _id
    | DocumentNotFound(id: ObjectId)           // a save of a document that is no longer stored
    | Disconnected                             // no connection to the database

  /** The collection: notes by id, the ids in natural (insertion) order, and whether the
      driver is connected. */
  datatype Db = Db(docs: map<ObjectId, Note>, order: seq<ObjectId>, connected: bool)

  predicate Distinct(s: seq<ObjectId>) {
    forall i, j :: 0 <= i < j < |s| ==> s[i] != s[j]
  }

  /** The natural order lists every stored id exactly once. */
  predicate Indexed(db: Db) {
    && Distinct(db.order)
    && |db.order| == |db.docs|
    && (forall i :: 0 <= i < |db.order| ==> db.order[i] in db.docs)
    && (forall id :: id in db.docs ==> id in db.order)
  }

  /** Every note is stored under its own id and is one the schema accepts. */
  predicate NotesValid(docs: map<ObjectId, Note>) {
    forall id :: id in docs ==> docs[id].id == id && WellFormedNote(docs[id])
  }

  /** The collection invariant. */
  predicate DbValid(db: Db) {
    Indexed(db) && NotesValid(db.docs)
  }

  /** No stored note was stamped after `clock`. */
  predicate StampedBy(db: Db, clock: int) {
    forall id :: id in db.docs ==> db.docs[id].updatedAt <= clock
  }

  // ---------------------------------------------------------------------------
  // Queries
  // ---------------------------------------------------------------------------

  datatype Lookup = Found(note: Note) | Absent | Failed(error: StoreError)

  /** `Note.findById(raw)`: a malformed id throws a cast error and a disconnected store throws;
      otherwise the note stored under the cast id, or nothing. */
  function FindById(db: Db, raw: string): (r: Lookup)
    ensures r.Failed? <==> !IsWellFormedId(raw) || !db.connected
    ensures r.Failed? && !IsWellFormedId(raw) ==> r.error == CastError(raw)
    ensures r.Absent? <==> IsWellFormedId(raw) && db.connected && CastObjectId(raw).value !in db.docs
    ensures r.Found? ==> CastObjectId(raw).Some? && CastObjectId(raw).value in db.docs
                         && r.note == db.docs[CastObjectId(raw).value]
  {
    match CastObjectId(raw)
    case None => Failed(CastError(raw))
    case Some(id) =>
      if !db.connected then Failed(Disconnected)
      else if id in db.docs then Found(db.docs[id])
      else Absent
  }

  /** The notes stored under `ids`, in the order of `ids`; ids with no note are skipped. */
  function NotesIn(docs: map<ObjectId, Note>, ids: seq<ObjectId>): (r: seq<Note>)
    ensures |r| <= |ids|
    ensures forall n :: n in r ==> exists id :: id in docs && n == docs[id]
    ensures (forall i :: 0 <= i < |ids| ==> ids[i] in docs) ==>
              |r| == |ids| && forall i :: 0 <= i < |ids| ==> r[i] == docs[ids[i]]
  {
    if ids == [] then []
    else
      var rest := NotesIn(docs, ids[1..]);
      (if ids[0] in docs then [docs[ids[0]]] else []) + rest
  }

  /** `Note.find()`: every stored note, in natural order. */
  function FindAll(db: Db): seq<Note> {
    NotesIn(db.docs, db.order)
  }

  /** Each note is at least as new as the one after it. */
  predicate NewestFirst(s: seq<Note>) {
    forall i :: 0 <= i < |s| - 1 ==> s[i].createdAt >= s[i + 1].createdAt
  }

  /** Inserts `n` into a newest-first sequence, ahead of the notes no newer than it. */
  function InsertNewestFirst(n: Note, s: seq<Note>): (r: seq<Note>)
    requires NewestFirst(s)
    ensures NewestFirst(r)
    ensures multiset(r) == multiset(s) + multiset{n}
    ensures |r| == |s| + 1
    ensures r[0] == n || (s != [] && r[0] == s[0])
  {
    if s == [] || s[0].createdAt <= n.createdAt then
      [n] + s
    else
      var rest := InsertNewestFirst(n, s[1..]);
      assert s == [s[0]] + s[1..];
      [s[0]] + rest
  }

  /** `.sort({createdAt: -1})`: a newest-first permutation of `s`; notes with equal
      `createdAt` keep their natural order. */
  function SortNewestFirst(s: seq<Note>): (r: seq<Note>)
    ensures NewestFirst(r)
    ensures multiset(r) == multiset(s)
    ensures |r| == |s|
  {
    if s == [] then []
    else
      assert s == [s[0]] + s[1..];
      InsertNewestFirst(s[0], SortNewestFirst(s[1..]))
  }

  /** Newest-first between neighbours is newest-first between any two positions. */
  lemma {:induction false} NewestFirstOrdersAllPairs(s: seq<Note>, i: int, j: int)
    requires NewestFirst(s)
    requires 0 <= i <= j < |s|
    ensures s[i].createdAt >= s[j].createdAt
    decreases j - i
  {
    if i < j {
      NewestFirstOrdersAllPairs(s, i + 1, j);
    }
  }

  // ---------------------------------------------------------------------------
  // Updates
  // ---------------------------------------------------------------------------

  /** A new note, placed last in natural order. */
  function InsertNote(db: Db, n: Note): Db {
    db.(docs := db.docs[n.id := n], order := db.order + [n.id])
  }

  /** A stored note overwritten in place. */
  function ReplaceNote(db: Db, n: Note): Db {
    db.(docs := db.docs[n.id := n])
  }

  /** `s` without `id`, the other ids in the same order. */
  function RemoveId(s: seq<ObjectId>, id: ObjectId): (r: seq<ObjectId>)
    ensures forall x :: x in r <==> x in s && x != id
    ensures Distinct(s) ==> Distinct(r)
    ensures id !in s ==> r == s
    ensures Distinct(s) && id in s ==> |r| == |s| - 1
  {
    if s == [] then []
    else if s[0] == id then RemoveId(s[1..], id)
    else
      var rest := RemoveId(s[1..], id);
      assert Distinct(s) ==> s[0] !in s[1..];
      [s[0]] + rest
  }

  /** A note removed, from the map and from the natural order. */
  function RemoveNote(db: Db, id: ObjectId): Db {
    db.(docs := db.docs - {id}, order := RemoveId(db.order, id))
  }

  datatype SaveResult = Saved(db: Db, note: Note) | SaveFailed(error: StoreError)

  /** `doc.save()`: schema validation first; then the pre-save hook stamps `updatedAt := now`;
      then the write: an insert for a new document (refused if the id is taken) or an overwrite
      of the stored note (refused if it is gone). A disconnected store refuses the write. */
  function SaveSpec(db: Db, d: DocState, now: int): (r: SaveResult)
    ensures r.Saved? <==>
              && Validate(d.title, d.content) == [] && db.connected
              && (if d.isNew then d.id !in db.docs else d.id in db.docs)
    ensures Validate(d.title, d.content) != [] ==>
              r == SaveFailed(ValidationError(Validate(d.title, d.content)))
    ensures r.Saved? ==> r.note == Note(d.id, d.title.value, d.content.value, d.createdAt, now)
    ensures r.Saved? ==> r.db == if d.isNew then InsertNote(db, r.note) else ReplaceNote(db, r.note)
  {
    var errs := Validate(d.title, d.content);
    if errs != [] then SaveFailed(ValidationError(errs))
    else if !db.connected then SaveFailed(Disconnected)
    else
      var n := Note(d.id, d.title.value, d.content.value, d.createdAt, now);
      if d.isNew then
        if d.id in db.docs then SaveFailed(DuplicateKey(d.id)) else Saved(InsertNote(db, n), n)
      else
        if d.id in db.docs then Saved(ReplaceNote(db, n), n) else SaveFailed(DocumentNotFound(d.id))
  }

  datatype DeleteResult = Deleted(db: Db) | DeleteFailed(error: StoreError)

  /** `Note.findByIdAndDelete(raw)`: casts and needs a connection like `findById`; removing an
      id that is not stored changes nothing. */
  function DeleteByIdSpec(db: Db, raw: string): (r: DeleteResult)
    ensures r.Deleted? <==> IsWellFormedId(raw) && db.connected
    ensures r.Deleted? ==> r.db == RemoveNote(db, CastObjectId(raw).value)
  {
    match CastObjectId(raw)
    case None => DeleteFailed(CastError(raw))
    case Some(id) => if !db.connected then DeleteFailed(Disconnected) else Deleted(RemoveNote(db, id))
  }

  // ---------------------------------------------------------------------------
  // The collection invariant is kept by every write
  // ---------------------------------------------------------------------------

  /** A document whose paths went through the trim setter and whose clock never ran back. */
  predicate SetterShaped(d: DocState, now: int) {
    && IsCanonicalId(d.id.hex)
    && (d.title.Some? ==> IsTrimmed(d.title.value))
    && (d.content.Some? ==> IsTrimmed(d.content.value))
    && d.createdAt <= now
  }

  /** A successful save keeps the collection valid and stamps its note no later than `now`. */
  lemma SavePreservesValid(db: Db, d: DocState, now: int, clock: int)
    requires DbValid(db) && StampedBy(db, clock) && clock <= now
    requires SetterShaped(d, now)
    ensures SaveSpec(db, d, now).Saved? ==>
              DbValid(SaveSpec(db, d, now).db) && StampedBy(SaveSpec(db, d, now).db, now)
  {
    var r := SaveSpec(db, d, now);
    if r.Saved? {
      assert WellFormedNote(r.note);
      if d.isNew {
        InsertPreservesValid(db, r.note, now);
      } else {
        ReplacePreservesValid(db, r.note, now);
      }
    }
  }

  /** Inserting a well-formed note under a fresh id keeps the collection valid. */
  lemma InsertPreservesValid(db: Db, n: Note, now: int)
    requires DbValid(db) && StampedBy(db, now)
    requires WellFormedNote(n) && n.id !in db.docs && n.updatedAt <= now
    ensures DbValid(InsertNote(db, n)) && StampedBy(InsertNote(db, n), now)
  {
    InsertKeepsIndexed(db, n.id, n);
    PutKeepsNotesValid(db, n, now);
  }

  /** Appending a fresh id along with its note keeps the order an index of the map. */
  lemma InsertKeepsIndexed(db: Db, id: ObjectId, n: Note)
    requires Indexed(db) && id !in db.docs
    ensures Indexed(db.(docs := db.docs[id := n], order := db.order + [id]))
  {
    var o := db.order + [id];
    assert id !in db.order;
    forall i, j | 0 <= i < j < |o| ensures o[i] != o[j] {
      if j == |o| - 1 {
        assert o[i] == db.order[i];
      }
    }
  }

  /** Overwriting a stored note with a well-formed one under the same id keeps it valid. */
  lemma ReplacePreservesValid(db: Db, n: Note, now: int)
    requires DbValid(db) && StampedBy(db, now)
    requires WellFormedNote(n) && n.id in db.docs && n.updatedAt <= now
    ensures DbValid(ReplaceNote(db, n)) && StampedBy(ReplaceNote(db, n), now)
  {
    ReplaceKeepsIndexed(db, n);
    PutKeepsNotesValid(db, n, now);
  }

  /** Overwriting the note of a stored id keeps the order an index of the map. */
  lemma ReplaceKeepsIndexed(db: Db, n: Note)
    requires Indexed(db) && n.id in db.docs
    ensures Indexed(ReplaceNote(db, n))
  {
    assert db.docs[n.id := n].Keys == db.docs.Keys;
  }

  /** Storing a well-formed note under its own id, stamped no later than `now`, keeps every
      note valid and stamped by `now`. */
  lemma PutKeepsNotesValid(db: Db, n: Note, now: int)
    requires NotesValid(db.docs) && StampedBy(db, now)
    requires WellFormedNote(n) && n.updatedAt <= now
    ensures NotesValid(db.docs[n.id := n]) && StampedBy(db.(docs := db.docs[n.id := n]), now)
  {
    var docs := db.docs[n.id := n];
    forall id | id in docs ensures docs[id].id == id && WellFormedNote(docs[id]) && docs[id].updatedAt <= now {
      if id != n.id {
        assert docs[id] == db.docs[id];
      }
    }
  }

  /** Removing a note keeps the collection valid and leaves every other note as it was. */
  lemma RemovePreservesValid(db: Db, id: ObjectId, clock: int)
    requires DbValid(db) && StampedBy(db, clock)
    ensures DbValid(RemoveNote(db, id)) && StampedBy(RemoveNote(db, id), clock)
    ensures id !in RemoveNote(db, id).docs
    ensures forall k :: k in db.docs && k != id ==>
                          k in RemoveNote(db, id).docs && RemoveNote(db, id).docs[k] == db.docs[k]
  {
    RemoveKeepsIndexed(db, id);
    var docs := db.docs - {id};
    forall k | k in docs ensures docs[k] == db.docs[k] {
    }
  }

  /** Removing an id from both the map and the order keeps the order an index of the map. */
  lemma RemoveKeepsIndexed(db: Db, id: ObjectId)
    requires Indexed(db)
    ensures Indexed(RemoveNote(db, id))
  {
    RemoveKeepsCount(db, id);
    var r := RemoveNote(db, id);
    forall i | 0 <= i < |r.order| ensures r.order[i] in r.docs {
      assert r.order[i] in r.order;
    }
  }

  /** Removal takes one id out of the natural order exactly when it takes one note out. */
  lemma RemoveKeepsCount(db: Db, id: ObjectId)
    requires Indexed(db)
    ensures |RemoveNote(db, id).order| == |RemoveNote(db, id).docs|
  {
    var docs := db.docs - {id};
    if id in db.docs {
      assert id in db.order;
      assert docs.Keys == db.docs.Keys - {id};
    } else {
      assert id !in db.order;
      assert docs == db.docs;
    }
  }

  // ---------------------------------------------------------------------------
  // The collection object
  // ---------------------------------------------------------------------------

  class NoteCollection {
    var docs: map<ObjectId, Note>
    var order: seq<ObjectId>
    var connected: bool

    function State(): Db
      reads this
    {
      Db(docs, order, connected)
    }

    constructor (connected: bool)
      ensures State() == Db(map[], [], connected)
    {
      docs := map[];
      order := [];
      this.connected := connected;
    }

    /** The driver's `disconnected` / `reconnected` events. */
    method SetConnected(b: bool)
      modifies this
      ensures State() == old(State()).(connected := b)
    {
      connected := b;
    }

    /** `doc.save()`, carried out step by step on the document and the collection. */
    method Save(doc: NoteDocument, now: int) returns (err: Option<StoreError>)
      modifies this, doc
      ensures match SaveSpec(old(State()), old(doc.State()), now)
              case Saved(db, n) =>
                && err.None? && State() == db
                && doc.State() == old(doc.State()).(updatedAt := now, isNew := false)
              case SaveFailed(e) =>
                && err == Some(e) && State() == old(State())
                && doc.State() == if e.ValidationError? then old(doc.State())
                                  else old(doc.State()).(updatedAt := now)
    {
      var errs := Validate(doc.title, doc.content);
      if errs != [] {
        return Some(ValidationError(errs));
      }
      doc.PreSaveHook(now);
      if !connected {
        return Some(Disconnected);
      }
      var n := Note(doc.id, doc.title.value, doc.content.value, doc.createdAt, doc.updatedAt);
      if doc.isNew {
        if n.id in docs {
          return Some(DuplicateKey(n.id));
        }
        docs := docs[n.id := n];
        order := order + [n.id];
        doc.MarkPersisted();
      } else {
        if n.id !in docs {
          return Some(DocumentNotFound(n.id));
        }
        docs := docs[n.id := n];
      }
      err := None;
    }

    /** `Note.findByIdAndDelete(raw)`. */
    method FindByIdAndDelete(raw: string) returns (err: Option<StoreError>)
      modifies this
      ensures match DeleteByIdSpec(old(State()), raw)
              case Deleted(db) => err.None? && State() == db
              case DeleteFailed(e) => err == Some(e) && State() == old(State())
    {
      var id := CastObjectId(raw);
      if id.None? {
        return Some(CastError(raw));
      }
      if !connected {
        return Some(Disconnected);
      }
      docs := docs - {id.value};
      order := RemoveId(order, id.value);
      err := None;
    }
  }
}
