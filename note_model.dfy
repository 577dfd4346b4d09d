/** The note document schema (server/models/Note.js): the field rules `required`, `trim` and
    `maxLength: 200`, the timestamp defaults, the `pre('save')` hook, and the ObjectId type the
    store keys documents by. */
module NoteModel {
  import opened Wrappers

  const MaxTitleLength: nat := 200
  const TitleRequiredMessage: string := "Please enter note title"
  const ContentRequiredMessage: string := "Please enter note content"
  const TitleTooLongMessage: string := "Note title cannot exceed 200 characters"

  // ---------------------------------------------------------------------------
  // The `trim: true` option: JavaScript's String.prototype.trim
  // ---------------------------------------------------------------------------

  /** The code points `trim` removes: ECMAScript WhiteSpace and LineTerminator. */
  predicate IsWhitespace(c: char) {
    c == '\t' || c == '\n' || c == '\U{B}' || c == '\U{C}' || c == '\r' || c == ' '
    || c == '\U{A0}' || c == '\U{1680}' || ('\U{2000}' <= c <= '\U{200A}')
    || c == '\U{2028}' || c == '\U{2029}' || c == '\U{202F}' || c == '\U{205F}'
    || c == '\U{3000}' || c == '\U{FEFF}'
  }

  predicate AllWhitespace(s: string) {
    forall i :: 0 <= i < |s| ==> IsWhitespace(s[i])
  }

  /** Neither end of `s` is whitespace. */
  predicate IsTrimmed(s: string) {
    s == [] || (!IsWhitespace(s[0]) && !IsWhitespace(s[|s| - 1]))
  }

  /** Drops leading whitespace. */
  function TrimStart(s: string): string {
    if s != [] && IsWhitespace(s[0]) then TrimStart(s[1..]) else s
  }

  /** Drops trailing whitespace. */
  function TrimEnd(s: string): string {
    if s != [] && IsWhitespace(s[|s| - 1]) then TrimEnd(s[..|s| - 1]) else s
  }

  /** `TrimStart` leaves a suffix of `s` that does not start with whitespace, and what it
      dropped is whitespace. */
  lemma {:induction false} TrimStartDropsLeadingWhitespace(s: string)
    ensures var r := TrimStart(s);
            && |r| <= |s| && r == s[|s| - |r|..] && AllWhitespace(s[..|s| - |r|])
            && (r == [] || !IsWhitespace(r[0]))
    decreases |s|
  {
    if s != [] && IsWhitespace(s[0]) {
      TrimStartDropsLeadingWhitespace(s[1..]);
      var r := TrimStart(s[1..]);
      assert s[..|s| - |r|] == [s[0]] + s[1..][..|s| - 1 - |r|];
    }
  }

  /** `TrimEnd` leaves a prefix of `s` that does not end with whitespace, and what it dropped
      is whitespace. */
  lemma {:induction false} TrimEndDropsTrailingWhitespace(s: string)
    ensures var r := TrimEnd(s);
            && |r| <= |s| && r == s[..|r|] && AllWhitespace(s[|r|..])
            && (r == [] || !IsWhitespace(r[|r| - 1]))
    decreases |s|
  {
    if s != [] && IsWhitespace(s[|s| - 1]) {
      TrimEndDropsTrailingWhitespace(s[..|s| - 1]);
      var r := TrimEnd(s[..|s| - 1]);
      assert s[|r|..] == s[..|s| - 1][|r|..] + [s[|s| - 1]];
    }
  }

  /** `r` is `s` with some whitespace cut from its start and some from its end. */
  predicate CutsEdgeWhitespace(s: string, r: string) {
    exists k :: 0 <= k <= |s| - |r| && r == s[k..k + |r|]
                && AllWhitespace(s[..k]) && AllWhitespace(s[k + |r|..])
  }

  /** `s.trim()`: whitespace cut from both ends of `s` until neither end is whitespace; empty
      exactly when `s` is all whitespace. */
  function Trim(s: string): (r: string)
    ensures IsTrimmed(r)
    ensures r == [] <==> AllWhitespace(s)
    ensures |r| <= |s|
  {
    TrimStartDropsLeadingWhitespace(s);
    TrimEndDropsTrailingWhitespace(TrimStart(s));
    TrimParts(s, TrimStart(s), TrimEnd(TrimStart(s)));
    TrimEnd(TrimStart(s))
  }

  /** What `trim` removes is whitespace, from the two ends only. */
  lemma TrimCutsEdgeWhitespace(s: string)
    ensures CutsEdgeWhitespace(s, Trim(s))
  {
    TrimStartDropsLeadingWhitespace(s);
    TrimEndDropsTrailingWhitespace(TrimStart(s));
    TrimParts(s, TrimStart(s), TrimEnd(TrimStart(s)));
  }

  /** The three parts, stated over the two halves' results. */
  lemma TrimParts(s: string, t: string, r: string)
    requires |t| <= |s| && t == s[|s| - |t|..] && AllWhitespace(s[..|s| - |t|])
    requires t == [] || !IsWhitespace(t[0])
    requires |r| <= |t| && r == t[..|r|] && AllWhitespace(t[|r|..])
    requires r == [] || !IsWhitespace(r[|r| - 1])
    ensures IsTrimmed(r)
    ensures r == [] <==> AllWhitespace(s)
    ensures CutsEdgeWhitespace(s, r)
  {
    var k := |s| - |t|;
    assert r == s[k..k + |r|];
    assert s[k + |r|..] == t[|r|..];
    if r == [] {
      assert s[..k] == s;
    } else {
      assert r[0] == t[0] == s[k];
    }
  }

  /** Trimming a trimmed string changes nothing, so setting a stored value again keeps it. */
  lemma TrimOfTrimmed(s: string)
    requires IsTrimmed(s)
    ensures Trim(s) == s
  {
    if s != [] {
      assert TrimStart(s) == s;
      assert TrimEnd(s) == s;
    }
  }

  // ---------------------------------------------------------------------------
  // Document identifiers
  // ---------------------------------------------------------------------------

  const ObjectIdLength: nat := 24

  predicate IsHexDigit(c: char) {
    ('0' <= c <= '9') || ('a' <= c <= 'f') || ('A' <= c <= 'F')
  }

  predicate IsLowerHexDigit(c: char) {
    ('0' <= c <= '9') || ('a' <= c <= 'f')
  }

  /** A string the driver can cast to an ObjectId: 24 hexadecimal digits, either case. */
  predicate IsWellFormedId(s: string) {
    |s| == ObjectIdLength && forall i :: 0 <= i < |s| ==> IsHexDigit(s[i])
  }

  /** The hexadecimal form of an ObjectId as it is serialised: 24 lower-case digits. */
  predicate IsCanonicalId(s: string) {
    |s| == ObjectIdLength && forall i :: 0 <= i < |s| ==> IsLowerHexDigit(s[i])
  }

  function LowerHex(c: char): (d: char)
    requires IsHexDigit(c)
    ensures IsLowerHexDigit(d)
    ensures IsLowerHexDigit(c) ==> d == c
    ensures ('A' <= c <= 'F') ==> d as int == c as int + 32
  {
    if 'A' <= c <= 'F' then (c as int - 'A' as int + 'a' as int) as char else c
  }

  /** An ObjectId, held as its canonical hexadecimal string. */
  datatype ObjectId = ObjectId(hex: string)

  /** Casting a path parameter to an ObjectId, as `findById` does before it queries: well-formed
      strings succeed (case does not matter), everything else fails; a canonical string casts
      to itself, so every serialised id can be looked up again. */
  function CastObjectId(s: string): (r: Option<ObjectId>)
    ensures r.Some? <==> IsWellFormedId(s)
    ensures r.Some? ==> IsCanonicalId(r.value.hex) && |r.value.hex| == |s|
    ensures r.Some? ==> forall i :: 0 <= i < |s| ==> r.value.hex[i] == LowerHex(s[i])
    ensures IsCanonicalId(s) ==> r == Some(ObjectId(s))
  {
    if IsWellFormedId(s) then
      var hex := seq(|s|, i requires 0 <= i < |s| => LowerHex(s[i]));
      assert IsCanonicalId(s) ==> hex == s;
      Some(ObjectId(hex))
    else
      None
  }

  // ---------------------------------------------------------------------------
  // Field values and validation
  // ---------------------------------------------------------------------------

  /** A property of a JSON request body: absent, `null`, or a string. */
  datatype Field = Undefined | Null | Str(text: string)

  /** JavaScript falsiness of a body property: missing, `null` or the empty string. */
  predicate IsFalsy(f: Field) {
    f.Undefined? || f.Null? || f == Str("")
  }

  /** The value a string path holds after `doc.path = f`: the trim setter trims a string;
      `null` and `undefined` leave the path without a value. */
  function SetterValue(f: Field): Option<string> {
    if f.Str? then Some(Trim(f.text)) else None
  }

  /** One entry of a ValidationError: the failing path and the schema's message for it. */
  datatype FieldError = FieldError(path: string, message: string)

  predicate TitleAccepted(title: Option<string>) {
    title.Some? && 0 < |title.value| <= MaxTitleLength
  }

  predicate ContentAccepted(content: Option<string>) {
    content.Some? && 0 < |content.value|
  }

  /** `required` then `maxLength` on `title`: one error at most. */
  function TitleErrors(title: Option<string>): seq<FieldError> {
    if title.None? || title.value == "" then [FieldError("title", TitleRequiredMessage)]
    else if |title.value| > MaxTitleLength then [FieldError("title", TitleTooLongMessage)]
    else []
  }

  /** `required` on `content`; content has no length limit. */
  function ContentErrors(content: Option<string>): seq<FieldError> {
    if content.None? || content.value == "" then [FieldError("content", ContentRequiredMessage)]
    else []
  }

  /** Schema validation of a document's (already trimmed) values: no error exactly when the
      title is present, non-empty and at most 200 characters and the content is present and
      non-empty; an error names each failing path once, in schema order. */
  function Validate(title: Option<string>, content: Option<string>): (errs: seq<FieldError>)
    ensures errs == [] <==> TitleAccepted(title) && ContentAccepted(content)
    ensures (exists e :: e in errs && e.path == "title") <==> !TitleAccepted(title)
    ensures (exists e :: e in errs && e.path == "content") <==> !ContentAccepted(content)
    ensures |errs| <= 2
    ensures title.Some? && |title.value| > MaxTitleLength
            ==> FieldError("title", TitleTooLongMessage) in errs
  {
    var r := TitleErrors(title) + ContentErrors(content);
    assert !TitleAccepted(title) ==> r[0].path == "title";
    assert !ContentAccepted(content) ==> r[|r| - 1].path == "content";
    r
  }

  /** A string whose trimmed form is over the limit is not blank, and its trimmed form fails
      validation with the length message. */
  lemma LongTitleRejected(title: string, content: string)
    requires |Trim(title)| > MaxTitleLength
    ensures title != []
    ensures FieldError("title", TitleTooLongMessage) in Validate(Some(Trim(title)), Some(Trim(content)))
  {
    assert title == [] ==> AllWhitespace(title);
  }

  // ---------------------------------------------------------------------------
  // Stored notes and documents
  // ---------------------------------------------------------------------------

  /** A persisted note. Timestamps are milliseconds, as `Date.now()` returns them. */
  datatype Note = Note(id: ObjectId, title: string, content: string, createdAt: int, updatedAt: int)

  /** What the schema guarantees of every note it lets into the store. */
  predicate WellFormedNote(n: Note) {
    && IsCanonicalId(n.id.hex)
    && TitleAccepted(Some(n.title)) && IsTrimmed(n.title)
    && ContentAccepted(Some(n.content)) && IsTrimmed(n.content)
    && n.createdAt <= n.updatedAt
  }

  /** The values of a document object: its paths, which may be unset, and whether it is new. */
  datatype DocState = DocState(id: ObjectId, title: Option<string>, content: Option<string>,
                               createdAt: int, updatedAt: int, isNew: bool)

  /** `new Note({title, content})` at time `now`: trimmed strings, both timestamps defaulted. */
  function NewDocument(id: ObjectId, title: string, content: string, now: int): DocState {
    DocState(id, Some(Trim(title)), Some(Trim(content)), now, now, true)
  }

  /** The document `findById` hydrates from a stored note. */
  function StoredDocument(n: Note): DocState {
    DocState(n.id, Some(n.title), Some(n.content), n.createdAt, n.updatedAt, false)
  }

  /** A mongoose document: the controller assigns its paths in place and then saves it. */
  class NoteDocument {
    const id: ObjectId
    var title: Option<string>
    var content: Option<string>
    var createdAt: int
    var updatedAt: int
    var isNew: bool

    function State(): DocState
      reads this
    {
      DocState(id, title, content, createdAt, updatedAt, isNew)
    }

    constructor (id: ObjectId, title: string, content: string, now: int)
      ensures State() == NewDocument(id, title, content, now)
    {
      this.id := id;
      this.title := Some(Trim(title));
      this.content := Some(Trim(content));
      this.createdAt := now;
      this.updatedAt := now;
      this.isNew := true;
    }

    constructor FromStored(n: Note)
      ensures State() == StoredDocument(n)
    {
      this.id := n.id;
      this.title := Some(n.title);
      this.content := Some(n.content);
      this.createdAt := n.createdAt;
      this.updatedAt := n.updatedAt;
      this.isNew := false;
    }

    /** `doc.title = f`, through the trim setter. */
    method AssignTitle(f: Field)
      modifies this`title
      ensures State() == old(State()).(title := SetterValue(f))
    {
      title := SetterValue(f);
    }

    /** `doc.content = f`, through the trim setter. */
    method AssignContent(f: Field)
      modifies this`content
      ensures State() == old(State()).(content := SetterValue(f))
    {
      content := SetterValue(f);
    }

    /** `doc.updatedAt = t`. */
    method AssignUpdatedAt(t: int)
      modifies this`updatedAt
      ensures State() == old(State()).(updatedAt := t)
    {
      updatedAt := t;
    }

    /** The schema's `pre('save')` hook: re-stamps `updatedAt` with the current time and
        leaves every other path, `createdAt` included, as it was. */
    method PreSaveHook(now: int)
      modifies this`updatedAt
      ensures State() == old(State()).(updatedAt := now)
    {
      updatedAt := now;
    }

    /** `isNew` turns false once the document has been inserted. */
    method MarkPersisted()
      modifies this`isNew
      ensures State() == old(State()).(isNew := false)
    {
      isNew := false;
    }
  }
}
