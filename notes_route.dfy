/** The router of server/routes/notesRoute.js: five (verb, path pattern) bindings tried in the
    order they were registered, the `:id` segment captured as the request's `id` parameter.
    Paths are the part of the request path below the router's mount point. */
module NotesRoute {
  import opened Wrappers

  datatype HttpMethod = GET | HEAD | POST | PUT | DELETE | PATCH | OPTIONS

  /** The verb as `req.method` spells it. */
  function MethodName(m: HttpMethod): string {
    match m
    case GET => "GET"
    case HEAD => "HEAD"
    case POST => "POST"
    case PUT => "PUT"
    case DELETE => "DELETE"
    case PATCH => "PATCH"
    case OPTIONS => "OPTIONS"
  }

  /** The controller exports a route can be bound to. */
  datatype Action = CreateNote | GetAllNotes | GetNoteById | UpdateNote | DeleteNote

  /** A route path: a literal path, or a literal prefix followed by one `:id` segment. */
  datatype Pattern = Exact(path: string) | WithId(prefix: string)

  /** The pattern as it was registered, which is what `req.route.path` reads. */
  function PatternText(p: Pattern): string {
    match p
    case Exact(path) => path
    case WithId(prefix) => prefix + "/:id"
  }

  datatype Binding = Binding(verb: HttpMethod, pattern: Pattern, action: Action)

  const CollectionPattern: Pattern := Exact("/notes")
  const ItemPattern: Pattern := WithId("/notes")

  /** The router's stack, in registration order. */
  const Routes: seq<Binding> := [
    Binding(POST, CollectionPattern, CreateNote),
    Binding(GET, CollectionPattern, GetAllNotes),
    Binding(GET, ItemPattern, GetNoteById),
    Binding(PUT, ItemPattern, UpdateNote),
    Binding(DELETE, ItemPattern, DeleteNote)
  ]

  /** A value a `:id` parameter can capture: a non-empty path segment. */
  predicate IsSegment(s: string) {
    s != [] && '/' !in s
  }

  /** Matching one pattern against a path: `Some(id)` with the captured `id` parameter (the
      empty string for a pattern without one), or `None`. */
  function MatchPattern(p: Pattern, path: string): (r: Option<string>)
    ensures p.Exact? ==> (r.Some? <==> path == p.path) && (r.Some? ==> r.value == [])
    ensures p.WithId? && r.Some? ==> IsSegment(r.value) && path == p.prefix + "/" + r.value
  {
    match p
    case Exact(s) => if path == s then Some([]) else None
    case WithId(prefix) =>
      var k := |prefix| + 1;
      if k < |path| && path[..k] == prefix + "/" && IsSegment(path[k..]) then
        assert path == path[..k] + path[k..];
        Some(path[k..])
      else None
  }

  /** The converse for a parameterised pattern: the prefix, a `/` and any segment match,
      capturing that segment. */
  lemma MatchesItemPath(prefix: string, id: string)
    requires IsSegment(id)
    ensures MatchPattern(WithId(prefix), prefix + "/" + id) == Some(id)
  {
    var path := prefix + "/" + id;
    assert path[..|prefix| + 1] == prefix + "/";
    assert path[|prefix| + 1..] == id;
  }

  /** A route takes a request when its pattern matches the path and it handles the verb; a
      route with a `GET` handler also takes `HEAD` requests. */
  predicate Matches(b: Binding, verb: HttpMethod, path: string) {
    (b.verb == verb || (verb == HEAD && b.verb == GET)) && MatchPattern(b.pattern, path).Some?
  }

  /** A dispatched request: the index and binding of the route that took it, and its `id`. */
  datatype RouteMatch = RouteMatch(index: nat, binding: Binding, id: string)

  /** The first route of `routes` (counting from `from`) whose verb and pattern match. */
  function FirstMatch(routes: seq<Binding>, verb: HttpMethod, path: string, from: nat): (r: Option<RouteMatch>)
    requires from <= |routes|
    ensures r.Some? ==> && from <= r.value.index < |routes|
                        && routes[r.value.index] == r.value.binding
                        && Matches(r.value.binding, verb, path)
                        && MatchPattern(r.value.binding.pattern, path) == Some(r.value.id)
                        && forall j :: from <= j < r.value.index ==> !Matches(routes[j], verb, path)
    ensures r.None? <==> forall j :: from <= j < |routes| ==> !Matches(routes[j], verb, path)
    decreases |routes| - from
  {
    if from == |routes| then None
    else if Matches(routes[from], verb, path) then
      Some(RouteMatch(from, routes[from], MatchPattern(routes[from].pattern, path).value))
    else FirstMatch(routes, verb, path, from + 1)
  }

  /** The router's dispatch of a request. */
  function Dispatch(verb: HttpMethod, path: string): Option<RouteMatch> {
    FirstMatch(Routes, verb, path, 0)
  }

  /** `POST /notes` reaches `createNote`; `GET /notes` (and `HEAD`) reaches `getAllNotes`. */
  lemma CollectionBindings()
    ensures Dispatch(POST, "/notes") == Some(RouteMatch(0, Routes[0], []))
    ensures Dispatch(GET, "/notes") == Some(RouteMatch(1, Routes[1], []))
    ensures Dispatch(HEAD, "/notes") == Some(RouteMatch(1, Routes[1], []))
  {
  }

  /** A path `/notes/<id>` matches the item pattern, capturing `id`, and not the collection. */
  lemma ItemPathMatches(id: string)
    requires IsSegment(id)
    ensures MatchPattern(ItemPattern, "/notes/" + id) == Some(id)
    ensures MatchPattern(CollectionPattern, "/notes/" + id).None?
  {
    MatchesItemPath("/notes", id);
    assert "/notes" + "/" + id == "/notes/" + id;
    assert |"/notes/" + id| > |"/notes"|;
  }

  /** `GET` (and `HEAD`), `PUT` and `DELETE` on `/notes/<id>` reach `getNoteById`,
      `updateNote` and `deleteNote` with `id` as the parameter; no other verb is bound there. */
  lemma ItemBindings(verb: HttpMethod, id: string)
    requires IsSegment(id)
    ensures Dispatch(verb, "/notes/" + id) ==
              if verb == GET || verb == HEAD then Some(RouteMatch(2, Routes[2], id))
              else if verb == PUT then Some(RouteMatch(3, Routes[3], id))
              else if verb == DELETE then Some(RouteMatch(4, Routes[4], id))
              else None
  {
    ItemPathMatches(id);
  }

  /** No other pair is bound: a request is dispatched only as `POST`/`GET`/`HEAD` on `/notes`
      or as `GET`/`HEAD`/`PUT`/`DELETE` on `/notes/<segment>`, and the action is the one
      registered for it. */
  lemma NothingElseBound(verb: HttpMethod, path: string)
    requires Dispatch(verb, path).Some?
    ensures var m := Dispatch(verb, path).value;
            || (path == "/notes" && m.id == [] &&
                ((verb == POST && m.binding.action == CreateNote) ||
                 ((verb == GET || verb == HEAD) && m.binding.action == GetAllNotes)))
            || (IsSegment(m.id) && path == "/notes/" + m.id &&
                (((verb == GET || verb == HEAD) && m.binding.action == GetNoteById) ||
                 (verb == PUT && m.binding.action == UpdateNote) ||
                 (verb == DELETE && m.binding.action == DeleteNote)))
  {
    var m := Dispatch(verb, path).value;
    assert m.binding in Routes;
    assert "/notes" + "/" + m.id == "/notes/" + m.id;
  }

  /** `PATCH` and `OPTIONS` requests are never dispatched. */
  lemma UnboundVerbs(path: string)
    ensures Dispatch(PATCH, path).None? && Dispatch(OPTIONS, path).None?
  {
  }
}
