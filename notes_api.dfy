/** One request through the notes API: `metricsMiddleware` opens the active-connections gauge,
    the router of server/routes/notesRoute.js picks the handler, the controller of
    server/controllers/notesController.js answers, and the response's `finish` event counts the
    request under its (method, route, status code) label and closes the gauge. */
module NotesApi {
  import opened Wrappers
  import opened NoteModel
  import opened NoteStore
  import M = Metrics
  import R = NotesRoute
  import C = NotesController

  datatype Request = Request(verb: R.HttpMethod, path: string, body: C.NoteBody)

  /** What the client receives: a handler's response, or the framework's 404 when no route
      takes the request. */
  datatype Reply = Handled(response: C.Response) | NoRoute

  const NoRouteStatus: int := 404

  /** `res.statusCode` once the response has finished. */
  function StatusOf(r: Reply): int {
    if r.Handled? then r.response.status else NoRouteStatus
  }

  /** The `route` label: the matched route's path when a route took the request, the raw
      request path otherwise. */
  function RouteLabel(path: string, m: Option<R.RouteMatch>): (r: string)
    ensures m.Some? ==> r == R.PatternText(m.value.binding.pattern)
    ensures m.None? ==> r == path
    ensures m.Some? && m.value.binding in R.Routes ==> r == "/notes" || r == "/notes/:id"
  {
    if m.Some? then R.PatternText(m.value.binding.pattern) else path
  }

  /** The handler the matched route calls, with `req.params.id` as the captured segment. */
  function Invoke(db: Db, m: R.RouteMatch, body: C.NoteBody, newId: ObjectId, now: int): C.Outcome {
    match m.binding.action
    case CreateNote => C.CreateNoteSpec(db, body, newId, now)
    case GetAllNotes => C.GetAllNotesSpec(db)
    case GetNoteById => C.GetNoteByIdSpec(db, m.id)
    case UpdateNote => C.UpdateNoteSpec(db, m.id, body, now)
    case DeleteNote => C.DeleteNoteSpec(db, m.id)
  }

  datatype Served = Served(reply: Reply, db: Db, bumped: Option<M.NoteOp>, key: M.RequestLabel)

  /** A request served against the collection `db`: the reply, the new collection, the note
      counter bumped and the label the request is counted under. */
  function ServeSpec(db: Db, req: Request, newId: ObjectId, now: int): (s: Served)
    ensures s.key.verb == R.MethodName(req.verb) && s.key.statusCode == StatusOf(s.reply)
    ensures s.reply.NoRoute? <==> R.Dispatch(req.verb, req.path).None?
    ensures s.reply.NoRoute? ==> s.db == db && s.bumped.None? && s.key.route == req.path
                                 && s.key.statusCode == 404
    ensures s.reply.Handled? ==> s.key.route == "/notes" || s.key.route == "/notes/:id"
  {
    var m := R.Dispatch(req.verb, req.path);
    var route := RouteLabel(req.path, m);
    if m.None? then
      Served(NoRoute, db, None, M.RequestLabel(R.MethodName(req.verb), route, NoRouteStatus))
    else
      assert m.value.binding in R.Routes;
      var o := Invoke(db, m.value, req.body, newId, now);
      Served(Handled(o.response), o.db, o.bumped,
             M.RequestLabel(R.MethodName(req.verb), route, o.response.status))
  }

  /** The call of the matched route's handler on the shared objects. */
  method RunHandler(c: C.Controller, m: R.RouteMatch, body: C.NoteBody, newId: ObjectId, now: int)
    returns (resp: C.Response)
    requires c.Valid() && c.clock <= now && IsCanonicalId(newId.hex)
    modifies c, c.notes, c.metrics
    ensures c.Valid() && c.clock <= now && c.metrics.gaugeEvents == old(c.metrics.gaugeEvents)
    ensures var o := Invoke(old(c.notes.State()), m, body, newId, now);
            && resp == o.response && c.notes.State() == o.db
            && c.metrics.Read() == old(c.metrics.Read()).(notes := M.BumpIf(old(c.metrics.Counters()), o.bumped))
  {
    match m.binding.action
    case CreateNote =>
      resp := c.CreateNote(body, newId, now);
    case GetAllNotes =>
      resp := c.GetAllNotes();
    case GetNoteById =>
      resp := c.GetNoteById(m.id);
    case UpdateNote =>
      resp := c.UpdateNote(m.id, body, now);
    case DeleteNote =>
      resp := c.DeleteNote(m.id);
  }

  /** Serving a request: gauge up, dispatch, the handler on the shared objects, then the
      request counted under its label and the gauge down again. */
  method Serve(c: C.Controller, req: Request, newId: ObjectId, now: int) returns (reply: Reply)
    requires c.Valid() && c.clock <= now && IsCanonicalId(newId.hex)
    modifies c, c.notes, c.metrics
    ensures c.Valid() && c.clock <= now
    ensures c.metrics.gaugeEvents == old(c.metrics.gaugeEvents) + [M.Inc, M.Dec]
    ensures c.metrics.activeConnections == old(c.metrics.activeConnections)
    ensures var s := ServeSpec(old(c.notes.State()), req, newId, now);
            && reply == s.reply && c.notes.State() == s.db
            && c.metrics.Read() == old(c.metrics.Read()).(
                 httpRequests := M.Incremented(old(c.metrics.httpRequests), s.key),
                 notes := M.BumpIf(old(c.metrics.Counters()), s.bumped))
  {
    c.metrics.ConnectionOpened();
    var m := R.Dispatch(req.verb, req.path);
    if m.None? {
      reply := NoRoute;
    } else {
      var resp := RunHandler(c, m.value, req.body, newId, now);
      reply := Handled(resp);
    }
    c.metrics.RequestFinished(M.RequestLabel(R.MethodName(req.verb), RouteLabel(req.path, m), StatusOf(reply)));
  }

  /** Over HTTP, a note that `DELETE /notes/<id>` removes (the handler answers 200) is gone:
      the `DELETE` is answered with that 200, and a later `GET` of the same path is answered
      404 "Note not found" and counted under `/notes/:id`. */
  lemma DeleteThenGetOverHttp(db: Db, raw: string, body: C.NoteBody, newId: ObjectId, now: int)
    requires R.IsSegment(raw)
    requires C.DeleteNoteSpec(db, raw).response.status == 200
    ensures StatusOf(ServeSpec(db, Request(R.DELETE, "/notes/" + raw, body), newId, now).reply) == 200
    ensures var after := ServeSpec(db, Request(R.DELETE, "/notes/" + raw, body), newId, now).db;
            var s := ServeSpec(after, Request(R.GET, "/notes/" + raw, body), newId, now);
            && s.reply == Handled(C.Rejected(404, C.NotFoundMessage))
            && s.key == M.RequestLabel("GET", "/notes/:id", 404)
  {
    var path := "/notes/" + raw;
    R.ItemBindings(R.DELETE, raw);
    var deleted := ServeSpec(db, Request(R.DELETE, path, body), newId, now);
    assert deleted.reply == Handled(C.DeleteNoteSpec(db, raw).response);
    assert deleted.db == C.DeleteNoteSpec(db, raw).db;
    C.DeleteThenNotFound(db, raw);
    R.ItemBindings(R.GET, raw);
    assert R.PatternText(R.Routes[2].pattern) == "/notes/:id";
    assert ServeSpec(deleted.db, Request(R.GET, path, body), newId, now).reply
           == Handled(C.GetNoteByIdSpec(deleted.db, raw).response);
  }
}
