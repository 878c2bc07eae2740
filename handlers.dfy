/** The host's entity store and the six built-in route handlers.

    A host collection (`game.actors`, `game.items`, …) is a JavaScript Map
    from document id to document, iterated in insertion order: a sequence
    of entries here. A handler reads the store, maps a sanitizer over a
    collection and builds a response object; any TypeError it hits while
    doing so is its `Failure`. The clock reading (`new Date().toISOString()`)
    is the input `now`.
 */
module Handlers {
  import opened JsValues
  import opened Sanitize

  datatype Entry = Entry(key: string, doc: Props)

  type Collection = seq<Entry>

  /** The host's `game` object, as far as the handlers read it. */
  datatype Host = Host(
    version: Value,     // game.version
    world: Value,       // game.world
    actors: Collection,
    items: Collection,
    scenes: Collection,
    users: Collection)

  /** The route handlers registered at start-up. */
  datatype Handler = Status | ListActors | ActorById | ListItems | ListScenes | ListUsers

  /** The documents of a collection, in iteration order. */
  function Docs(c: Collection): (ds: seq<Props>)
    ensures |ds| == |c|
    ensures forall i :: 0 <= i < |c| ==> ds[i] == c[i].doc
  {
    seq(|c|, i requires 0 <= i < |c| => c[i].doc)
  }

  /** `collection.get(id)`: the document stored under `id`. Keys are
      strings, so any other id misses. */
  function Lookup(c: Collection, id: Value): (r: Option<Props>)
    ensures r.None? <==> !(id.Str? && exists i :: 0 <= i < |c| && c[i].key == id.s)
    ensures r.Some? ==> exists i :: 0 <= i < |c| && c[i].key == id.s && c[i].doc == r.value
  {
    if c == [] then None
    else if id == Str(c[0].key) then Some(c[0].doc)
    else
      var r := Lookup(c[1..], id);
      assert r.Some? ==> exists i :: 0 <= i < |c[1..]| && c[1..][i].key == id.s && c[1..][i].doc == r.value;
      assert r.None? && id.Str? ==> forall i :: 0 < i < |c| ==> c[i].key != id.s by {
        if r.None? && id.Str? {
          forall i | 0 < i < |c| ensures c[i].key != id.s {
            assert c[i] == c[1..][i - 1];
          }
        }
      }
      r
  }

  /** `docs.map(f)`: stops at the first document `f` throws on. */
  function MapAll(f: Props -> Result<Value, Fault>, docs: seq<Props>): (r: Result<seq<Value>, Fault>)
    ensures r.Success? <==> forall i :: 0 <= i < |docs| ==> f(docs[i]).Success?
    ensures r.Success? ==> |r.value| == |docs| && forall i :: 0 <= i < |docs| ==> f(docs[i]) == Success(r.value[i])
    ensures r.Failure? ==> exists i :: 0 <= i < |docs| && f(docs[i]) == Failure(r.error)
                                       && forall j :: 0 <= j < i ==> f(docs[j]).Success?
  {
    if docs == [] then Success([])
    else match f(docs[0])
      case Failure(e) => Failure(e)
      case Success(v) =>
        match MapAll(f, docs[1..])
        case Failure(e) =>
          assert exists i :: 0 <= i < |docs[1..]| && f(docs[1..][i]) == Failure(e)
                             && forall j :: 0 <= j < i ==> f(docs[1..][j]).Success?;
          var i :| 0 <= i < |docs[1..]| && f(docs[1..][i]) == Failure(e)
                   && forall j :: 0 <= j < i ==> f(docs[1..][j]).Success?;
          assert forall j :: 0 <= j < i + 1 ==> f(docs[j]).Success? by {
            forall j | 0 < j < i + 1 ensures f(docs[j]).Success? {
              assert docs[j] == docs[1..][j - 1];
            }
          }
          Failure(e)
        case Success(vs) => Success([v] + vs)
  }

  /** A response reporting a failure with an HTTP status. */
  function ErrorResponse(message: string, status: int): Value {
    Obj(map["success" := Bool(false), "error" := Str(message), "status" := Num(status)])
  }

  const ActorNotFound: Value := ErrorResponse("Actor não encontrado", 404)

  /** The response of a list route: the sanitized documents and their count. */
  function ListResponse(f: Props -> Result<Value, Fault>, c: Collection, now: string): (r: Result<Value, Fault>)
    ensures r.Failure? <==> exists i :: 0 <= i < |c| && f(c[i].doc).Failure?
    ensures r.Success? ==>
      && r.value.Obj? && r.value.props.Keys == {"success", "data", "count", "timestamp"}
      && r.value.props["success"] == Bool(true)
      && r.value.props["timestamp"] == Str(now)
      && r.value.props["data"].Arr?
      && |r.value.props["data"].elems| == |c|
      && (forall i :: 0 <= i < |c| ==> f(c[i].doc) == Success(r.value.props["data"].elems[i]))
      && r.value.props["count"] == Num(|r.value.props["data"].elems|)
  {
    var docs := Docs(c);
    match MapAll(f, docs)
    case Failure(e) => Failure(e)
    case Success(data) =>
      Success(Obj(map[
        "success" := Bool(true),
        "data" := Arr(data),
        "count" := Num(|data|),
        "timestamp" := Str(now)]))
  }

  /** `sanitizeUser` in the shape the list helper takes. */
  function SanitizeUserTotal(user: Props): Result<Value, Fault> {
    Success(SanitizeUser(user))
  }

  /** The status route: `game.world.title` throws when there is no world. */
  function StatusResponse(host: Host, now: string): (r: Result<Value, Fault>)
    ensures r.Failure? <==> !Readable(host.world)
    ensures r.Success? ==>
      && r.value.Obj?
      && r.value.props.Keys == {"success", "status", "version", "world", "users", "timestamp"}
      && r.value.props["success"] == Bool(true)
      && r.value.props["status"] == Str("online")
      && r.value.props["version"] == host.version
      && r.value.props["world"] == Member(host.world, "title")
      && r.value.props["users"] == Num(|host.users|)
      && r.value.props["timestamp"] == Str(now)
  {
    match Prop(host.world, "title")
    case Failure(e) => Failure(e)
    case Success(title) =>
      Success(Obj(map[
        "success" := Bool(true),
        "status" := Str("online"),
        "version" := host.version,
        "world" := title,
        "users" := Num(|host.users|),
        "timestamp" := Str(now)]))
  }

  /** Document ids are unique within a collection (it is a Map). */
  predicate UniqueKeys(c: Collection) {
    forall i, j :: 0 <= i < j < |c| ==> c[i].key != c[j].key
  }

  /** The actor route: reads `request.params.id` and looks the actor up.
      It throws when the request or its params are undefined or null, and
      when the actor found has no `data` record. */
  function ActorResponse(host: Host, request: Value, now: string): (r: Result<Value, Fault>)
    ensures !Readable(request) ==> r == Failure(TypeError("params"))
    ensures Readable(request) && !Readable(Member(request, "params")) ==> r == Failure(TypeError("id"))
  {
    match Prop(request, "params")
    case Failure(e) => Failure(e)
    case Success(params) =>
      match Prop(params, "id")
      case Failure(e) => Failure(e)
      case Success(actorId) =>
        match Lookup(host.actors, actorId)
        case None => Success(ActorNotFound)
        case Some(actor) =>
          match SanitizeActor(actor)
          case Failure(e) => Failure(e)
          case Success(data) =>
            Success(Obj(map["success" := Bool(true), "data" := data, "timestamp" := Str(now)]))
  }

  /** The id a request carries in `request.params.id`, when both are readable. */
  function RequestedId(request: Value): Option<Value> {
    if Readable(request) && Readable(Member(request, "params"))
    then Some(Member(Member(request, "params"), "id"))
    else None
  }

  /** An id no actor is stored under gets the fixed 404 response, which has
      neither `data` nor `timestamp`. */
  lemma ActorByIdUnknown(host: Host, request: Value, now: string)
    requires RequestedId(request).Some?
    requires forall i :: 0 <= i < |host.actors| ==> RequestedId(request).value != Str(host.actors[i].key)
    ensures ActorResponse(host, request, now) == Success(ActorNotFound)
    ensures ActorNotFound.props.Keys == {"success", "error", "status"}
    ensures ActorNotFound.props["success"] == Bool(false)
  {
  }

  /** The actor stored under the requested id is returned sanitized. */
  lemma ActorByIdKnown(host: Host, request: Value, now: string, i: int)
    requires UniqueKeys(host.actors) && 0 <= i < |host.actors|
    requires RequestedId(request) == Some(Str(host.actors[i].key))
    ensures SanitizeActor(host.actors[i].doc).Failure? ==>
      ActorResponse(host, request, now) == Failure(TypeError("name"))
    ensures SanitizeActor(host.actors[i].doc).Success? ==>
      ActorResponse(host, request, now) == Success(Obj(map[
        "success" := Bool(true),
        "data" := SanitizeActor(host.actors[i].doc).value,
        "timestamp" := Str(now)]))
  {
    var found := Lookup(host.actors, Str(host.actors[i].key));
    assert found.Some?;
    var j :| 0 <= j < |host.actors| && host.actors[j].key == host.actors[i].key && host.actors[j].doc == found.value;
    assert j == i;
  }

  /** A document whose `data` record is undefined or null: sanitizing it throws. */
  predicate LacksData(c: Collection, i: int)
    requires 0 <= i < |c|
  {
    !Readable(Get(c[i].doc, "data"))
  }

  /** A list route over a sanitizer that throws exactly on a missing `data`
      record throws exactly when some document lacks one. */
  lemma ListFailsOnMissingData(f: Props -> Result<Value, Fault>, c: Collection, now: string)
    requires forall d :: f(d).Failure? <==> !Readable(Get(d, "data"))
    ensures ListResponse(f, c, now).Failure? <==> exists i :: 0 <= i < |c| && LacksData(c, i)
  {
    assert forall i :: 0 <= i < |c| ==> (f(c[i].doc).Failure? <==> LacksData(c, i));
  }

  /** Runs a handler against the store: its response, or what it threw.
      Each handler throws exactly when the record it must read is missing:
      the world, a document's `data`, the request or its `params`, or the
      found actor's `data`; the user list never throws. */
  function Run(h: Handler, host: Host, request: Value, now: string): (r: Result<Value, Fault>)
    ensures h.Status? ==> (r.Failure? <==> !Readable(host.world))
    ensures h.ListActors? ==> (r.Failure? <==> exists i :: 0 <= i < |host.actors| && LacksData(host.actors, i))
    ensures h.ListItems? ==> (r.Failure? <==> exists i :: 0 <= i < |host.items| && LacksData(host.items, i))
    ensures h.ListScenes? ==> (r.Failure? <==> exists i :: 0 <= i < |host.scenes| && LacksData(host.scenes, i))
    ensures h.ListUsers? ==> r.Success?
    ensures h.ActorById? && !Readable(request) ==> r == Failure(TypeError("params"))
    ensures h.ActorById? ==>
      (r.Failure? <==> RequestedId(request).None?
                       || (Lookup(host.actors, RequestedId(request).value).Some?
                           && !Readable(Get(Lookup(host.actors, RequestedId(request).value).value, "data"))))
  {
    match h
    case Status => StatusResponse(host, now)
    case ListActors =>
      ListFailsOnMissingData(SanitizeActor, host.actors, now);
      ListResponse(SanitizeActor, host.actors, now)
    case ActorById => ActorResponse(host, request, now)
    case ListItems =>
      ListFailsOnMissingData(SanitizeItem, host.items, now);
      ListResponse(SanitizeItem, host.items, now)
    case ListScenes =>
      ListFailsOnMissingData(SanitizeScene, host.scenes, now);
      ListResponse(SanitizeScene, host.scenes, now)
    case ListUsers => ListResponse(SanitizeUserTotal, host.users, now)
  }
}
