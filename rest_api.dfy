/** The API object: its token, its endpoint table and the dispatcher.

    The endpoint table is a dictionary from the string `method + ":" + path`
    to a handler (the method is called `verb` here: `method` is a Dafny
    keyword). It does not exist until the first endpoint is registered
    (`Option`), a later registration under the same key replaces the earlier
    one, and requests are looked up by that exact string: no path segment is
    ever matched against a `:name` placeholder.
 */
module RestApi {
  import opened JsValues
  import opened Handlers
  import Token

  /** The table key of a route: the method, a colon, the path. */
  function Key(verb: string, path: string): (k: string)
  {
    verb + ":" + path
  }

  datatype Route = Route(path: string, verb: string, handler: Handler)

  /** The routes `createEndpoints` registers, in order. */
  const BuiltinRoutes: seq<Route> := [
    Route("/api/status", "GET", Status),
    Route("/api/actors", "GET", ListActors),
    Route("/api/actors/:id", "GET", ActorById),
    Route("/api/items", "GET", ListItems),
    Route("/api/scenes", "GET", ListScenes),
    Route("/api/users", "GET", ListUsers)]

  /** The table after registering `routes`, in order, on top of `table`. */
  function RegisterAll(table: map<string, Handler>, routes: seq<Route>): map<string, Handler>
    decreases |routes|
  {
    if routes == [] then table
    else RegisterAll(table[Key(routes[0].verb, routes[0].path) := routes[0].handler], routes[1..])
  }

  const NotFound: Value := ErrorResponse("Endpoint não encontrado", 404)
  const InternalError: Value := ErrorResponse("Erro interno do servidor", 500)

  /** What `processRequest` returns, or throws when no table exists. */
  function Dispatch(handlers: Option<map<string, Handler>>, path: string, verb: string,
                    request: Value, host: Host, now: string): (r: Result<Value, Fault>)
    // only the missing table throws out: a handler's fault never does
    ensures r.Failure? <==> handlers.None?
    ensures handlers.Some? && Key(verb, path) !in handlers.value ==> r == Success(NotFound)
    // a faulting handler yields the fixed 500 response, whatever the fault
    ensures handlers.Some? && Key(verb, path) in handlers.value ==>
      var outcome := Run(handlers.value[Key(verb, path)], host, request, now);
      && (outcome.Failure? ==> r == Success(InternalError))
      && (outcome.Success? ==> r == outcome)
  {
    var key := Key(verb, path);
    if handlers.None? then Failure(TypeError(key))
    else if key !in handlers.value then Success(NotFound)
    else match Run(handlers.value[key], host, request, now)
      case Failure(_) => Success(InternalError)
      case Success(response) => Success(response)
  }

  /** The host settings `init` and `startRestServer` read. `apiToken` is a
      String setting whose registered default is null (None). */
  datatype Settings = Settings(apiToken: Option<string>, enableRestApi: Value)

  function SettingValue(s: Option<string>): Value {
    if s.Some? then Str(s.value) else Null
  }

  /** The token `init` keeps (`stored || generateToken()`): a non-empty
      stored setting verbatim, otherwise a generated credential. Either way
      it is a non-empty string, so after `init` neither null nor undefined
      validates. */
  function ChosenToken(stored: Option<string>, rand: seq<real>): (t: Value)
    requires |rand| == Token.TokenLength && Token.RandomDraws(rand)
    ensures stored.Some? && stored.value != "" ==> t == Str(stored.value)
    ensures !(stored.Some? && stored.value != "") ==> t.Str? && Token.IsCredential(t.s)
    ensures t.Str? && t.s != ""
  {
    Token.TokenOfIsCredential(rand);
    if Truthy(SettingValue(stored)) then SettingValue(stored) else Str(Token.TokenOf(rand))
  }

  function RouteKey(route: Route): string {
    Key(route.verb, route.path)
  }

  /** Registering routes leaves the entry of a key that none of them has. */
  lemma {:induction false} RegisterAllKeeps(table: map<string, Handler>, routes: seq<Route>, k: string)
    requires forall i :: 0 <= i < |routes| ==> RouteKey(routes[i]) != k
    ensures k in RegisterAll(table, routes) <==> k in table
    ensures k in table ==> RegisterAll(table, routes)[k] == table[k]
    decreases |routes|
  {
    if routes != [] {
      assert RouteKey(routes[0]) != k;
      forall j | 0 <= j < |routes[1..]| ensures RouteKey(routes[1..][j]) != k {
        assert routes[1..][j] == routes[j + 1];
      }
      RegisterAllKeeps(table[RouteKey(routes[0]) := routes[0].handler], routes[1..], k);
    }
  }

  /** A key some routes have ends up with the handler of the last of them:
      a later registration replaces an earlier one. */
  lemma {:induction false} RegisterAllLast(table: map<string, Handler>, routes: seq<Route>, i: int)
    requires 0 <= i < |routes|
    requires forall j :: i < j < |routes| ==> RouteKey(routes[j]) != RouteKey(routes[i])
    ensures RouteKey(routes[i]) in RegisterAll(table, routes)
    ensures RegisterAll(table, routes)[RouteKey(routes[i])] == routes[i].handler
    decreases |routes|
  {
    var t := table[RouteKey(routes[0]) := routes[0].handler];
    forall j | 0 <= j < |routes[1..]| && (i == 0 || i - 1 < j)
      ensures RouteKey(routes[1..][j]) != RouteKey(routes[i])
    {
      assert routes[1..][j] == routes[j + 1];
    }
    if i == 0 {
      RegisterAllKeeps(t, routes[1..], RouteKey(routes[0]));
    } else {
      assert routes[1..][i - 1] == routes[i];
      RegisterAllLast(t, routes[1..], i - 1);
    }
  }

  /** The table `createEndpoints` leaves behind when it is the first to
      register: exactly six GET routes, keyed by their paths. */
  lemma BuiltinTable()
    ensures RegisterAll(map[], BuiltinRoutes) == map[
      Key("GET", "/api/status") := Status,
      Key("GET", "/api/actors") := ListActors,
      Key("GET", "/api/actors/:id") := ActorById,
      Key("GET", "/api/items") := ListItems,
      Key("GET", "/api/scenes") := ListScenes,
      Key("GET", "/api/users") := ListUsers]
  {
  }

  /** Keys identify routes as long as the method has no colon in it. */
  lemma KeyInjective(verb1: string, path1: string, verb2: string, path2: string)
    requires ':' !in verb1 && ':' !in verb2
    requires Key(verb1, path1) == Key(verb2, path2)
    ensures verb1 == verb2 && path1 == path2
  {
    FirstColon(verb1, path1);
    FirstColon(verb2, path2);
    assert |verb1| == |verb2|;
    var k := Key(verb1, path1);
    assert k[..|verb1|] == verb1 && k[|verb1| + 1..] == path1;
  }

  /** Without a colon in the method, a key's first colon ends the method. */
  lemma FirstColon(verb: string, path: string)
    requires ':' !in verb
    ensures Key(verb, path)[|verb|] == ':'
    ensures forall i :: 0 <= i < |verb| ==> Key(verb, path)[i] != ':'
  {
    forall i | 0 <= i < |verb| ensures Key(verb, path)[i] != ':' {
      assert Key(verb, path)[i] == verb[i];
    }
  }

  /** With a colon in the method two routes share a key: this request
      reaches the actor route although neither its method nor its path
      is the registered one. */
  lemma KeyCollision()
    ensures Key("GET:/api/actors/", "id") == Key("GET", "/api/actors/:id")
  {
  }

  /** The paths `createEndpoints` registers. */
  const BuiltinPaths: set<string> := set i | 0 <= i < |BuiltinRoutes| :: BuiltinRoutes[i].path

  /** The built-in table resolves a request exactly when its method is GET
      and its path is one of the six registered strings, character for
      character (for any method without a colon in it). */
  lemma BuiltinResolves(verb: string, path: string)
    requires ':' !in verb
    ensures Key(verb, path) in RegisterAll(map[], BuiltinRoutes) <==> verb == "GET" && path in BuiltinPaths
  {
    BuiltinTable();
    var k := Key(verb, path);
    var r := BuiltinRoutes;
    if k in RegisterAll(map[], r) {
      // a key no route has would still be missing, as in the empty table
      if forall i :: 0 <= i < |r| ==> RouteKey(r[i]) != k {
        RegisterAllKeeps(map[], r, k);
      }
      var i :| 0 <= i < |r| && RouteKey(r[i]) == k;
      KeyInjective(verb, path, r[i].verb, r[i].path);
    }
  }

  /** The handler the built-in table holds under each route key. */
  lemma BuiltinEntries()
    ensures var t := RegisterAll(map[], BuiltinRoutes);
      && Key("GET", "/api/status") in t && t[Key("GET", "/api/status")] == Status
      && Key("GET", "/api/actors") in t && t[Key("GET", "/api/actors")] == ListActors
      && Key("GET", "/api/actors/:id") in t && t[Key("GET", "/api/actors/:id")] == ActorById
      && Key("GET", "/api/items") in t && t[Key("GET", "/api/items")] == ListItems
      && Key("GET", "/api/scenes") in t && t[Key("GET", "/api/scenes")] == ListScenes
      && Key("GET", "/api/users") in t && t[Key("GET", "/api/users")] == ListUsers
  {
    BuiltinTable();
    GetKeysDistinct();
  }

  /** Different paths give different GET keys. */
  lemma GetKeysDistinct()
    ensures forall p1, p2 :: p1 != p2 ==> Key("GET", p1) != Key("GET", p2)
  {
    forall p1, p2 | p1 != p2 ensures Key("GET", p1) != Key("GET", p2) {
      if Key("GET", p1) == Key("GET", p2) {
        KeyInjective("GET", p1, "GET", p2);
      }
    }
  }

  /** A concrete actor path never reaches the `/api/actors/:id` entry: it
      gets the routing 404. */
  lemma ConcreteActorPathMisses(id: string, request: Value, host: Host, now: string)
    requires id != ":id"
    ensures Dispatch(Some(RegisterAll(map[], BuiltinRoutes)), "/api/actors/" + id, "GET", request, host, now)
            == Success(NotFound)
  {
    var path := "/api/actors/" + id;
    assert path !in BuiltinPaths by {
      assert path[..12] == "/api/actors/" && path[12..] == id;
    }
    BuiltinResolves("GET", path);
  }

  /** GET /api/actors: the actors sanitized in order with their count, or
      the 500 response when one of them has no `data` record. */
  lemma ListActorsRoute(request: Value, host: Host, now: string)
    ensures var r := Dispatch(Some(RegisterAll(map[], BuiltinRoutes)), "/api/actors", "GET", request, host, now);
      && ((exists i :: 0 <= i < |host.actors| && LacksData(host.actors, i)) ==> r == Success(InternalError))
      && ((forall i :: 0 <= i < |host.actors| ==> Readable(Get(host.actors[i].doc, "data"))) ==>
            && r.Success? && r == ListResponse(Sanitize.SanitizeActor, host.actors, now)
            && r.value.props["success"] == Bool(true)
            && r.value.props["count"] == Num(|host.actors|)
            && r.value.props["data"].Arr? && |r.value.props["data"].elems| == |host.actors|
            && forall i :: 0 <= i < |host.actors| ==>
                 r.value.props["data"].elems[i] == Sanitize.SanitizeActor(host.actors[i].doc).value)
  {
    BuiltinEntries();
  }

  /** GET /api/items: the items sanitized in order with their count, or
      the 500 response when one of them has no `data` record. */
  lemma ListItemsRoute(request: Value, host: Host, now: string)
    ensures var r := Dispatch(Some(RegisterAll(map[], BuiltinRoutes)), "/api/items", "GET", request, host, now);
      && ((exists i :: 0 <= i < |host.items| && LacksData(host.items, i)) ==> r == Success(InternalError))
      && ((forall i :: 0 <= i < |host.items| ==> Readable(Get(host.items[i].doc, "data"))) ==>
            && r.Success? && r == ListResponse(Sanitize.SanitizeItem, host.items, now)
            && r.value.props["success"] == Bool(true)
            && r.value.props["count"] == Num(|host.items|)
            && r.value.props["data"].Arr? && |r.value.props["data"].elems| == |host.items|
            && forall i :: 0 <= i < |host.items| ==>
                 r.value.props["data"].elems[i] == Sanitize.SanitizeItem(host.items[i].doc).value)
  {
    BuiltinEntries();
  }

  /** GET /api/scenes: the scenes sanitized in order with their count, or
      the 500 response when one of them has no `data` record. */
  lemma ListScenesRoute(request: Value, host: Host, now: string)
    ensures var r := Dispatch(Some(RegisterAll(map[], BuiltinRoutes)), "/api/scenes", "GET", request, host, now);
      && ((exists i :: 0 <= i < |host.scenes| && LacksData(host.scenes, i)) ==> r == Success(InternalError))
      && ((forall i :: 0 <= i < |host.scenes| ==> Readable(Get(host.scenes[i].doc, "data"))) ==>
            && r.Success? && r == ListResponse(Sanitize.SanitizeScene, host.scenes, now)
            && r.value.props["success"] == Bool(true)
            && r.value.props["count"] == Num(|host.scenes|)
            && r.value.props["data"].Arr? && |r.value.props["data"].elems| == |host.scenes|
            && forall i :: 0 <= i < |host.scenes| ==>
                 r.value.props["data"].elems[i] == Sanitize.SanitizeScene(host.scenes[i].doc).value)
  {
    BuiltinEntries();
  }

  /** GET /api/users: always the users sanitized in order with their count. */
  lemma ListUsersRoute(request: Value, host: Host, now: string)
    ensures var r := Dispatch(Some(RegisterAll(map[], BuiltinRoutes)), "/api/users", "GET", request, host, now);
      && r.Success? && r == ListResponse(SanitizeUserTotal, host.users, now)
      && r.value.props["success"] == Bool(true)
      && r.value.props["count"] == Num(|host.users|)
      && r.value.props["data"].Arr? && |r.value.props["data"].elems| == |host.users|
      && forall i :: 0 <= i < |host.users| ==>
           r.value.props["data"].elems[i] == Sanitize.SanitizeUser(host.users[i].doc)
  {
    BuiltinEntries();
  }

  /** GET /api/actors/:id (the literal path) with an id no actor has: the
      handler's own 404 comes back unchanged, not the routing 404. */
  lemma ActorRouteUnknownId(request: Value, host: Host, now: string)
    requires RequestedId(request).Some?
    requires forall i :: 0 <= i < |host.actors| ==> RequestedId(request).value != Str(host.actors[i].key)
    ensures Dispatch(Some(RegisterAll(map[], BuiltinRoutes)), "/api/actors/:id", "GET", request, host, now)
            == Success(ActorNotFound)
    ensures ActorNotFound != NotFound
  {
    BuiltinTable();
    ActorByIdUnknown(host, request, now);
    assert ActorNotFound.props["error"] != NotFound.props["error"];
  }

  /** GET /api/status: `users` is the number of users, or the 500 response
      when the host has no world. */
  lemma StatusRoute(request: Value, host: Host, now: string)
    ensures var r := Dispatch(Some(RegisterAll(map[], BuiltinRoutes)), "/api/status", "GET", request, host, now);
      && (!Readable(host.world) ==> r == Success(InternalError))
      && (Readable(host.world) ==>
            && r.Success? && r.value.Obj? && "status" in r.value.props && "users" in r.value.props
            && r.value.props["status"] == Str("online")
            && r.value.props["users"] == Num(|host.users|))
  {
    BuiltinEntries();
  }

  class FoundryRestApi {
    var apiToken: Value
    var endpointHandlers: Option<map<string, Handler>>

    /** The table, read as empty while it does not exist yet. */
    function Table(): map<string, Handler>
      reads this
    {
      if endpointHandlers.Some? then endpointHandlers.value else map[]
    }

    /** `new FoundryRestApi()` followed by `init()`; `game` is None when
        the host's `game` global is undefined. */
    constructor (game: Option<Settings>, rand: seq<real>)
      requires |rand| == Token.TokenLength && Token.RandomDraws(rand)
      ensures game.None? ==> apiToken == Null && endpointHandlers.None?
      ensures game.Some? ==> apiToken == ChosenToken(game.value.apiToken, rand)
      ensures game.Some? && Truthy(game.value.enableRestApi) ==>
        endpointHandlers == Some(RegisterAll(map[], BuiltinRoutes))
      ensures game.Some? && !Truthy(game.value.enableRestApi) ==> endpointHandlers.None?
    {
      apiToken := Null;
      endpointHandlers := None;
      new;
      Init(game, rand);
    }

    /** `init`: picks the token, then starts the server. */
    method Init(game: Option<Settings>, rand: seq<real>)
      requires |rand| == Token.TokenLength && Token.RandomDraws(rand)
      modifies this
      ensures game.None? ==> apiToken == old(apiToken) && endpointHandlers == old(endpointHandlers)
      ensures game.Some? ==> apiToken == ChosenToken(game.value.apiToken, rand)
      ensures game.Some? && Truthy(game.value.enableRestApi) ==>
        endpointHandlers == Some(RegisterAll(old(Table()), BuiltinRoutes))
      ensures game.Some? && !Truthy(game.value.enableRestApi) ==> endpointHandlers == old(endpointHandlers)
    {
      if game.None? {
        return;
      }
      var stored := SettingValue(game.value.apiToken);
      if Truthy(stored) {
        apiToken := stored;
      } else {
        var token := Token.GenerateToken(rand);
        apiToken := Str(token);
      }
      StartRestServer(game.value.enableRestApi);
    }

    /** `startRestServer`: registers the routes unless the switch is off. */
    method StartRestServer(enableRestApi: Value)
      modifies this
      ensures apiToken == old(apiToken)
      ensures Truthy(enableRestApi) ==> endpointHandlers == Some(RegisterAll(old(Table()), BuiltinRoutes))
      ensures !Truthy(enableRestApi) ==> endpointHandlers == old(endpointHandlers)
    {
      if !Truthy(enableRestApi) {
        return;
      }
      CreateEndpoints();
    }

    /** `createEndpoints`: registers the six built-in routes in order. */
    method CreateEndpoints()
      modifies this
      ensures apiToken == old(apiToken)
      ensures endpointHandlers == Some(RegisterAll(old(Table()), BuiltinRoutes))
    {
      ghost var start := Table();
      ghost var rest := BuiltinRoutes;
      CreateEndpoint("/api/status", "GET", Status);
      assert RegisterAll(start, BuiltinRoutes) == RegisterAll(Table(), rest[1..]);
      rest := rest[1..];
      CreateEndpoint("/api/actors", "GET", ListActors);
      assert RegisterAll(start, BuiltinRoutes) == RegisterAll(Table(), rest[1..]);
      rest := rest[1..];
      CreateEndpoint("/api/actors/:id", "GET", ActorById);
      assert RegisterAll(start, BuiltinRoutes) == RegisterAll(Table(), rest[1..]);
      rest := rest[1..];
      CreateEndpoint("/api/items", "GET", ListItems);
      assert RegisterAll(start, BuiltinRoutes) == RegisterAll(Table(), rest[1..]);
      rest := rest[1..];
      CreateEndpoint("/api/scenes", "GET", ListScenes);
      assert RegisterAll(start, BuiltinRoutes) == RegisterAll(Table(), rest[1..]);
      rest := rest[1..];
      CreateEndpoint("/api/users", "GET", ListUsers);
      assert RegisterAll(start, BuiltinRoutes) == RegisterAll(Table(), rest[1..]);
      assert rest[1..] == [];
    }

    /** `createEndpoint`: creates the table on first use, then stores the
        handler under its key, replacing any earlier one. */
    method CreateEndpoint(path: string, verb: string, handler: Handler)
      modifies this
      ensures apiToken == old(apiToken)
      ensures endpointHandlers == Some(old(Table())[Key(verb, path) := handler])
    {
      if endpointHandlers.None? {
        endpointHandlers := Some(map[]);
      }
      endpointHandlers := Some(endpointHandlers.value[Key(verb, path) := handler]);
    }

    /** `validateToken`: strict equality with the stored token. */
    method ValidateToken(token: Value) returns (ok: bool)
      ensures ok <==> token == apiToken
    {
      ok := token == apiToken;
    }

    /** `processRequest`: implements `Dispatch` on the current table. */
    method ProcessRequest(path: string, verb: string, request: Value, host: Host, now: string)
      returns (r: Result<Value, Fault>)
      ensures r == Dispatch(endpointHandlers, path, verb, request, host, now)
    {
      var handlerKey := Key(verb, path);
      if endpointHandlers.None? {
        return Failure(TypeError(handlerKey));
      }
      if handlerKey !in endpointHandlers.value {
        return Success(NotFound);
      }
      var outcome := Run(endpointHandlers.value[handlerKey], host, request, now);
      if outcome.Failure? {
        return Success(InternalError);
      }
      return Success(outcome.value);
    }
  }
}
