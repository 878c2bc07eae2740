# Foundry REST API: request dispatch, sanitizers and token

A Dafny model of the request-dispatch layer of `foundry-rest-api.js`, a
Foundry VTT module that puts a small read-only REST façade over the game's
in-memory documents (actors, items, scenes, users).

What is modelled:

- **JavaScript values** (`js_values.dfy`, module `JsValues`): a `Value` is
  undefined, null, a boolean, a number, a string, an array or a plain object.
  Reading a property of undefined or null throws a TypeError, modelled as a
  `Failure(TypeError(property))`. That makes every fault path of the code
  concrete: a document without a `data` record, a request without `params`,
  a host without a world.
- **Sanitizers** (`sanitize.dfy`, module `Sanitize`): the four `sanitize*`
  functions as the object literals they are. Their contracts give the exact
  key set of each output. The lemmas show that every field is copied
  verbatim, and that no property other than the listed ones reaches the
  output.
- **Handlers** (`handlers.dfy`, module `Handlers`): the host's `game` object
  as a `Host` value. Each collection is a JavaScript Map, modelled as a
  sequence of `(id, document)` entries in insertion order. The six route
  handlers are a tagged datatype `Handler`, and `Run` evaluates one. Status,
  list and actor-by-id responses are the source's object literals. The clock
  reading is the input `now`.
- **Token** (`token.dfy`, module `Token`): `generateToken` is a loop that
  appends 32 characters from the 62-character alphabet. Each character is
  picked by `Math.floor(Math.random() * 62)`. The random draws are an input
  sequence of reals in [0, 1). The lemmas prove that the generator produces
  exactly the 32-character alphanumeric strings.
- **The API object** (`rest_api.dfy`, module `RestApi`): class
  `FoundryRestApi` with the fields `apiToken` and `endpointHandlers`. The
  dictionary is an `Option<map<string, Handler>>` because it is created
  lazily by the first `createEndpoint`. The class also has `init`,
  `startRestServer` (the enable switch), `createEndpoints`, `createEndpoint`,
  `validateToken` and `processRequest`. `Dispatch` is the function that
  specifies `processRequest`. Lookup uses the exact string
  `method + ":" + path`. The model has no `:id` segment matching because the
  code has none. A request for `/api/actors/abc123` therefore gets the
  routing 404, and the lemma `ConcreteActorPathMisses` proves this. The
  route method is called `verb` because `method` is a Dafny keyword.

Behaviour of the code worth noting:

- Routes are looked up by exact string. A `:name` in a registered path is
  part of that string: nothing matches it against a path segment.
- The error strings are Portuguese: `Endpoint não
  encontrado`, `Erro interno do servidor`, `Actor não encontrado`.
- Error responses (404, 500, actor not found) have no `timestamp`.
- Route identity is the concatenated string, not the (method, path) pair.
  `KeyInjective` shows that the two agree for methods without a colon.
  `KeyCollision` shows that they differ otherwise: method `GET:/api/actors/`
  with path `id` reaches the actor route.
- `validateToken(null)` is true when `init` returned early because `game`
  was undefined, since `apiToken` is then still null. After a normal `init`,
  the token is a non-empty string (`ChosenToken`), so
  null and undefined are rejected.
- Sanitized records share the `flags` and `ownership` objects with the host
  document. They are not deep copies (see "Left out").

## Model

| member | source | states |
|---|---|---|
| `Sanitize.SanitizeActor` | foundry-rest-api.js:239-257 | throws (TypeError on `data.name`) exactly when `actor.data` is undefined or null; otherwise yields exactly the ten actor fields, with a `data` record of exactly `name`, `type`, `img` |
| `Sanitize.SanitizeActorCopies` | foundry-rest-api.js:239-257 | `_id` is `actor.id`, every other top-level field is the actor's property of the same name, every nested field is the same property of `actor.data` |
| `Sanitize.SanitizeActorReadsOnlyItsFields` | foundry-rest-api.js:239-257 | two actors that agree on the listed properties (and on the listed ones of `data`) sanitize to the same value: nothing else of the document reaches the output |
| `Sanitize.SanitizeItem` | foundry-rest-api.js:262-279 | throws exactly when `item.data` is undefined or null; otherwise yields exactly the eight item fields, with `data` of exactly `name`, `type`, `img`, `rarity` |
| `Sanitize.SanitizeItemCopies` | foundry-rest-api.js:262-279 | each item field copied verbatim (`_id` from `id`, nested fields from `data`) |
| `Sanitize.SanitizeItemReadsOnlyItsFields` | foundry-rest-api.js:262-279 | the output depends on the listed item properties only |
| `Sanitize.SanitizeScene` | foundry-rest-api.js:284-302 | throws exactly when `scene.data` is undefined or null; otherwise yields exactly the nine scene fields, with `data` of exactly `name`, `img`, `width`, `height` |
| `Sanitize.SanitizeSceneCopies` | foundry-rest-api.js:284-302 | each scene field copied verbatim (`_id` from `id`, nested fields from `data`) |
| `Sanitize.SanitizeSceneReadsOnlyItsFields` | foundry-rest-api.js:284-302 | the output depends on the listed scene properties only |
| `Sanitize.SanitizeUser` | foundry-rest-api.js:307-318 | never throws and yields exactly the eight user fields, with no nested `data` record |
| `Sanitize.SanitizeUserCopies` | foundry-rest-api.js:307-318 | `_id` is `user.id`, every other field is the user's property of the same name |
| `Sanitize.SanitizeUserReadsOnlyItsFields` | foundry-rest-api.js:307-318 | the output depends on the listed user properties only |
| `Handlers.Lookup` | foundry-rest-api.js:169 | `game.actors.get(id)` misses exactly when `id` is not a string key of the collection; a hit is the document stored under that key |
| `Handlers.MapAll` | foundry-rest-api.js:157 | `collection.map(sanitize)` succeeds exactly when every document sanitizes, giving the sanitized documents in order and one per document; otherwise it throws the fault of the first document that throws |
| `Handlers.ListResponse` | foundry-rest-api.js:156-164 | a list route throws exactly when some document fails to sanitize; otherwise it answers `{success: true, data, count, timestamp}` and nothing else, with `data` the collection sanitized element by element in order and `count` its length |
| `Handlers.StatusResponse` | foundry-rest-api.js:144-153 | the status route throws exactly when `game.world` is undefined or null; otherwise it answers exactly `{success: true, status: 'online', version, world: world.title, users: number of users, timestamp}` |
| `Handlers.ActorResponse` | foundry-rest-api.js:167-169 | the actor route throws when the request, or its `params`, is undefined or null |
| `Handlers.ActorByIdUnknown` | foundry-rest-api.js:167-177 | an id under which no actor is stored gets exactly `{success: false, error: 'Actor não encontrado', status: 404}`, with no `data` and no `timestamp` |
| `Handlers.ActorByIdKnown` | foundry-rest-api.js:167-184 | the actor stored under the requested id is answered as `{success: true, data: sanitizeActor(actor), timestamp}`, or the route throws when that actor has no `data` |
| `Handlers.ListFailsOnMissingData` | foundry-rest-api.js:156-206 | a list route whose sanitizer throws exactly on a missing `data` record throws exactly when some document lacks one |
| `Handlers.Run` | foundry-rest-api.js:144-217 | each handler throws exactly when a record it must read is missing: the status handler when there is no world; the actor, item and scene lists when some document has no `data`; the actor handler when the request or its `params` is undefined or null, or when the actor stored under the requested id has no `data`; the user list never throws |
| `Token.Pick` | foundry-rest-api.js:57 | `Math.floor(Math.random() * chars.length)` is always an index into the alphabet |
| `Token.AlphabetSpans` | foundry-rest-api.js:54 | the alphabet has 62 characters: `A`-`Z`, `a`-`z`, `0`-`9` in that order, all alphanumeric |
| `Token.GenerateToken` | foundry-rest-api.js:53-60 | the loop returns the token the 32 draws determine, and that token is 32 alphanumeric characters |
| `Token.TokenOfIsCredential` | foundry-rest-api.js:53-60 | any 32 draws of `Math.random` give a 32-character alphanumeric token |
| `Token.EveryCredentialIsGenerable` | foundry-rest-api.js:53-60 | every 32-character alphanumeric string is the token of some 32 draws, so the generator's range is exactly the credentials |
| `RestApi.KeyInjective` | foundry-rest-api.js:233 | for methods without a colon, equal keys mean equal method and equal path |
| `RestApi.FirstColon` | foundry-rest-api.js:233 | for a method without a colon, the key's first colon comes right after the method |
| `RestApi.GetKeysDistinct` | foundry-rest-api.js:233 | different paths give different GET keys |
| `RestApi.KeyCollision` | foundry-rest-api.js:339 | with a colon in the method two different routes share a key |
| `RestApi.RegisterAllKeeps` | foundry-rest-api.js:223-234 | registering routes leaves every key none of them has as it was |
| `RestApi.RegisterAllLast` | foundry-rest-api.js:223-234 | a key registered several times holds the handler of the last registration |
| `RestApi.BuiltinTable` | foundry-rest-api.js:142-218 | `createEndpoints` on a fresh object leaves exactly the six GET routes, each under the key of its path |
| `RestApi.BuiltinEntries` | foundry-rest-api.js:142-218 | in that table each of the six keys holds its own route's handler |
| `RestApi.Dispatch` | foundry-rest-api.js:338-360 | `processRequest` throws only when no table exists; a missing key gives exactly `{success: false, error: 'Endpoint não encontrado', status: 404}`; a handler that throws gives exactly `{success: false, error: 'Erro interno do servidor', status: 500}`, whatever it threw; otherwise the handler's response is returned unchanged |
| `RestApi.BuiltinResolves` | foundry-rest-api.js:338-348 | with the built-in table, a request whose method has no colon resolves exactly when its method is GET and its path is one of the six registered strings, character for character |
| `RestApi.ConcreteActorPathMisses` | foundry-rest-api.js:338-348 | `GET /api/actors/<id>` for any id other than the literal `:id` gets the routing 404 |
| `RestApi.ListActorsRoute` | foundry-rest-api.js:156-164 | `GET /api/actors` answers the actors sanitized in order with `count` equal to the number of actors, or the 500 response when some actor has no `data` |
| `RestApi.ListItemsRoute` | foundry-rest-api.js:187-195 | `GET /api/items` answers the items sanitized in order with `count` equal to the number of items, or the 500 response when some item has no `data` |
| `RestApi.ListScenesRoute` | foundry-rest-api.js:198-206 | `GET /api/scenes` answers the scenes sanitized in order with `count` equal to the number of scenes, or the 500 response when some scene has no `data` |
| `RestApi.ListUsersRoute` | foundry-rest-api.js:209-217 | `GET /api/users` always answers the users sanitized in order with `count` equal to the number of users |
| `RestApi.ActorRouteUnknownId` | foundry-rest-api.js:167-177 | the literal `GET /api/actors/:id` with an unknown id returns the handler's own 404, which differs from the routing 404 |
| `RestApi.StatusRoute` | foundry-rest-api.js:144-153 | `GET /api/status` reports `online` and the number of users, or the 500 response when there is no world |
| `RestApi.ChosenToken` | foundry-rest-api.js:39 | `init` keeps a non-empty stored token verbatim and otherwise a generated credential; either way a non-empty string |
| `RestApi.FoundryRestApi.constructor` | foundry-rest-api.js:11-48 | without `game` the token stays null and no table exists; otherwise the token is the one `init` chooses, and the table holds exactly the built-in routes when the enable switch is truthy and does not exist when it is falsy |
| `RestApi.FoundryRestApi.Init` | foundry-rest-api.js:28-48 | returns without change when `game` is undefined; otherwise sets the token (stored setting if truthy, else a generated one) and starts the server |
| `RestApi.FoundryRestApi.StartRestServer` | foundry-rest-api.js:127-137 | a falsy enable setting leaves the table as it was (possibly nonexistent); a truthy one registers the built-in routes |
| `RestApi.FoundryRestApi.CreateEndpoints` | foundry-rest-api.js:142-218 | registers the six routes in source order on top of the current table |
| `RestApi.FoundryRestApi.CreateEndpoint` | foundry-rest-api.js:223-234 | creates the table if it does not exist, then maps `method:path` to the handler; every other key is unchanged and an earlier handler under the same key is replaced |
| `RestApi.FoundryRestApi.ValidateToken` | foundry-rest-api.js:331-333 | true exactly when the candidate strictly equals the stored token; it modifies nothing, so repeated calls agree |
| `RestApi.FoundryRestApi.ProcessRequest` | foundry-rest-api.js:338-360 | returns what `Dispatch` specifies for the current table |

## Left out

- `registerSettings`, `registerHooks`, the `ready` hook and `window.foundryRestApi`: these are calls into the Foundry host. The settings the code reads are the input `Settings`, and `game` being undefined is `None`.
- `notifyWebhook` and the lifecycle hooks that call it: it only writes to the console, so there is no delivery logic to model.
- `console.log` and `console.error`: logging only.
- `new Date().toISOString()`: the timestamp is the opaque input `now`, read once per request.
- `Math.random`: its draws are an input sequence of reals in [0, 1). Only the length and alphabet of the result are proved, not uniformity.
- CORS (`allowedOrigins`), the HTTP transport and `module.exports`: the code has no behaviour for them.
- The `this.endpoints` path dictionary, including `journal`: the code never reads it.
- Authentication per route: `processRequest` never calls `validateToken`, so the model does not either.
- Handlers registered by other code: `Handler` has only the six built-in handlers. `Dispatch` is stated for any table over them.
- Aliasing: sanitized records hold the host's own `flags` and `ownership` objects, not copies. Values here have no identity, so this sharing is not captured.
- Floating point: numbers are integers. Host numbers such as `width` are passed through untouched, and the layer only builds integer counts and status codes.
- Non-string method or path arguments: JavaScript converts them to strings in the template literal. The model takes strings.
- Asynchronous handlers: the code runs handlers synchronously inside the `try`.
