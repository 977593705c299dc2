# Routing policy of the League of Legends API gateway

This project models, in Dafny, the routing policy of the gateway in `app.js`.
The gateway is an Express server that fronts the Riot game-data API. It has a
fixed route table from Express path templates to methods of the upstream
client. Each route gets a response-cache tier chosen from its template alone.
The shared request handler does three things per request: it tags summoner
requests with a cache group, it shapes the upstream call, and it turns the
upstream's `(err, data)` callback into a JSON body.

Modules:

- `Text` (`text.dfy`): `startsWith`/`endsWith` as character-by-character
  functions proved equal to slice-based prefix and suffix predicates, and the
  `:name` placeholders of a path template.
- `Values` (`values.dfy`): `Option` (JavaScript's `undefined` is `None`), JSON
  values, and member lookup on JSON objects.
- `Routes` (`routes.dfy`): the route table, in source order and split into its
  four namespace groups, plus `routes[template]` lookup.
- `Tiers` (`tiers.dfy`): the first-match cache-tier classification and its
  consequences over the table.
- `Dispatch` (`dispatch.dfy`): cache-group derivation, the purge route's group,
  detection of the no-options `/status` endpoint, the shape of the upstream
  call, and response shaping.
- `Registry` (`registry.dfy`): the ordered `app.get` registrations a worker
  makes.

Two behaviours of the code are easy to misread:

- The live-game route is cached. The never-cache exclusion tests for the
  suffix `/currentGame`, but the live route in the table is
  `/summoner/:id/activeGame`. No table key ends in `/currentGame`, so every
  summoner route, the live one included, gets the one-day tier
  (`Tiers.ActiveGameCachedOneDay`).
- The group derivation tests `req.params.id` twice. The second branch is
  dead, so the group is the id when it is non-empty and the name otherwise.
  `Dispatch.CacheGroup` keeps the repeated test; its contract states the
  simplified rule.

Assumptions the model makes explicitly:

- Express binds exactly the placeholders of the matched template, each to a
  non-empty segment (`Dispatch.BindsTemplate`). A placeholder is a `:name`
  segment whose name is non-empty and holds no `/`. Lemmas about the groups
  of routed requests take this as a precondition.
  `Dispatch.ExpressParamsBind` shows that the parameters Express binds on
  every summoner route of the table meet it: `{id}`, `{id, champId}` or
  `{name}`.
- `XP.merge({}, query, params)` is a key-wise union in which a path parameter
  overrides a query parameter of the same name (`Dispatch.MergeOptions`).

## Model

| member | source | states |
|---|---|---|
| Text.StartsWith | app.js:60 | the character-by-character `startsWith` is true exactly when the pattern is a prefix (a leading slice) of the template |
| Text.EndsWith | app.js:147 | the character-by-character `endsWith` is true exactly when the pattern is a suffix (a trailing slice) of the template |
| Routes.Lookup | app.js:71 | `routes[t]` is defined exactly when `t` is a table key, and the method it returns is the one the table pairs with `t` |
| Routes.KeysDistinct | app.js:21-55 | no two table entries share a template, so the object literal keeps all 33 entries |
| Routes.LookupReturnsEntry | app.js:71 | looking up the template of any table entry yields that entry's own method, so lookup is a function of the template |
| Routes.LookupSummonerById | app.js:49 | `/summoner/:id` maps to `getSummonerById` |
| Routes.LookupChampionById | app.js:27 | `/static/champions/:id` maps to `getChampionDataById` |
| Routes.LookupSummonerByName | app.js:50 | `/summoner/by-name/:name` maps to `getSummonerByName` |
| Routes.LookupMisses | app.js:138 | the purge route `/summoner/:id/clear` and an unmapped path are not table keys; looking them up yields `undefined` |
| Tiers.Classify | app.js:146-156 | every template gets exactly one tier: one day for a `/summoner` or `/team` prefix unless it is a summoner route ending `/currentGame`; twelve hours for a `/static`, `/champions`, `/leagues` or `/match` prefix; otherwise no cache. Stated without the branch order |
| Tiers.FamiliesDisjoint | app.js:149-151 | no template has both an identity prefix and a reference-data prefix, so the order of those two branches does not matter |
| Tiers.NoLiveKey | app.js:43-54 | no key of the table ends in `/currentGame` |
| Tiers.SummonerRoutesCachedOneDay | app.js:147-150 | every `/summoner` template in the table gets the one-day tier |
| Tiers.ActiveGameCachedOneDay | app.js:43 | the live-game route `/summoner/:id/activeGame` gets the one-day tier, not the uncached one |
| Tiers.ReferenceRoutesCachedTwelveHours | app.js:151-152 | every template under `/static/`, `/leagues/` or `/match/` gets the twelve-hour tier |
| Tiers.UncachedRoutes | app.js:153-154 | `/status` and `/featuredGames` fall through to the uncached branch |
| Tiers.Duration | app.js:148-154 | only the uncached tier registers a route without the cache middleware; the two cached tiers pass `12 hours` and `1 day` |
| Tiers.DurationNamesTier | app.js:150-152 | the two cached tiers pass different durations, so the duration a route is registered with determines its tier |
| Tiers.TableTiers | app.js:146-156 | over the table, exactly `/featuredGames` (the first entry) and `/status` are uncached, the other entries before `/status` get twelve hours and the summoner entries after it get one day |
| Dispatch.CacheGroup | app.js:60-68 | a group is set only for a `/summoner` template not ending `/currentGame`; it is the `id` parameter when non-empty, otherwise the `name` parameter (`undefined` when absent) |
| Dispatch.GroupFromPlaceholders | app.js:61-67 | a grouped request whose template declares `:id` gets its id; one that declares `:name` but not `:id` gets its name; the group is never empty |
| Dispatch.SummonerRequestsGrouped | app.js:60-67 | every routed request to a summoner table template is tagged with a non-empty group, and that group is its id except on the by-name route |
| Dispatch.ByNameGroup | app.js:65-67 | a request to `/summoner/by-name/:name` is tagged with its `name` value |
| Dispatch.OtherRequestsUngrouped | app.js:60 | a request whose template does not start with `/summoner` gets no group |
| Dispatch.ClearTarget | app.js:139 | the purge route passes `undefined` (purging every group) exactly when no `id` is bound; with a non-empty id it names the group a `/summoner/:id` request with that id is tagged with |
| Dispatch.ClearPurgesSameGroup | app.js:138-139 | the purge route with id `x` names the same group that requests to any id-bearing summoner route with id `x` are tagged with |
| Text.PlaceholderUnique | app.js:43-54 | the name of a placeholder is fixed by the position of its `:`, since no name holds `/` |
| Dispatch.OnlyIdDeclared | app.js:43-54 | a template that starts with the segments `/summoner/:id` and has no further `:` declares `id` and nothing else |
| Dispatch.ChampIdDeclared | app.js:48 | `/summoner/:id/championMastery/:champId` declares exactly `id` and `champId` |
| Dispatch.ByNameDeclared | app.js:50 | `/summoner/by-name/:name` declares exactly `name` |
| Dispatch.SummonerRouteKind | app.js:43-54 | every summoner route is the by-name route, the per-champion route, or a route whose only placeholder is `id` |
| Dispatch.IdOnlyBinding | app.js:43-54 | on a route whose only placeholder is `id`, Express's `{id: x}` with `x` non-empty meets the binding assumption |
| Dispatch.ChampIdBinding | app.js:48 | on the per-champion route, Express's `{id, champId}` meets the binding assumption |
| Dispatch.MatchListBinding | app.js:44 | `GET /summoner/42/matchList` binds `{id: "42"}`, which meets the binding assumption |
| Dispatch.ExpressParamsBind | app.js:43-54 | the parameters Express binds on each of the twelve summoner routes meet the binding assumption |
| Dispatch.ExpressRequestsGrouped | app.js:60-67 | every real request to a summoner route of the table is tagged with the value of its first placeholder: the id, or the name on the by-name route |
| Dispatch.ExpressClearPurges | app.js:138-139 | purging with id `x` names the group of every real request with id `x` to an id-bearing summoner route |
| Dispatch.NoOpt | app.js:72-73 | the no-options test holds exactly for the templates `/status` and `/status/` |
| Dispatch.NoOptOnlyStatus | app.js:42 | among table keys only `/status` is a no-options endpoint |
| Dispatch.MergeOptions | app.js:70 | the merged options hold every query and path key; a path parameter's value wins over a query parameter of the same name |
| Dispatch.Handle | app.js:58-86 | a request on a table key calls that key's method and is tagged with its derived group; on `/status` the callback goes first and `null` second, otherwise the merged options go first and the callback second; a non-key has no method to call |
| Dispatch.TableDispatch | app.js:82-85 | every table route dispatches to its own method; only the `/status` entry passes the callback first and `null` second |
| Dispatch.Respond | app.js:74-80 | with an error the body is an object whose members are `code` and then `message`, each present exactly when the error defines it and holding the error's value; without an error the body is the data unchanged |
| Dispatch.ErrorRoundTrip | app.js:75-76 | an error body reads back as the same error, undefined properties included, and does not depend on the data |
| Registry.Register | app.js:146-156 | the loop makes one request-handler registration per table entry, in table order, with the cache duration of that entry's tier |
| Registry.Registrations | app.js:128-156 | a worker registers the root with the one-day cache first, then the uncached purge route, then the table's routes in order; nothing else |
| Registry.RegistrationsDistinct | app.js:128-156 | for a table whose keys are distinct and differ from `/` and the purge route, no template is registered twice |
| Registry.HandlerRegistrations | app.js:146-156 | the request handler is registered for exactly the table's templates, each with its tier's cache duration |
| Registry.TableWellFormed | app.js:21-55 | the table's keys are distinct and none is `/` or the purge route |

## Left out

- Process supervisor (the `cluster.fork` loop and respawn on exit, app.js:92-98 and 186-188): process lifecycle and concurrency, not routing logic.
- Response cache behaviour (TTL expiry, status-code include and exclude lists, `apicache.clear` purging): these live inside the `apicache` library, which is not part of this model. The tier's duration string and the group are treated as outputs handed to that cache.
- Rate limiting (app.js:105-110): only configuration of `express-rate-limit`, whose windowing logic is not part of this model.
- Express template matching, parameter extraction and middleware order, including the 404, 500 and 429 handlers (app.js:159-176): these are Express semantics. Parameter binding appears only as the assumption `Dispatch.BindsTemplate`. Because Express answers with the first registration whose pattern matches, distinct template strings can still shadow one another: the purge route `/summoner/:id/clear` answers `GET /summoner/by-name/clear` with id `by-name`, and `/summoner/:id/activeGame`, `/matchList`, `/recentGames` and `/championMastery`, registered before the by-name route, answer `/summoner/by-name/` followed by those words. The model does not state which registration answers a concrete path.
- Routes.Lookup: only own keys of the route table are modelled. In JavaScript, `routes[t]` is also defined for names inherited from `Object.prototype`, such as `constructor`, `toString` or `__proto__`, and the model returns `undefined` for them. The request handler is registered only for table keys (app.js:146-156), so it never looks such a name up.
- JSON numbers are modelled as exact reals; floating-point rounding in serialisation is not modelled, since no part of the core computes on numbers.
- Dispatch.MergeOptions: models `XP.merge` by an assumed rule (path parameters override query parameters), because the expandjs library is not part of this model.
- Dispatch.Respond: `err` is either absent or an error object whose `code` and `message` are undefined or JSON values; other falsy values a client might pass as `err`, and an undefined `data` (for which `res.json` sends an empty body), are not modelled.
- Dispatch.Handle: stops at the shape of the upstream call. The upstream client (`lol-riot-api-module`) is not part of this model, and neither is the `TypeError` that calling an undefined method would throw.
- The service-info body of `/` and the `{message: "Cache cleared"}` body of the purge route are constants; only the purge route's choice of group is modelled.
- Configuration and I/O: the `.env` check, the interactive prompt, `dotenv`, `cors`, `helmet`, trust-proxy and `listen` (app.js:100-125, 178-231).
