/**
 * Per-request shaping in the shared request handler: the cache group a
 * summoner request is tagged with, the shape of the upstream call (the
 * status endpoint takes no options), and the JSON body built from the
 * upstream's `(err, data)` callback. The purge route's choice of group sits
 * here too, since it must name the same group the tagging step chose.
 */
module Dispatch {
  import opened Values
  import opened Text
  import opened Routes
  import opened Tiers

  /**
   * What Express hands the handler: the template it matched, the named path
   * parameters it bound, and the query-string parameters.
   */
  datatype Request = Request(template: string, params: map<string, string>, query: map<string, string>)

  /** JavaScript truthiness of the string `params[k]`: present and non-empty. */
  predicate Truthy(params: map<string, string>, k: string) {
    k in params && params[k] != ""
  }

  /**
   * Express binds exactly the placeholders of template `t`, each to a
   * non-empty path segment. Route matching is not modelled; this is what a
   * request reaching the handler for `t` is assumed to carry.
   */
  ghost predicate BindsTemplate(t: string, params: map<string, string>) {
    && (forall n :: n in params ==> DeclaresParam(t, n))
    && (forall n :: DeclaresParam(t, n) ==> Truthy(params, n))
  }

  /** A template whose requests are tagged with a cache group. */
  predicate Grouped(t: string) {
    IsPrefix("/summoner", t) && !LiveExcluded(t)
  }

  /**
   * `req.apicacheGroup`, as the handler assigns it (`None` when left
   * unset or set to `undefined`). The second test repeats the first, so
   * its branch is dead: the group is the id when truthy, else the name.
   */
  function CacheGroup(req: Request): (g: Option<string>)
    ensures g.Some? ==> Grouped(req.template)
    ensures Grouped(req.template) && Truthy(req.params, "id") ==> g == Some(req.params["id"])
    ensures Grouped(req.template) && !Truthy(req.params, "id") ==> g == Prop(req.params, "name")
  {
    var p := req.params;
    if StartsWith(req.template, "/summoner") && !EndsWith(req.template, "/currentGame") then
      if Truthy(p, "id") then Some(p["id"])
      else if Truthy(p, "id") then Prop(p, "id")
      else Prop(p, "name")
    else None
  }

  /** The leading segments of every id-keyed summoner template. */
  const IdPrefix: string := "/summoner/:id"

  /** A template whose first segments are exactly `/summoner/:id` declares the `id` placeholder. */
  lemma IdSegment(t: string)
    requires IsPrefix(IdPrefix, t) && (|t| == |IdPrefix| || t[|IdPrefix|] == '/')
    ensures DeclaresParam(t, "id")
  {
    assert PlaceholderAt(t, "id", |"/summoner/"|);
  }

  /** Only the entries of the summoner group are summoner routes. */
  lemma SummonerEntries(i: int)
    requires 0 <= i < |Table| && IsPrefix("/summoner", Table[i].template)
    ensures SummonersStart <= i
  {
    SummonerRoutesCachedOneDay();
    TableTiers();
  }

  /** The placeholders of the by-name route: `name` and not `id`. */
  lemma ByNamePlaceholders()
    ensures DeclaresParam(ByNameTemplate, "name")
    ensures !DeclaresParam(ByNameTemplate, "id")
  {
    var t := ByNameTemplate;
    var colon := |"/summoner/by-name/"|;
    assert PlaceholderAt(t, "name", colon);
    forall k | 0 < k < |t|
      ensures !PlaceholderAt(t, "id", k)
    {
      if k != colon {
        assert t[k] != ':';
      }
    }
  }

  /** The by-name route declares `name` and nothing else. */
  lemma ByNameDeclared(n: string)
    ensures DeclaresParam(ByNameTemplate, n) <==> n == "name"
  {
    var t := ByNameTemplate;
    var colon := |"/summoner/by-name/"|;
    assert PlaceholderAt(t, "name", colon);
    if k :| 0 < k < |t| && PlaceholderAt(t, n, k) {
      PlaceholderUnique(t, n, "name", k);
    }
  }

  /** The summoner routes other than by-name all start with the segments `/summoner/:id`. */
  lemma IdEntriesShape()
    ensures forall j :: 0 <= j < |Summoners| && Summoners[j].template != ByNameTemplate ==>
              IsPrefix(IdPrefix, Summoners[j].template)
    ensures forall j :: 0 <= j < |Summoners| && Summoners[j].template != ByNameTemplate ==>
              |Summoners[j].template| == |IdPrefix| || Summoners[j].template[|IdPrefix|] == '/'
  {
  }

  /** Every summoner template in the table declares an `id` or a `name` placeholder. */
  lemma SummonerPlaceholders(i: int)
    requires 0 <= i < |Table| && IsPrefix("/summoner", Table[i].template)
    ensures Table[i].template == ByNameTemplate || DeclaresParam(Table[i].template, "id")
    ensures DeclaresParam(Table[i].template, "id") || DeclaresParam(Table[i].template, "name")
  {
    SummonerEntries(i);
    TableLayout();
    assert Table[i] == Summoners[i - SummonersStart];
    if Table[i].template == ByNameTemplate {
      ByNamePlaceholders();
    } else {
      IdEntriesShape();
      IdSegment(Table[i].template);
    }
  }

  /**
   * A template that starts with the segments `/summoner/:id` and has no
   * further ':' declares `id` and nothing else.
   */
  lemma OnlyIdDeclared(t: string, n: string)
    requires IsPrefix(IdPrefix, t) && (|t| == |IdPrefix| || t[|IdPrefix|] == '/')
    requires forall k :: |IdPrefix| <= k < |t| ==> t[k] != ':'
    ensures DeclaresParam(t, n) <==> n == "id"
  {
    if n == "id" {
      IdSegment(t);
    }
    if k :| 0 < k < |t| && PlaceholderAt(t, n, k) {
      assert forall j :: 0 <= j < |IdPrefix| ==> t[j] == IdPrefix[j];
      assert k == |"/summoner/"|;
      assert t[k + 1..k + 3] == "id";
    }
  }

  /** The summoner routes with an `id` and no other placeholder. */
  predicate IdOnlyRoute(t: string) {
    IsPrefix(IdPrefix, t) && (|t| == |IdPrefix| || t[|IdPrefix|] == '/') && NoColonAfterId(t)
  }

  /** No ':' follows the leading `/summoner/:id`. */
  predicate NoColonAfterId(t: string) {
    forall k | |IdPrefix| <= k < |t| :: t[k] != ':'
  }

  /** The per-champion mastery route, the one summoner route with two placeholders. */
  const ChampIdTemplate: string := "/summoner/:id/championMastery/:champId"

  /** Every summoner route is the by-name route, the per-champion route, or an id-only route. */
  lemma SummonerRouteKind(i: int)
    requires 0 <= i < |Summoners|
    ensures var t := Summoners[i].template;
            t == ByNameTemplate || t == ChampIdTemplate || IdOnlyRoute(t)
  {
    IdEntriesShape();
    IdRoutesColonFree();
  }

  /** Past `/summoner/:id`, only the per-champion route has another placeholder. */
  lemma IdRoutesColonFree()
    ensures forall j :: (0 <= j < |Summoners| && Summoners[j].template != ByNameTemplate
                         && Summoners[j].template != ChampIdTemplate) ==> NoColonAfterId(Summoners[j].template)
  {
    EarlyColonFree();
    MiddleColonFree();
    LateColonFree();
  }

  /** The same fact over three slices of the summoner group, to keep each proof small. */
  lemma EarlyColonFree()
    ensures forall j :: 0 <= j < |Summoners| / 4 ==> NoColonAfterId(Summoners[j].template)
  {
  }

  lemma MiddleColonFree()
    ensures forall j :: |Summoners| / 4 <= j < |Summoners| / 2 && Summoners[j].template != ChampIdTemplate ==>
                        NoColonAfterId(Summoners[j].template)
  {
  }

  lemma LateColonFree()
    ensures forall j :: |Summoners| / 2 <= j < |Summoners| && Summoners[j].template != ByNameTemplate ==>
                        NoColonAfterId(Summoners[j].template)
  {
  }

  /**
   * The parameters Express binds on an id-only summoner route, `{id: x}`
   * with `x` the non-empty segment, meet the binding assumption.
   */
  lemma IdOnlyBinding(t: string, x: string)
    requires IdOnlyRoute(t) && x != ""
    ensures BindsTemplate(t, map["id" := x])
  {
    forall n | DeclaresParam(t, n) || n in map["id" := x]
      ensures DeclaresParam(t, n) && Truthy(map["id" := x], n)
    {
      OnlyIdDeclared(t, n);
    }
  }

  /** The two ':' of the per-champion route open its `id` and `champId` segments. */
  lemma ChampIdColons(k: int)
    requires 0 <= k < |ChampIdTemplate| && ChampIdTemplate[k] == ':'
    ensures k == |"/summoner/"| || k == |"/summoner/:id/championMastery/"|
  {
  }

  /** The placeholders of the per-champion route stand at its two ':'. */
  lemma ChampIdPlaceholders()
    ensures PlaceholderAt(ChampIdTemplate, "id", |"/summoner/"|)
    ensures PlaceholderAt(ChampIdTemplate, "champId", |"/summoner/:id/championMastery/"|)
  {
    var t := ChampIdTemplate;
    assert t[..|IdPrefix|] == IdPrefix;
    assert t[|"/summoner/:"|..|IdPrefix|] == IdPrefix[|"/summoner/:"|..];
    assert t[|"/summoner/:id/championMastery/:"|..] == "champId";
  }

  /** The per-champion route declares `id` and `champId` and nothing else. */
  lemma ChampIdDeclared(n: string)
    ensures DeclaresParam(ChampIdTemplate, n) <==> n == "id" || n == "champId"
  {
    var t := ChampIdTemplate;
    var first, second := |"/summoner/"|, |"/summoner/:id/championMastery/"|;
    ChampIdPlaceholders();
    if k :| 0 < k < |t| && PlaceholderAt(t, n, k) {
      ChampIdColons(k);
      if k == first {
        PlaceholderUnique(t, n, "id", k);
      } else {
        PlaceholderUnique(t, n, "champId", k);
      }
    }
  }

  /** Express's `{id: x, champId: y}` on the per-champion route meets the binding assumption. */
  lemma ChampIdBinding(x: string, y: string)
    requires x != "" && y != ""
    ensures BindsTemplate(ChampIdTemplate, map["id" := x, "champId" := y])
  {
    var p := map["id" := x, "champId" := y];
    forall n | DeclaresParam(ChampIdTemplate, n) || n in p
      ensures DeclaresParam(ChampIdTemplate, n) && Truthy(p, n)
    {
      ChampIdDeclared(n);
    }
  }

  /** For instance, `GET /summoner/42/matchList` binds `{id: "42"}`, which the assumption accepts. */
  lemma MatchListBinding()
    ensures BindsTemplate("/summoner/:id/matchList", map["id" := "42"])
  {
    IdOnlyBinding("/summoner/:id/matchList", "42");
  }

  /**
   * A grouped request whose template declares `id` is tagged with its id;
   * one whose template declares `name` but not `id` is tagged with its name.
   */
  lemma GroupFromPlaceholders(req: Request)
    requires Grouped(req.template) && BindsTemplate(req.template, req.params)
    requires DeclaresParam(req.template, "id") || DeclaresParam(req.template, "name")
    ensures CacheGroup(req).Some? && CacheGroup(req).value != ""
    ensures DeclaresParam(req.template, "id") ==> CacheGroup(req) == Some(req.params["id"])
    ensures !DeclaresParam(req.template, "id") ==> CacheGroup(req) == Some(req.params["name"])
  {
    if !DeclaresParam(req.template, "id") {
      assert !Truthy(req.params, "id");
    }
  }

  /** A summoner table key is grouped, and declares `id` unless it is the by-name route. */
  lemma SummonerKeyFacts(t: string)
    requires IsKey(t) && IsPrefix("/summoner", t)
    ensures Grouped(t)
    ensures t == ByNameTemplate || DeclaresParam(t, "id")
  {
    var i :| 0 <= i < |Table| && Table[i].template == t;
    SummonerPlaceholders(i);
    NoLiveKey();
    assert !LiveExcluded(Table[i].template);
  }

  /** A request to `/summoner/by-name/:name` is tagged with its name. */
  lemma ByNameGroup(req: Request)
    requires req.template == ByNameTemplate
    requires BindsTemplate(req.template, req.params)
    ensures "name" in req.params && req.params["name"] != ""
    ensures CacheGroup(req) == Some(req.params["name"])
  {
    ByNamePlaceholders();
    assert Grouped(req.template);
    GroupFromPlaceholders(req);
  }

  /**
   * Every summoner request the table can route is tagged with a non-empty
   * group: its `id`, or for `/summoner/by-name/:name` its `name`.
   */
  lemma SummonerRequestsGrouped(req: Request)
    requires IsKey(req.template) && IsPrefix("/summoner", req.template)
    requires BindsTemplate(req.template, req.params)
    ensures CacheGroup(req).Some? && CacheGroup(req).value != ""
    ensures req.template != ByNameTemplate ==>
              "id" in req.params && CacheGroup(req) == Some(req.params["id"])
  {
    SummonerKeyFacts(req.template);
    if req.template == ByNameTemplate {
      ByNameGroup(req);
    } else {
      GroupFromPlaceholders(req);
    }
  }

  /** Requests outside the summoner namespace are never tagged. */
  lemma OtherRequestsUngrouped(req: Request)
    requires !IsPrefix("/summoner", req.template)
    ensures CacheGroup(req) == None
  {
  }

  /**
   * The group `apicache.clear` purges for a request to the purge route: the
   * group a `/summoner/:id` request with the same non-empty id is tagged
   * with, or `undefined` (which purges every group) when no id is bound.
   */
  function ClearTarget(req: Request): (g: Option<string>)
    ensures g.None? <==> "id" !in req.params
    ensures Truthy(req.params, "id") ==> g == CacheGroup(Request(IdPrefix, req.params, req.query))
  {
    Prop(req.params, "id")
  }

  /**
   * Purging by summoner id reaches what was cached for that id: a request to
   * the purge route and a request to any id-bearing summoner route in the
   * table, with the same id, name the same group.
   */
  lemma ClearPurgesSameGroup(t: string, params: map<string, string>, query: map<string, string>,
                             clear: map<string, string>)
    requires IsKey(t) && IsPrefix("/summoner", t) && t != ByNameTemplate
    requires BindsTemplate(t, params)
    requires "id" in params && "id" in clear && clear["id"] == params["id"]
    ensures ClearTarget(Request(ClearTemplate, clear, query)) == CacheGroup(Request(t, params, query))
  {
    SummonerRequestsGrouped(Request(t, params, query));
  }

  /**
   * The parameters Express binds for a summoner route of the table when the
   * path carries `x` in the first placeholder's segment and `y` in the
   * per-champion route's second one.
   */
  function ExpressParams(t: string, x: string, y: string): map<string, string> {
    if t == ByNameTemplate then map["name" := x]
    else if t == ChampIdTemplate then map["id" := x, "champId" := y]
    else map["id" := x]
  }

  /** Express's parameters on every summoner route of the table meet the binding assumption. */
  lemma ExpressParamsBind(i: int, x: string, y: string)
    requires 0 <= i < |Summoners| && x != "" && y != ""
    ensures BindsTemplate(Summoners[i].template, ExpressParams(Summoners[i].template, x, y))
  {
    var t := Summoners[i].template;
    SummonerRouteKind(i);
    if t == ByNameTemplate {
      forall n | DeclaresParam(t, n) || n in map["name" := x]
        ensures DeclaresParam(t, n) && Truthy(map["name" := x], n)
      {
        ByNameDeclared(n);
      }
    } else if t == ChampIdTemplate {
      ChampIdBinding(x, y);
    } else {
      IdOnlyBinding(t, x);
    }
  }

  /**
   * Every real request to a summoner route of the table is tagged with the
   * value in its first placeholder's segment: the id, or on the by-name
   * route the name.
   */
  lemma ExpressRequestsGrouped(i: int, x: string, y: string, query: map<string, string>)
    requires 0 <= i < |Summoners| && x != "" && y != ""
    ensures CacheGroup(Request(Summoners[i].template, ExpressParams(Summoners[i].template, x, y), query)) == Some(x)
  {
    var t := Summoners[i].template;
    SummonerKey(i);
    SummonerKeyFacts(t);
    ExpressParamsGroup(t, x, y, query);
  }

  /** A grouped request carrying Express's parameters is tagged with `x`. */
  lemma ExpressParamsGroup(t: string, x: string, y: string, query: map<string, string>)
    requires Grouped(t) && x != ""
    ensures CacheGroup(Request(t, ExpressParams(t, x, y), query)) == Some(x)
  {
    var p := ExpressParams(t, x, y);
    if t == ByNameTemplate {
      assert "id" !in p && p["name"] == x;
    } else {
      assert Truthy(p, "id") && p["id"] == x;
    }
  }

  /** A summoner route is a table key under `/summoner`. */
  lemma SummonerKey(i: int)
    requires 0 <= i < |Summoners|
    ensures IsKey(Summoners[i].template) && IsPrefix("/summoner", Summoners[i].template)
  {
    TableLayout();
    assert Table[SummonersStart + i] == Summoners[i];
    SummonersShape();
    PrefixOfPrefix("/summoner", "/", Summoners[i].template);
  }

  /**
   * Purging with id `x` reaches every real request with id `x` to an
   * id-bearing summoner route of the table.
   */
  lemma ExpressClearPurges(i: int, x: string, y: string, query: map<string, string>, clearQuery: map<string, string>)
    requires 0 <= i < |Summoners| && Summoners[i].template != ByNameTemplate && x != "" && y != ""
    ensures BindsTemplate(ClearTemplate, map["id" := x])
    ensures ClearTarget(Request(ClearTemplate, map["id" := x], clearQuery))
              == CacheGroup(Request(Summoners[i].template, ExpressParams(Summoners[i].template, x, y), query))
  {
    assert IdOnlyRoute(ClearTemplate);
    IdOnlyBinding(ClearTemplate, x);
    ExpressRequestsGrouped(i, x, y, query);
  }

  /** `/^\/status\/?$/.test(t)`: the endpoint whose upstream method takes no options. */
  function NoOpt(t: string): (r: bool)
    ensures r <==> t == "/status" || t == "/status/"
  {
    StartsWith(t, "/status") && (|t| == 7 || (|t| == 8 && t[7] == '/'))
  }

  /** Over the table, only `/status` is a no-options endpoint. */
  lemma NoOptOnlyStatus()
    ensures forall i :: 0 <= i < |Table| ==> (NoOpt(Table[i].template) <==> i == StatusIndex)
  {
    KeysDistinct();
    assert Table[StatusIndex].template == "/status";
    assert forall i :: 0 <= i < |Table| ==> Table[i].template != "/status/";
  }

  /**
   * `XP.merge({}, req.query, req.params)`, taken to be a key-wise union in
   * which a path parameter wins over a query parameter of the same name
   * (the library is not part of this model).
   */
  function MergeOptions(query: map<string, string>, params: map<string, string>): (opt: map<string, string>)
    ensures forall k :: k in opt <==> k in query || k in params
    ensures forall k :: k in params ==> opt[k] == params[k]
    ensures forall k :: k in query && k !in params ==> opt[k] == query[k]
  {
    query + params
  }

  /** An argument of the upstream call. */
  datatype Arg = Options(opts: map<string, string>) | Callback | Null

  /** `api[operation](first, second)`. */
  datatype UpstreamCall = UpstreamCall(operation: string, first: Arg, second: Arg)

  /** What the handler does with a request: tag it, then call upstream. */
  datatype Dispatched = Dispatched(group: Option<string>, call: UpstreamCall)

  /**
   * The request handler up to the upstream call. `None` when the template
   * has no upstream method: `api[undefined](…)` throws. With no options the
   * callback goes first and `null` second; otherwise the merged options go
   * first and the callback second.
   */
  function Handle(req: Request): (r: Option<Dispatched>)
    ensures r.Some? <==> IsKey(req.template)
    ensures r.Some? ==> Route(req.template, r.value.call.operation) in Table
    ensures r.Some? ==> r.value.group == CacheGroup(req)
    ensures r.Some? && NoOpt(req.template) ==> r.value.call.first == Callback && r.value.call.second == Null
    ensures r.Some? && !NoOpt(req.template) ==>
              r.value.call.first == Options(MergeOptions(req.query, req.params)) && r.value.call.second == Callback
  {
    var group := CacheGroup(req);
    var opt := Options(MergeOptions(req.query, req.params));
    var noOpt := NoOpt(req.template);
    match Lookup(req.template)
    case None => None
    case Some(operation) =>
      var first := if noOpt then Callback else opt;
      var second := if noOpt then Null else Callback;
      Some(Dispatched(group, UpstreamCall(operation, first, second)))
  }

  /**
   * Every table route dispatches to its own upstream method; `/status`
   * passes the callback first and `null` second, every other route passes
   * its merged options and then the callback.
   */
  lemma TableDispatch(i: int, params: map<string, string>, query: map<string, string>)
    requires 0 <= i < |Table|
    ensures var r := Handle(Request(Table[i].template, params, query));
            && r.Some?
            && r.value.call.operation == Table[i].operation
            && (i == StatusIndex <==> r.value.call.first == Callback)
            && (i == StatusIndex <==> r.value.call.second == Null)
            && (i != StatusIndex ==> r.value.call.first == Options(MergeOptions(query, params)))
  {
    LookupReturnsEntry(i);
    NoOptOnlyStatus();
  }

  /**
   * The error the upstream client passes to the callback. Either property
   * may be `undefined` (`None`).
   */
  datatype UpstreamError = UpstreamError(code: Option<Json>, message: Option<Json>)

  /** The names of the members an error's serialised body holds. */
  function ErrorNames(e: UpstreamError): seq<string> {
    (if e.code.Some? then ["code"] else []) + (if e.message.Some? then ["message"] else [])
  }

  /** A JSON member for a property that may be `undefined`, which serialisation drops. */
  function Defined(k: string, v: Option<Json>): seq<(string, Json)> {
    match v
    case Some(j) => [(k, j)]
    case None => []
  }

  /**
   * The callback `cb(err, data)`: an error becomes an object holding just
   * its code and message, in that order, each only when defined;
   * otherwise the data goes out unchanged.
   */
  function Respond(err: Option<UpstreamError>, data: Json): (body: Json)
    ensures err.Some? ==> body.JObject? && Names(body) == ErrorNames(err.value)
    ensures err.Some? ==> Field(body, "code") == err.value.code
    ensures err.Some? ==> Field(body, "message") == err.value.message
    ensures err.None? ==> body == data
  {
    match err
    case Some(e) => JObject(Defined("code", e.code) + Defined("message", e.message))
    case None => data
  }

  /** Reads an error body back: its `code` and `message` members, if any. */
  function ReadError(body: Json): Option<UpstreamError> {
    if body.JObject? then Some(UpstreamError(Field(body, "code"), Field(body, "message"))) else None
  }

  /**
   * An error response carries the error exactly and nothing of the data:
   * reading it back gives the error, whatever the data was.
   */
  lemma ErrorRoundTrip(e: UpstreamError, d1: Json, d2: Json)
    ensures ReadError(Respond(Some(e), d1)) == Some(e)
    ensures Respond(Some(e), d1) == Respond(Some(e), d2)
  {
  }
}
