/**
 * The worker's `app.get` registrations, in the order they are made: the
 * service-info root, the purge route, then one registration per route-table
 * key carrying the cache middleware its tier calls for.
 */
module Registry {
  import opened Values
  import opened Routes
  import opened Tiers

  /** Which handler answers a registered template. */
  datatype Handler = ServiceInfo | ClearCache | RequestHandler

  /** One `app.get(template, [cache(duration),] handler)` call. */
  datatype Registration = Registration(template: string, cache: Option<string>, handler: Handler)

  /** The registrations the loop over the route table makes, in table order. */
  function Register(rs: seq<Route>): (regs: seq<Registration>)
    ensures |regs| == |rs|
    ensures forall i :: 0 <= i < |rs| ==> regs[i].template == rs[i].template
    ensures forall i :: 0 <= i < |rs| ==> regs[i].handler == RequestHandler
    ensures forall i :: 0 <= i < |rs| ==> regs[i].cache == Duration(Classify(rs[i].template))
  {
    if |rs| == 0 then []
    else [Registration(rs[0].template, Duration(Classify(rs[0].template)), RequestHandler)] + Register(rs[1..])
  }

  /**
   * Every registration a worker makes for route table `rs`, in order: the
   * service-info root cached for a day, the uncached purge route, then the
   * table's routes.
   */
  function Registrations(rs: seq<Route>): (regs: seq<Registration>)
    ensures |regs| == |rs| + 2
    ensures regs[0] == Registration("/", Duration(OneDay), ServiceInfo)
    ensures regs[1] == Registration(ClearTemplate, Duration(NoCache), ClearCache)
    ensures regs[2..] == Register(rs)
  {
    var fixed := [Registration("/", Some("1 day"), ServiceInfo), Registration(ClearTemplate, None, ClearCache)];
    assert (fixed + Register(rs))[2..] == Register(rs);
    fixed + Register(rs)
  }

  /** The templates of `rs` are distinct and differ from the root and the purge route. */
  predicate WellFormed(rs: seq<Route>) {
    && Distinct(rs)
    && (forall i :: 0 <= i < |rs| ==> rs[i].template != "/" && rs[i].template != ClearTemplate)
  }

  /** For a well-formed table no template string is registered twice. */
  lemma RegistrationsDistinct(rs: seq<Route>)
    requires WellFormed(rs)
    ensures forall i, j :: 0 <= i < j < |Registrations(rs)| ==>
                             Registrations(rs)[i].template != Registrations(rs)[j].template
  {
  }

  /** A registration that uses the request handler was made by the loop, for a route of `rs`. */
  lemma HandlerPosition(rs: seq<Route>, k: int)
    requires 0 <= k < |Registrations(rs)| && Registrations(rs)[k].handler == RequestHandler
    ensures 2 <= k && Registrations(rs)[k].template == rs[k - 2].template
  {
    var regs := Registrations(rs);
    assert regs[k] == regs[2..][k - 2];
  }

  /** Each route of `rs` is registered with the request handler and its tier's duration. */
  lemma RouteRegistered(rs: seq<Route>, i: int)
    requires 0 <= i < |rs|
    ensures Registration(rs[i].template, Duration(Classify(rs[i].template)), RequestHandler) in Registrations(rs)
  {
    assert Registrations(rs)[i + 2] == Registrations(rs)[2..][i];
  }

  /**
   * The request handler answers exactly the templates of `rs`, each cached
   * for the duration of its tier.
   */
  lemma HandlerRegistrations(rs: seq<Route>, t: string)
    ensures (exists r :: r in Registrations(rs) && r.template == t && r.handler == RequestHandler)
              <==> (exists i :: 0 <= i < |rs| && rs[i].template == t)
    ensures (exists i :: 0 <= i < |rs| && rs[i].template == t) ==>
              Registration(t, Duration(Classify(t)), RequestHandler) in Registrations(rs)
  {
    if i :| 0 <= i < |rs| && rs[i].template == t {
      RouteRegistered(rs, i);
    }
    if r :| r in Registrations(rs) && r.template == t && r.handler == RequestHandler {
      var k :| 0 <= k < |Registrations(rs)| && Registrations(rs)[k] == r;
      HandlerPosition(rs, k);
    }
  }

  /** The route table is well formed. */
  lemma TableWellFormed()
    ensures WellFormed(Table)
  {
    KeysDistinct();
    NotKeys();
    assert !IsKey("/");
  }
}
