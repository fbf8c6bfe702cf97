/**
 * The route registry `Net.routers`: a map from route id to `RegexpRouter`,
 * or Go's nil map (`None`) before the first route is added. These functions
 * say what adding, removing and matching do; the methods of `Net` are proved
 * against them.
 */
module Registry {
  import opened Wrappers
  import opened Bytes
  import opened NetTypes
  import Regex

  type Routes = map<string, RegexpRouter>

  /** The entries of the registry; a nil map has none. */
  function Entries(t: Option<Routes>): Routes {
    t.GetOr(map[])
  }

  /** The compiled pattern stored for an expression: the empty expression is stored as "match all". */
  function Pattern(expr: string): Option<Regex.Matcher> {
    if expr == "" then None else Some(Regex.Matcher(expr))
  }

  /** An expression is accepted when it is empty or compiles. */
  predicate Compiles(engine: Regex.Engine, expr: string) {
    expr == "" || Regex.Compile(engine, expr).Success?
  }

  /** What `AddRouter` stores under `id` for `router`: the entry's own id field stays empty. */
  function Entry(router: Router): RegexpRouter {
    RegexpRouter("", router, Pattern(router.from))
  }

  /**
   * Every entry is keyed by its router's id, leaves its own id field empty
   * and holds the pattern compiled from its router's expression.
   */
  ghost predicate WellFormed(t: Option<Routes>) {
    forall k | k in Entries(t) :: Entries(t)[k] == Entry(Entries(t)[k].router) && Entries(t)[k].router.id == k
  }

  /** The registry after `AddRouter`, with the id and error it returns. */
  datatype Added = Added(routers: Option<Routes>, id: string, err: Option<Error>)

  /**
   * `AddRouter(router)`; `checkAndSetId` is the id `CheckAndSetRouterId`
   * leaves on the router.
   */
  function Add(t: Option<Routes>, router: Option<Router>, engine: Regex.Engine,
               checkAndSetId: Router -> string): (o: Added)
    // any failure leaves the registry as it was
    ensures o.err.Some? ==> o.routers == t
    // the three failures, in the order they are detected
    ensures router.None? ==> o.id == "" && o.err == Some(RouterNil)
    ensures router.None? ==> ErrorText(o.err.value) == "router can not nil"
    ensures router.Some? && !Compiles(engine, router.value.from) ==>
      o.id == "" && o.err == Some(CompileFailed(Regex.Compile(engine, router.value.from).error))
    ensures router.Some? && Compiles(engine, router.value.from) ==>
      o.id == checkAndSetId(router.value) &&
      (o.id in Entries(t) <==> o.err == Some(DuplicateRouter(router.value.from))) &&
      (o.id in Entries(t) ==> ErrorText(o.err.value) == "duplicate router " + router.value.from)
    // success adds exactly one entry, under the returned id, and touches no other
    ensures o.err.None? <==> router.Some? && Compiles(engine, router.value.from) && o.id !in Entries(t)
    ensures o.err.None? ==>
      o.routers == Some(Entries(t)[o.id := Entry(router.value.(id := o.id))]) &&
      |Entries(o.routers)| == |Entries(t)| + 1
    ensures WellFormed(t) ==> WellFormed(o.routers)
  {
    if router.None? then Added(t, "", Some(RouterNil))
    else
      var expr := router.value.from;
      if expr != "" && Regex.Compile(engine, expr).Failure? then
        Added(t, "", Some(CompileFailed(Regex.Compile(engine, expr).error)))
      else
        var r := router.value.(id := checkAndSetId(router.value));
        var m := Entries(t);
        if r.id in m then Added(Some(m), r.id, Some(DuplicateRouter(expr)))
        else Added(Some(m[r.id := RegexpRouter("", r, Pattern(expr))]), r.id, None)
  }

  /** The registry after `RemoveRouter`, with the error it returns. */
  datatype Removed = Removed(routers: Option<Routes>, err: Option<Error>)

  /** `RemoveRouter(id)`. */
  function Remove(t: Option<Routes>, id: string): (o: Removed)
    // "not found" is reported only by a registry that exists
    ensures o.err.Some? <==> t.Some? && id !in t.value
    ensures o.err.Some? ==> o.err == Some(RouterNotFound(id)) && o.routers == t
    ensures o.err.Some? ==> ErrorText(o.err.value) == "router: " + id + " not found"
    ensures o.routers.Some? <==> t.Some?
    // afterwards the id is gone and every other entry is as it was
    ensures id !in Entries(o.routers)
    ensures Entries(o.routers).Keys == Entries(t).Keys - {id}
    ensures forall k | k in Entries(o.routers) :: Entries(o.routers)[k] == Entries(t)[k]
    ensures WellFormed(t) ==> WellFormed(o.routers)
  {
    if t.Some? then
      if id in t.value then Removed(Some(t.value - {id}), None)
      else Removed(t, Some(RouterNotFound(id)))
    else Removed(t, None)
  }

  /** Whether a frame is handed to an entry: its pattern is "match all" or matches the bytes. */
  predicate Selects(engine: Regex.Engine, v: RegexpRouter, data: Bytes) {
    v.regexp.None? || Regex.Matches(engine, v.regexp.value, data)
  }

  /** The ids of the routes a frame is dispatched to. */
  function Targets(t: Option<Routes>, engine: Regex.Engine, data: Bytes): set<string> {
    set k | k in Entries(t) && Selects(engine, Entries(t)[k], data)
  }

  /** A frame only reaches registered routes; a nil registry has none. */
  lemma TargetsAreRegistered(t: Option<Routes>, engine: Regex.Engine, data: Bytes)
    ensures Targets(t, engine, data) <= Entries(t).Keys
    ensures t.None? ==> Targets(t, engine, data) == {}
  {
  }

  /** A route registered with the empty expression receives every frame. */
  lemma EmptyExpressionMatchesAll(t: Option<Routes>, engine: Regex.Engine, id: string, data: Bytes)
    requires WellFormed(t)
    requires id in Entries(t) && Entries(t)[id].router.from == ""
    ensures id in Targets(t, engine, data)
  {
  }

  /** A route with a non-empty expression receives exactly the frames its pattern matches. */
  lemma PatternRouteMatchesOnly(t: Option<Routes>, engine: Regex.Engine, id: string, data: Bytes)
    requires WellFormed(t)
    requires id in Entries(t) && Entries(t)[id].router.from != ""
    ensures id in Targets(t, engine, data) <==> engine.matches(Entries(t)[id].router.from, data)
  {
  }

  /** Two routes added under different ids both stay registered. */
  lemma DistinctRoutesCoexist(t: Option<Routes>, r1: Router, r2: Router, engine: Regex.Engine,
                              checkAndSetId: Router -> string)
    requires Add(t, Some(r1), engine, checkAndSetId).err.None?
    requires checkAndSetId(r1) != checkAndSetId(r2)
    requires Add(Add(t, Some(r1), engine, checkAndSetId).routers, Some(r2), engine, checkAndSetId).err.None?
    ensures var o := Add(Add(t, Some(r1), engine, checkAndSetId).routers, Some(r2), engine, checkAndSetId);
      checkAndSetId(r1) in Entries(o.routers) && checkAndSetId(r2) in Entries(o.routers) &&
      Entries(o.routers)[checkAndSetId(r1)] == Entry(r1.(id := checkAndSetId(r1)))
  {
  }

  /** A duplicate id leaves the entry registered first, its router and its pattern, in place. */
  lemma DuplicateKeepsOriginal(t: Option<Routes>, router: Router, engine: Regex.Engine,
                               checkAndSetId: Router -> string)
    requires Compiles(engine, router.from) && checkAndSetId(router) in Entries(t)
    ensures var o := Add(t, Some(router), engine, checkAndSetId);
      o.id == checkAndSetId(router) && o.err.Some? &&
      Entries(o.routers)[o.id] == Entries(t)[o.id]
  {
  }

  /** After a route is removed no frame is dispatched to it. */
  lemma RemovedRouteReceivesNothing(t: Option<Routes>, engine: Regex.Engine, id: string, data: Bytes)
    ensures id !in Targets(Remove(t, id).routers, engine, data)
  {
  }
}
