/**
 * End-to-end behaviour of the registry and the read loop together, for
 * routes registered under their own ids (`CheckAndSetRouterId` keeps a
 * non-empty id). Frames are parameters; what the regular-expression engine
 * says about them is stated in the requires clauses.
 */
module Scenarios {
  import opened Wrappers
  import opened Bytes
  import opened NetTypes
  import opened Registry
  import opened ReadLoop
  import Regex

  function OwnId(r: Router): string {
    r.id
  }

  /**
   * Route "a" with pattern `^ERR`: an error line reaches "a", an info line
   * reaches no route, a heartbeat is not dispatched at all; once "a" is
   * removed an error line reaches no route and nothing fails.
   */
  lemma ErrorRouteScenario(engine: Regex.Engine, cfg: Config, conn: Connection, target: string,
                           errLine: Bytes, infoLine: Bytes, ping: Bytes, errAgain: Bytes)
    requires cfg.readTimeout == 0
    requires engine.compileError("^ERR").None?
    requires engine.matches("^ERR", errLine) && !engine.matches("^ERR", infoLine)
    requires Str(errLine) != PingData && Str(infoLine) != PingData && Str(ping) == PingData
    requires Str(errAgain) != PingData
    ensures var added := Add(None, Some(Router("a", "^ERR", target)), engine, OwnId);
      added.err == None && added.id == "a" &&
      Run(cfg, added.routers, engine, conn, false,
          [Read(false, Line(errLine)), Read(false, Line(infoLine)), Read(false, Line(ping))]) ==
        Ran([Dispatch(errLine, InboundMsg(conn, errLine), {"a"}),
             Dispatch(infoLine, InboundMsg(conn, infoLine), {})], false)
    ensures var added := Add(None, Some(Router("a", "^ERR", target)), engine, OwnId);
      var removed := Remove(added.routers, "a");
      removed.err == None &&
      Run(cfg, removed.routers, engine, conn, false, [Read(false, Line(errAgain))]) ==
        Ran([Dispatch(errAgain, InboundMsg(conn, errAgain), {})], false)
  {
    var added := Add(None, Some(Router("a", "^ERR", target)), engine, OwnId);
    assert Targets(added.routers, engine, errLine) == {"a"};
    assert Targets(added.routers, engine, infoLine) == {};
    var events := [Read(false, Line(errLine)), Read(false, Line(infoLine)), Read(false, Line(ping))];
    var r := added.routers;
    assert events[1..] == [Read(false, Line(infoLine)), Read(false, Line(ping))];
    assert events[1..][1..] == [Read(false, Line(ping))];
    assert events[1..][1..][1..] == [];
    assert Run(cfg, r, engine, conn, false, events[1..][1..]) == Ran([], false);
    assert Run(cfg, r, engine, conn, false, events[1..]) ==
      Ran([Dispatch(infoLine, InboundMsg(conn, infoLine), {})], false);
    var removed := Remove(added.routers, "a");
    assert Targets(removed.routers, engine, errAgain) == {};
  }

  /** A catch-all route and a `^X` route: "Xyz" reaches both, "abc" only the catch-all. */
  lemma CatchAllScenario(engine: Regex.Engine, target: string, xyz: Bytes, abc: Bytes)
    requires engine.compileError("^X").None?
    requires engine.matches("^X", xyz) && !engine.matches("^X", abc)
    ensures var first := Add(None, Some(Router("catch-all", "", target)), engine, OwnId);
      var second := Add(first.routers, Some(Router("x", "^X", target)), engine, OwnId);
      first.err == None && second.err == None &&
      Targets(second.routers, engine, xyz) == {"catch-all", "x"} &&
      Targets(second.routers, engine, abc) == {"catch-all"}
  {
  }
}
