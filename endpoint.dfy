/**
 * The network endpoint `Net`: its configuration, its listener and its route
 * registry, updated in place by the lifecycle and routing methods, and the
 * per-connection read loop, proved against the specifications of the
 * `Registry` and `ReadLoop` modules.
 */
module Endpoint {
  import opened Wrappers
  import opened Bytes
  import opened NetTypes
  import opened Registry
  import opened Message
  import opened ReadLoop
  import Regex

  /** The configuration `New` starts from: tcp, port 6335, a 60-second read timeout. */
  function DefaultConfig(): Config {
    Config(DefaultProtocol, DefaultServer, DefaultReadTimeout)
  }

  /** The configuration after `Init`'s merge: an empty protocol falls back to tcp. */
  function WithProtocol(c: Config): (r: Config)
    ensures r.protocol != ""
    ensures c.protocol != "" ==> r == c
    ensures c.protocol == "" ==> r == c.(protocol := DefaultProtocol)
  {
    if c.protocol == "" then c.(protocol := DefaultProtocol) else c
  }

  class Net {
    var config: Config
    var ruleConfig: RuleConfig
    var listener: Option<Listener>
    var routers: Option<Routes>

    ghost predicate Valid()
      reads this
    {
      WellFormed(routers)
    }

    /** `New()`: the defaults, no listener and no registry yet. */
    constructor New()
      ensures Valid()
      ensures config == DefaultConfig()
      ensures ruleConfig == RuleConfig(false) && listener == None && routers == None
    {
      config := Config(DefaultProtocol, DefaultServer, DefaultReadTimeout);
      ruleConfig := RuleConfig(false);
      listener := None;
      routers := None;
    }

    /**
     * `Init(ruleConfig, configuration)`. `merged` and `mergeErr` are what
     * `maps.Map2Struct` leaves in the configuration and returns; the
     * protocol default applies even when the merge failed.
     */
    method Init(rc: RuleConfig, merged: Config, mergeErr: Option<Error>) returns (err: Option<Error>)
      modifies this`config, this`ruleConfig
      ensures config == WithProtocol(merged)
      ensures ruleConfig == rc
      ensures err == mergeErr
    {
      config := merged;
      if config.protocol == "" {
        config := config.(protocol := DefaultProtocol);
      }
      ruleConfig := rc;
      err := mergeErr;
    }

    /**
     * `Start()`, given what `net.Listen(protocol, server)` returns. The
     * accept loop it launches is not part of this model.
     */
    method Start(listen: Result<Listener, Error>) returns (err: Option<Error>)
      modifies this`listener
      ensures listen.Success? ==> listener == Some(listen.value) && err == None
      ensures listen.Failure? ==> listener == None && err == Some(listen.error)
    {
      match listen
      case Success(l) =>
        listener := Some(l);
        err := None;
      case Failure(e) =>
        listener := None;
        err := Some(e);
    }

    /** `Close()`: closes and forgets the listener; without one it does nothing. */
    method Close() returns (err: Option<Error>)
      modifies this`listener
      ensures listener == None
      ensures old(listener).Some? ==> err == old(listener).value.closeErr
      ensures old(listener).None? ==> err == None
    {
      if listener.Some? {
        err := listener.value.closeErr;
        listener := None;
        return;
      }
      err := None;
    }

    /** `Destroy()`: `Close()` with its error dropped. */
    method Destroy()
      modifies this`listener
      ensures listener == None
    {
      var _ := Close();
    }

    /** The endpoint is identified by its bind address. */
    function Id(): (id: string)
      reads this
      ensures id == config.server
    {
      config.server
    }

    /**
     * `AddRouter(router)`. `checkAndSetId` gives the id
     * `CheckAndSetRouterId` leaves on the router.
     */
    method AddRouter(router: Option<Router>, engine: Regex.Engine, checkAndSetId: Router -> string)
      returns (id: string, err: Option<Error>)
      requires Valid()
      modifies this`routers
      ensures Added(routers, id, err) == Add(old(routers), router, engine, checkAndSetId)
      ensures Valid()
    {
      if router.None? {
        return "", Some(RouterNil);
      }
      var expr := router.value.from;
      var regexpV: Option<Regex.Matcher> := None;
      if expr != "" {
        match Regex.Compile(engine, expr)
        case Failure(e) =>
          return "", Some(CompileFailed(e));
        case Success(re) =>
          regexpV := Some(re);
      }
      var r := router.value.(id := checkAndSetId(router.value));
      if routers.None? {
        routers := Some(map[]);
      }
      if r.id in routers.value {
        return r.id, Some(DuplicateRouter(expr));
      }
      routers := Some(routers.value[r.id := RegexpRouter("", r, regexpV)]);
      return r.id, None;
    }

    /** `RemoveRouter(routerId)`. */
    method RemoveRouter(routerId: string) returns (err: Option<Error>)
      requires Valid()
      modifies this`routers
      ensures Removed(routers, err) == Remove(old(routers), routerId)
      ensures Valid()
    {
      if routers.Some? {
        if routerId in routers.value {
          routers := Some(routers.value - {routerId});
        } else {
          return Some(RouterNotFound(routerId));
        }
      }
      return None;
    }

    /** The routes loop of the handler: every route whose pattern is "match all" or matches `data`. */
    method MatchRoutes(engine: Regex.Engine, data: Bytes) returns (hit: set<string>)
      ensures hit == Targets(routers, engine, data)
    {
      var m := Entries(routers);
      var remaining := m.Keys;
      hit := {};
      while remaining != {}
        invariant remaining <= m.Keys
        invariant hit == set k | k in m && k !in remaining && Selects(engine, m[k], data)
        decreases remaining
      {
        var k :| k in remaining;
        var v := m[k];
        if v.regexp.None? || Regex.Matches(engine, v.regexp.value, data) {
          hit := hit + {k};
        }
        remaining := remaining - {k};
      }
    }

    /** One pass of the handler loop for a frame that was read: reset the timer, then dispatch unless it is a heartbeat. */
    method Deliver(engine: Regex.Engine, conn: Connection, data: Bytes) returns (actions: seq<Action>)
      ensures actions == ReadLoop.Deliver(config, routers, engine, conn, data)
    {
      actions := [];
      if config.readTimeout > 0 {
        actions := [ResetTimer(config.readTimeout + IdleGrace)];
      }
      if Str(data) == PingData {
        return;
      }
      var request := new RequestMessage(Some(conn), data);
      var msg := request.GetMsg();
      msg := msg.(metadata := msg.metadata[RemoteAddrKey := conn.remoteAddr]);
      request.SetMsg(Some(msg));
      var hit := MatchRoutes(engine, data);
      actions := actions + [Dispatch(data, msg, hit)];
    }

    /**
     * One event of the handler loop: the idle timer's callback, or one
     * iteration (arm the deadline, read, classify the error, deliver).
     * `stop` is the loop's `break`.
     */
    method Next(engine: Regex.Engine, conn: Connection, closed: bool, e: Event)
      returns (actions: seq<Action>, nowClosed: bool, stop: bool)
      ensures Stepped(actions, nowClosed, stop) == Step(config, routers, engine, conn, closed, e)
    {
      actions, nowClosed, stop := [], closed, false;
      match e
      case IdleTimerFires =>
        if config.readTimeout > 0 && !closed {
          actions, nowClosed := [Disconnect], true;
        }
      case Read(armFails, result) =>
        if config.readTimeout > 0 {
          actions := [ArmDeadline(config.readTimeout + IdleGrace)];
          if armFails || closed {
            return actions + [Disconnect], true, true;
          }
        }
        if result.Failed? && result.err.text != DeadlineText {
          if result.err.OpError? {
            if !result.err.cause.DeadlineExceeded? {
              return actions + [Disconnect], true, true;
            } else {
              return;
            }
          } else {
            return actions + [Disconnect], true, true;
          }
        }
        var delivered := Deliver(engine, conn, result.data);
        actions := actions + delivered;
    }

    /**
     * `handler(conn)`: the read loop over `events`, returning what it did
     * and whether it ended by disconnecting.
     */
    method Handler(engine: Regex.Engine, conn: Connection, events: seq<Event>)
      returns (trace: seq<Action>, disconnected: bool)
      ensures Ran(trace, disconnected) == Handle(config, routers, engine, conn, events)
    {
      trace := [StartTimer(config.readTimeout + IdleGrace)];
      disconnected := false;
      var closed := false;
      var i := 0;
      while i < |events|
        invariant 0 <= i <= |events|
        invariant !disconnected
        invariant var rest := Run(config, routers, engine, conn, closed, events[i..]);
          Handle(config, routers, engine, conn, events) == Ran(trace + rest.trace, rest.stopped)
        decreases |events| - i
      {
        assert events[i..][0] == events[i] && events[i..][1..] == events[i + 1..];
        var actions, stop;
        actions, closed, stop := Next(engine, conn, closed, events[i]);
        trace := trace + actions;
        i := i + 1;
        if stop {
          disconnected := true;
          break;
        }
      }
    }
  }
}
