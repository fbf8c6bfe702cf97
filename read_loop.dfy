/**
 * The per-connection read loop of `ClientHandler.handler`, as a step
 * function over what each read returns. Sockets and timers are replaced by
 * a sequence of events: a read (with whether arming its deadline failed and
 * what `ReadLine` returned) or the idle timer going off. The loop's visible
 * behaviour is a trace of actions: timer and deadline settings, dispatches
 * of frames to routes, and disconnections.
 */
module ReadLoop {
  import opened Wrappers
  import opened Bytes
  import opened Types
  import opened NetTypes
  import opened Registry
  import Message
  import Regex

  /** What a `*net.OpError` wraps: the deadline error or anything else. */
  datatype Cause = DeadlineExceeded | OtherCause(text: string)

  /** A read error and its `Error()` text. */
  datatype ReadError = OpError(text: string, cause: Cause) | PlainError(text: string)

  /** The result of `reader.ReadLine()`: a line, or an error with whatever data came with it. */
  datatype ReadResult = Line(data: Bytes) | Failed(err: ReadError, data: Bytes)

  datatype Event =
    | Read(armFails: bool, result: ReadResult)  // one loop iteration
    | IdleTimerFires                             // the AfterFunc timer runs its callback

  datatype Action =
    | StartTimer(seconds: int)                                  // time.AfterFunc
    | ArmDeadline(seconds: int)                                 // conn.SetReadDeadline
    | ResetTimer(seconds: int)                                  // readTimeoutTimer.Reset
    | Dispatch(frame: Bytes, msg: RuleMsg, routes: set<string>) // DoProcess for each route
    | Disconnect                                                // onDisconnect

  /** The actions of one event, whether the connection is now closed, and whether the loop ends. */
  datatype Stepped = Stepped(actions: seq<Action>, closed: bool, stop: bool)

  /** The trace of a run and whether the loop ended by disconnecting. */
  datatype Ran = Ran(trace: seq<Action>, stopped: bool)

  /** `ReadTimeout + 5` seconds: the idle timer and the read deadline. */
  function IdleSeconds(cfg: Config): int {
    cfg.readTimeout + IdleGrace
  }

  /** The deadline is armed before each read only when a read timeout is configured. */
  function Arm(cfg: Config): seq<Action> {
    if cfg.readTimeout > 0 then [ArmDeadline(IdleSeconds(cfg))] else []
  }

  /** The message handed to the routes: the request's message with the peer address in its metadata. */
  function InboundMsg(conn: Connection, data: Bytes): RuleMsg {
    var m := Message.TextMsg(conn.remoteAddr, data);
    m.(metadata := m.metadata[RemoteAddrKey := conn.remoteAddr])
  }

  /**
   * The message handed to the routes is TEXT, names the peer as its type,
   * carries the frame as its data and holds exactly the peer address in its
   * metadata.
   */
  lemma InboundMsgFields(conn: Connection, data: Bytes)
    ensures var m := InboundMsg(conn, data);
      m.dataType == TEXT && m.msgType == conn.remoteAddr && m.data == Str(data) &&
      m.metadata == map[RemoteAddrKey := conn.remoteAddr]
  {
  }

  /** What a successfully read frame causes: a timer reset, then a dispatch unless it is a heartbeat. */
  function Deliver(cfg: Config, routes: Option<Routes>, engine: Regex.Engine, conn: Connection,
                   data: Bytes): seq<Action>
  {
    var reset := if cfg.readTimeout > 0 then [ResetTimer(IdleSeconds(cfg))] else [];
    if Str(data) == PingData then reset
    else reset + [Dispatch(data, InboundMsg(conn, data), Targets(routes, engine, data))]
  }

  /**
   * With a read timeout a delivered frame first resets the idle timer;
   * without one it causes at most a dispatch. It is dispatched exactly when
   * it is not the heartbeat, and then only as itself, with its message and
   * its routes.
   */
  lemma DeliverEffects(cfg: Config, routes: Option<Routes>, engine: Regex.Engine, conn: Connection, data: Bytes)
    ensures var actions := Deliver(cfg, routes, engine, conn, data);
      cfg.readTimeout > 0 ==> actions != [] && actions[0] == ResetTimer(cfg.readTimeout + IdleGrace)
    ensures var actions := Deliver(cfg, routes, engine, conn, data);
      cfg.readTimeout <= 0 ==> forall a | a in actions :: a.Dispatch?
    ensures var actions := Deliver(cfg, routes, engine, conn, data);
      Str(data) == PingData <==> forall a | a in actions :: !a.Dispatch?
    ensures var actions := Deliver(cfg, routes, engine, conn, data);
      forall a | a in actions && a.Dispatch? :: a == Dispatch(data, InboundMsg(conn, data), Targets(routes, engine, data))
  {
    var reset := if cfg.readTimeout > 0 then [ResetTimer(IdleSeconds(cfg))] else [];
    var d := Dispatch(data, InboundMsg(conn, data), Targets(routes, engine, data));
    assert (reset + [d])[|reset|] == d;
  }

  /**
   * One event. The idle timer disconnects only when a read timeout is
   * configured. A read first arms the deadline (when the timeout is on);
   * that fails on a failed arm or on a connection the timer already
   * closed, and the loop disconnects. A read error whose text is not the
   * deadline text disconnects, unless it is an `OpError` wrapping the
   * deadline error, which just goes round again. Everything else — a line,
   * or an error whose text is the deadline text — is delivered.
   */
  function Step(cfg: Config, routes: Option<Routes>, engine: Regex.Engine, conn: Connection,
                closed: bool, e: Event): Stepped
  {
    match e
    case IdleTimerFires =>
      if cfg.readTimeout > 0 && !closed then Stepped([Disconnect], true, false)
      else Stepped([], closed, false)
    case Read(armFails, result) =>
      if cfg.readTimeout > 0 && (armFails || closed) then Stepped(Arm(cfg) + [Disconnect], true, true)
      else
        match result
        case Line(data) => Stepped(Arm(cfg) + Deliver(cfg, routes, engine, conn, data), closed, false)
        case Failed(err, data) =>
          if err.text != DeadlineText then
            if err.OpError? && err.cause.DeadlineExceeded? then Stepped(Arm(cfg), closed, false)
            else Stepped(Arm(cfg) + [Disconnect], true, true)
          else Stepped(Arm(cfg) + Deliver(cfg, routes, engine, conn, data), closed, false)
  }

  /**
   * Only a read ends the loop, and it ends it by disconnecting; while the
   * loop goes on, only the idle timer closes the connection, and only with
   * a read timeout.
   */
  lemma StepEffects(cfg: Config, routes: Option<Routes>, engine: Regex.Engine, conn: Connection,
                    closed: bool, e: Event)
    ensures var s := Step(cfg, routes, engine, conn, closed, e);
      s.stop ==> e.Read? && s.closed && s.actions == Arm(cfg) + [Disconnect]
    ensures var s := Step(cfg, routes, engine, conn, closed, e);
      !s.stop ==> (s.closed <==> closed || (cfg.readTimeout > 0 && e.IdleTimerFires?))
  {
  }

  /** The loop over a sequence of events, from a connection that is `closed` or not. */
  function Run(cfg: Config, routes: Option<Routes>, engine: Regex.Engine, conn: Connection,
               closed: bool, events: seq<Event>): Ran
    decreases |events|
  {
    if events == [] then Ran([], false)
    else
      var s := Step(cfg, routes, engine, conn, closed, events[0]);
      if s.stop then Ran(s.actions, true)
      else
        var rest := Run(cfg, routes, engine, conn, s.closed, events[1..]);
        Ran(s.actions + rest.trace, rest.stopped)
  }

  /** A whole handler: the idle timer is started, then the loop runs on an open connection. */
  function Handle(cfg: Config, routes: Option<Routes>, engine: Regex.Engine, conn: Connection,
                  events: seq<Event>): (r: Ran)
    ensures r.trace != [] && r.trace[0] == StartTimer(cfg.readTimeout + IdleGrace)
    ensures r.stopped ==> r.trace[|r.trace| - 1] == Disconnect
  {
    var run := Run(cfg, routes, engine, conn, false, events);
    var r := Ran([StartTimer(IdleSeconds(cfg))] + run.trace, run.stopped);
    if run.stopped then StopEndsWithDisconnect(cfg, routes, engine, conn, false, events); r else r
  }

  /**
   * Every dispatch carries a frame that is not the heartbeat, reaches
   * exactly the routes whose pattern is "match all" or matches the frame,
   * and hands them the request message built from that frame.
   */
  lemma {:induction false} DispatchesFollowRoutes(cfg: Config, routes: Option<Routes>, engine: Regex.Engine,
                                                  conn: Connection, closed: bool, events: seq<Event>)
    ensures forall a | a in Run(cfg, routes, engine, conn, closed, events).trace && a.Dispatch? ::
      Str(a.frame) != PingData &&
      a.routes == Targets(routes, engine, a.frame) &&
      a.msg == InboundMsg(conn, a.frame)
    decreases |events|
  {
    if events != [] {
      var s := Step(cfg, routes, engine, conn, closed, events[0]);
      if !s.stop {
        DispatchesFollowRoutes(cfg, routes, engine, conn, s.closed, events[1..]);
      }
    }
  }

  /** A heartbeat frame never reaches a route, whatever routes are registered. */
  lemma HeartbeatNeverDispatched(cfg: Config, routes: Option<Routes>, engine: Regex.Engine,
                                 conn: Connection, events: seq<Event>)
    ensures forall a | a in Handle(cfg, routes, engine, conn, events).trace && a.Dispatch? ::
      Str(a.frame) != PingData
  {
    DispatchesFollowRoutes(cfg, routes, engine, conn, false, events);
  }

  /** Without a read timeout no deadline is armed and the idle timer is never reset. */
  lemma {:induction false} NoTimeoutNoDeadlines(cfg: Config, routes: Option<Routes>, engine: Regex.Engine,
                                                conn: Connection, closed: bool, events: seq<Event>)
    requires cfg.readTimeout <= 0
    ensures forall a | a in Run(cfg, routes, engine, conn, closed, events).trace ::
      !a.ArmDeadline? && !a.ResetTimer?
    decreases |events|
  {
    if events != [] {
      var s := Step(cfg, routes, engine, conn, closed, events[0]);
      if !s.stop {
        NoTimeoutNoDeadlines(cfg, routes, engine, conn, s.closed, events[1..]);
      }
    }
  }

  /** Without a read timeout a connection that sends nothing is never disconnected by the idle timer. */
  lemma {:induction false} SilentConnectionStaysOpen(cfg: Config, routes: Option<Routes>, engine: Regex.Engine,
                                                     conn: Connection, events: seq<Event>)
    requires cfg.readTimeout <= 0
    requires forall i | 0 <= i < |events| :: events[i] == IdleTimerFires
    ensures Run(cfg, routes, engine, conn, false, events) == Ran([], false)
    decreases |events|
  {
    if events != [] {
      SilentConnectionStaysOpen(cfg, routes, engine, conn, events[1..]);
    }
  }

  /** Once the loop has stopped, later events change nothing: no frame after a fatal error is processed. */
  lemma {:induction false} StopIsFinal(cfg: Config, routes: Option<Routes>, engine: Regex.Engine,
                                       conn: Connection, closed: bool, events: seq<Event>, later: seq<Event>)
    requires Run(cfg, routes, engine, conn, closed, events).stopped
    ensures Run(cfg, routes, engine, conn, closed, events + later) == Run(cfg, routes, engine, conn, closed, events)
    decreases |events|
  {
    var s := Step(cfg, routes, engine, conn, closed, events[0]);
    assert (events + later)[0] == events[0];
    if !s.stop {
      assert (events + later)[1..] == events[1..] + later;
      StopIsFinal(cfg, routes, engine, conn, s.closed, events[1..], later);
    }
  }

  /** A loop that stopped did so by disconnecting: its last action is `Disconnect`. */
  lemma {:induction false} StopEndsWithDisconnect(cfg: Config, routes: Option<Routes>, engine: Regex.Engine,
                                                  conn: Connection, closed: bool, events: seq<Event>)
    requires Run(cfg, routes, engine, conn, closed, events).stopped
    ensures var t := Run(cfg, routes, engine, conn, closed, events).trace; t != [] && t[|t| - 1] == Disconnect
    decreases |events|
  {
    var s := Step(cfg, routes, engine, conn, closed, events[0]);
    if !s.stop {
      StopEndsWithDisconnect(cfg, routes, engine, conn, s.closed, events[1..]);
    }
  }

  /**
   * With a read timeout, once the idle timer has closed the connection no
   * frame is dispatched any more, and the next read ends the loop.
   */
  lemma {:induction false} ClosedConnectionDispatchesNothing(cfg: Config, routes: Option<Routes>,
                                                             engine: Regex.Engine, conn: Connection,
                                                             events: seq<Event>)
    requires cfg.readTimeout > 0
    ensures forall a | a in Run(cfg, routes, engine, conn, true, events).trace :: !a.Dispatch?
    ensures (exists i | 0 <= i < |events| :: events[i].Read?) ==> Run(cfg, routes, engine, conn, true, events).stopped
    decreases |events|
  {
    if events != [] && events[0].IdleTimerFires? {
      ClosedConnectionDispatchesNothing(cfg, routes, engine, conn, events[1..]);
      if exists i | 0 <= i < |events| :: events[i].Read? {
        var i :| 0 <= i < |events| && events[i].Read?;
        assert events[1..][i - 1].Read?;
      }
    }
  }

  /**
   * Whether the connection is closed after a run that did not stop: the
   * idle timer closes it when a read timeout is configured, and nothing
   * else that lets the loop go on does.
   */
  predicate ClosedAfter(cfg: Config, closed: bool, events: seq<Event>) {
    closed || (cfg.readTimeout > 0 && IdleTimerFires in events)
  }

  /** A run that has not stopped carries on with the rest of the events from where it left the connection. */
  lemma {:induction false} RunAppend(cfg: Config, routes: Option<Routes>, engine: Regex.Engine, conn: Connection,
                                     closed: bool, earlier: seq<Event>, later: seq<Event>)
    requires !Run(cfg, routes, engine, conn, closed, earlier).stopped
    ensures var rest := Run(cfg, routes, engine, conn, ClosedAfter(cfg, closed, earlier), later);
      Run(cfg, routes, engine, conn, closed, earlier + later) ==
        Ran(Run(cfg, routes, engine, conn, closed, earlier).trace + rest.trace, rest.stopped)
    decreases |earlier|
  {
    if earlier == [] {
      assert earlier + later == later;
    } else {
      var s := Step(cfg, routes, engine, conn, closed, earlier[0]);
      assert (earlier + later)[0] == earlier[0];
      assert (earlier + later)[1..] == earlier[1..] + later;
      assert earlier == [earlier[0]] + earlier[1..];
      assert ClosedAfter(cfg, s.closed, earlier[1..]) == ClosedAfter(cfg, closed, earlier) by {
        StepEffects(cfg, routes, engine, conn, closed, earlier[0]);
      }
      RunAppend(cfg, routes, engine, conn, s.closed, earlier[1..], later);
      var mid := Run(cfg, routes, engine, conn, s.closed, earlier[1..]).trace;
      var rest := Run(cfg, routes, engine, conn, ClosedAfter(cfg, closed, earlier), later);
      assert s.actions + (mid + rest.trace) == (s.actions + mid) + rest.trace;
    }
  }

  /**
   * With a read timeout, the idle timer going off after any run that is
   * still going disconnects the connection (unless it already did) and no
   * frame is dispatched from then on.
   */
  lemma IdleTimeoutDisconnects(cfg: Config, routes: Option<Routes>, engine: Regex.Engine,
                               conn: Connection, earlier: seq<Event>, later: seq<Event>)
    requires cfg.readTimeout > 0
    requires !Run(cfg, routes, engine, conn, false, earlier).stopped
    ensures var before := Run(cfg, routes, engine, conn, false, earlier).trace;
      var r := Run(cfg, routes, engine, conn, false, earlier + ([IdleTimerFires] + later)).trace;
      |before| <= |r| && r[..|before|] == before &&
      (forall i | |before| <= i < |r| :: !r[i].Dispatch?) &&
      (IdleTimerFires !in earlier ==> |before| < |r| && r[|before|] == Disconnect)
  {
    RunAppend(cfg, routes, engine, conn, false, earlier, [IdleTimerFires] + later);
    assert ([IdleTimerFires] + later)[1..] == later;
    ClosedConnectionDispatchesNothing(cfg, routes, engine, conn, later);
    var before := Run(cfg, routes, engine, conn, false, earlier).trace;
    var tail := Run(cfg, routes, engine, conn, ClosedAfter(cfg, false, earlier), [IdleTimerFires] + later).trace;
    var r := Run(cfg, routes, engine, conn, false, earlier + ([IdleTimerFires] + later)).trace;
    assert r == before + tail;
    assert forall a | a in tail :: !a.Dispatch?;
    forall i | |before| <= i < |r|
      ensures !r[i].Dispatch?
    {
      assert r[i] == tail[i - |before|];
    }
  }

  /**
   * A line that is not the heartbeat, read on a usable connection by a run
   * still going, is dispatched — after everything that came before it —
   * with its message and its routes.
   */
  lemma FrameIsDispatched(cfg: Config, routes: Option<Routes>, engine: Regex.Engine, conn: Connection,
                          earlier: seq<Event>, data: Bytes, later: seq<Event>)
    requires !Run(cfg, routes, engine, conn, false, earlier).stopped
    requires !ClosedAfter(cfg, false, earlier) || cfg.readTimeout <= 0
    requires Str(data) != PingData
    ensures var before := Run(cfg, routes, engine, conn, false, earlier).trace;
      var r := Run(cfg, routes, engine, conn, false, earlier + ([Read(false, Line(data))] + later)).trace;
      |before| <= |r| && r[..|before|] == before &&
      Dispatch(data, InboundMsg(conn, data), Targets(routes, engine, data)) in r[|before|..]
  {
    var e := [Read(false, Line(data))] + later;
    RunAppend(cfg, routes, engine, conn, false, earlier, e);
    assert e[0] == Read(false, Line(data)) && e[1..] == later;
    var before := Run(cfg, routes, engine, conn, false, earlier).trace;
    var tail := Run(cfg, routes, engine, conn, ClosedAfter(cfg, false, earlier), e).trace;
    var r := Run(cfg, routes, engine, conn, false, earlier + e).trace;
    assert r == before + tail;
    assert r[|before|..] == tail;
  }

  /**
   * With a read timeout, every line read on a usable connection by a run
   * still going — the heartbeat included — first arms the read deadline
   * and then resets the idle timer, both to `ReadTimeout + 5` seconds.
   */
  lemma FrameResetsIdleTimer(cfg: Config, routes: Option<Routes>, engine: Regex.Engine, conn: Connection,
                             earlier: seq<Event>, data: Bytes, later: seq<Event>)
    requires cfg.readTimeout > 0
    requires !Run(cfg, routes, engine, conn, false, earlier).stopped
    requires !ClosedAfter(cfg, false, earlier)
    ensures var before := Run(cfg, routes, engine, conn, false, earlier).trace;
      var r := Run(cfg, routes, engine, conn, false, earlier + ([Read(false, Line(data))] + later)).trace;
      |before| + 2 <= |r| && r[..|before|] == before &&
      r[|before|] == ArmDeadline(cfg.readTimeout + IdleGrace) &&
      r[|before| + 1] == ResetTimer(cfg.readTimeout + IdleGrace)
  {
    var e := [Read(false, Line(data))] + later;
    RunAppend(cfg, routes, engine, conn, false, earlier, e);
    assert e[0] == Read(false, Line(data)) && e[1..] == later;
  }

  /** The frames a trace dispatches, in order. */
  function Frames(trace: seq<Action>): seq<Bytes> {
    if trace == [] then []
    else (if trace[0].Dispatch? then [trace[0].frame] else []) + Frames(trace[1..])
  }

  lemma {:induction false} FramesAppend(t1: seq<Action>, t2: seq<Action>)
    ensures Frames(t1 + t2) == Frames(t1) + Frames(t2)
    decreases |t1|
  {
    if t1 == [] {
      assert t1 + t2 == t2;
    } else {
      assert (t1 + t2)[0] == t1[0];
      assert (t1 + t2)[1..] == t1[1..] + t2;
      FramesAppend(t1[1..], t2);
    }
  }

  /**
   * The frames the loop hands to the routes, read off the events alone:
   * the data of every read that yields a line, or an error with the
   * deadline text, unless it is the heartbeat — up to the event that ends
   * the loop. A read on a connection the idle timer closed, or whose
   * deadline cannot be armed, ends it when a read timeout is configured;
   * so does a read error other than the deadline error.
   */
  function Delivered(cfg: Config, closed: bool, events: seq<Event>): seq<Bytes>
    decreases |events|
  {
    if events == [] then []
    else
      match events[0]
      case IdleTimerFires => Delivered(cfg, closed || cfg.readTimeout > 0, events[1..])
      case Read(armFails, result) =>
        if cfg.readTimeout > 0 && (armFails || closed) then []
        else if result.Failed? && result.err.text != DeadlineText then
          if result.err.OpError? && result.err.cause.DeadlineExceeded? then Delivered(cfg, closed, events[1..])
          else []
        else (if Str(result.data) == PingData then [] else [result.data]) + Delivered(cfg, closed, events[1..])
  }

  /** The actions of a delivered read dispatch its frame, unless it is the heartbeat, and nothing else. */
  lemma DeliverFrames(cfg: Config, routes: Option<Routes>, engine: Regex.Engine, conn: Connection, data: Bytes)
    ensures Frames(Arm(cfg) + Deliver(cfg, routes, engine, conn, data)) ==
      if Str(data) == PingData then [] else [data]
  {
    var reset := if cfg.readTimeout > 0 then [ResetTimer(IdleSeconds(cfg))] else [];
    FramesAppend(Arm(cfg), Deliver(cfg, routes, engine, conn, data));
    if Str(data) != PingData {
      FramesAppend(reset, [Dispatch(data, InboundMsg(conn, data), Targets(routes, engine, data))]);
    }
  }

  /** One event, seen through `Delivered`: a stopping event dispatches nothing and delivers nothing further. */
  predicate StepAgreesWithDelivered(cfg: Config, routes: Option<Routes>, engine: Regex.Engine, conn: Connection,
                                    closed: bool, e: Event, later: seq<Event>)
  {
    var s := Step(cfg, routes, engine, conn, closed, e);
    (s.stop ==> Frames(s.actions) == [] && Delivered(cfg, closed, [e] + later) == []) &&
    (!s.stop ==> Delivered(cfg, closed, [e] + later) == Frames(s.actions) + Delivered(cfg, s.closed, later))
  }

  /** The idle timer's callback dispatches nothing. */
  lemma TimerFrames(cfg: Config, routes: Option<Routes>, engine: Regex.Engine, conn: Connection,
                    closed: bool, later: seq<Event>)
    ensures StepAgreesWithDelivered(cfg, routes, engine, conn, closed, IdleTimerFires, later)
  {
    assert ([IdleTimerFires] + later)[0] == IdleTimerFires && ([IdleTimerFires] + later)[1..] == later;
  }

  /** A read that ends the loop dispatches nothing. */
  lemma StoppingReadFrames(cfg: Config, routes: Option<Routes>, engine: Regex.Engine, conn: Connection,
                           closed: bool, armFails: bool, result: ReadResult, later: seq<Event>)
    requires Step(cfg, routes, engine, conn, closed, Read(armFails, result)).stop
    ensures StepAgreesWithDelivered(cfg, routes, engine, conn, closed, Read(armFails, result), later)
  {
    var e := Read(armFails, result);
    assert ([e] + later)[0] == e;
    FramesAppend(Arm(cfg), [Disconnect]);
  }

  /** A read that lets the loop go on dispatches its frame when it is delivered and not the heartbeat. */
  lemma ContinuingReadFrames(cfg: Config, routes: Option<Routes>, engine: Regex.Engine, conn: Connection,
                             closed: bool, armFails: bool, result: ReadResult, later: seq<Event>)
    requires !Step(cfg, routes, engine, conn, closed, Read(armFails, result)).stop
    ensures StepAgreesWithDelivered(cfg, routes, engine, conn, closed, Read(armFails, result), later)
  {
    var e := Read(armFails, result);
    assert ([e] + later)[0] == e && ([e] + later)[1..] == later;
    if !(result.Failed? && result.err.text != DeadlineText) {
      DeliverFrames(cfg, routes, engine, conn, result.data);
    }
  }

  /** Every event dispatches the frames `Delivered` assigns it, and a stopping event ends both. */
  lemma StepFrames(cfg: Config, routes: Option<Routes>, engine: Regex.Engine, conn: Connection,
                   closed: bool, e: Event, later: seq<Event>)
    ensures var s := Step(cfg, routes, engine, conn, closed, e);
      (s.stop ==> Frames(s.actions) == [] && Delivered(cfg, closed, [e] + later) == []) &&
      (!s.stop ==> Delivered(cfg, closed, [e] + later) == Frames(s.actions) + Delivered(cfg, s.closed, later))
  {
    match e
    case IdleTimerFires =>
      TimerFrames(cfg, routes, engine, conn, closed, later);
    case Read(armFails, result) =>
      if Step(cfg, routes, engine, conn, closed, e).stop {
        StoppingReadFrames(cfg, routes, engine, conn, closed, armFails, result, later);
      } else {
        ContinuingReadFrames(cfg, routes, engine, conn, closed, armFails, result, later);
      }
  }

  /** Exactly the frames `Delivered` names are dispatched, each once, in the order they were read. */
  lemma {:induction false} DispatchedFramesAreDelivered(cfg: Config, routes: Option<Routes>, engine: Regex.Engine,
                                                        conn: Connection, closed: bool, events: seq<Event>)
    ensures Frames(Run(cfg, routes, engine, conn, closed, events).trace) == Delivered(cfg, closed, events)
    decreases |events|
  {
    if events != [] {
      var s := Step(cfg, routes, engine, conn, closed, events[0]);
      assert events == [events[0]] + events[1..];
      StepFrames(cfg, routes, engine, conn, closed, events[0], events[1..]);
      if !s.stop {
        var rest := Run(cfg, routes, engine, conn, s.closed, events[1..]);
        FramesAppend(s.actions, rest.trace);
        DispatchedFramesAreDelivered(cfg, routes, engine, conn, s.closed, events[1..]);
      }
    }
  }

  /** An `OpError` wrapping the deadline error only re-arms the deadline: no dispatch, no disconnect. */
  lemma DeadlineOpErrorContinues(cfg: Config, routes: Option<Routes>, engine: Regex.Engine, conn: Connection,
                                 text: string, data: Bytes, later: seq<Event>)
    requires text != DeadlineText
    ensures var e := Read(false, Failed(OpError(text, DeadlineExceeded), data));
      var r := Run(cfg, routes, engine, conn, false, [e] + later);
      var rest := Run(cfg, routes, engine, conn, false, later);
      r == Ran(Arm(cfg) + rest.trace, rest.stopped)
  {
  }

  /** Any other read error whose text is not the deadline text disconnects and ends the loop. */
  lemma OtherReadErrorDisconnects(cfg: Config, routes: Option<Routes>, engine: Regex.Engine, conn: Connection,
                                  closed: bool, armFails: bool, err: ReadError, data: Bytes, later: seq<Event>)
    requires err.text != DeadlineText && !(err.OpError? && err.cause.DeadlineExceeded?)
    ensures Run(cfg, routes, engine, conn, closed, [Read(armFails, Failed(err, data))] + later) ==
      Ran(Arm(cfg) + [Disconnect], true)
  {
  }

  /** An error whose text is the deadline text is not treated as an error: its data is delivered like a line. */
  lemma DeadlineTextIsDelivered(cfg: Config, routes: Option<Routes>, engine: Regex.Engine, conn: Connection,
                                closed: bool, armFails: bool, err: ReadError, data: Bytes, later: seq<Event>)
    requires err.text == DeadlineText
    ensures Run(cfg, routes, engine, conn, closed, [Read(armFails, Failed(err, data))] + later) ==
      Run(cfg, routes, engine, conn, closed, [Read(armFails, Line(data))] + later)
  {
  }
}
