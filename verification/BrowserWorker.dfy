/** The worker process. Every handler, timer callback and continuation after an await is
    one method, and the runtime may call them in any order that their guards allow. Time
    passes only in Elapse, which stops at the due time of every timer that a drain or a
    shutdown waits for: the runtime fires those on time. Any call to the server, the
    gateway or the browser may hang for ever. */
module BrowserWorkers {
  import opened Common

  datatype WorkerState = Starting | Running | Draining | ShuttingDown
  datatype RemoteStatus = Available | RemoteDraining | Stalled | RemoteShuttingDown

  /** Where start() waits; Ended once it has returned. A browser that finishes launching
      after shutdown began is closed, and killed if that fails, by start() itself. */
  datatype StartPhase =
    | Launching
    | GatewayStarting
    | Registering
    | LateClosing(due: int)
    | LateKilling(due: int)
    | Ended

  /** Where runShutdown waits; each wait has a due time. */
  datatype ShutPhase =
    | NotShut
    | TellingServer(due: int)
    | GatewayClosing(due: int)
    | BrowserClosing(due: int)
    | BrowserKilling(due: int)
    | Exited(at: int)

  /** The parts of the system that runShutdown waits for. */
  datatype Party = Server | Gateway | Browser

  /** Where heartbeatTick waits. */
  datatype TickPhase = NoTick | AwaitReply | AwaitRegistration | AwaitStatus | AwaitShutdown

  /** What the runtime may call next, with what the outside world answers. `active` is
      the gateway's connection count at that moment. */
  datatype Event =
    | TimePasses(elapsed: nat)
    | StartGoesOn(ok: bool, gatewayMade: bool)
    | DrainAsked(fromSignal: bool, active: nat)
    | DrainCallDone(active: nat)
    | DrainTimerDue
    | SessionEnded(active: nat)
    | Failure
    | HeartbeatDue
    | HeartbeatAnswered(status: RemoteStatus, stale: bool, active: nat)
    | HeartbeatFailed(unknownWorker: bool)
    | RegistrationDone(ok: bool)
    | TickWaitDone
    | ShutdownGoesOn(cleanly: bool)

  function Rank(s: WorkerState): nat {
    match s
    case Starting => 0
    case Running => 1
    case Draining => 2
    case ShuttingDown => 3
  }

  function ShutRank(p: ShutPhase): nat {
    match p
    case NotShut => 0
    case TellingServer(_) => 1
    case GatewayClosing(_) => 2
    case BrowserClosing(_) => 3
    case BrowserKilling(_) => 4
    case Exited(_) => 5
  }

  class BrowserWorker {
    const drainTimeout: nat
    const cleanupTimeout: nat
    const browserCloseTimeout: nat

    var now: int
    var state: WorkerState
    var startPhase: StartPhase
    var registered: bool
    var hasBrowser: bool
    var hasGateway: bool
    var heartbeatEnabled: bool
    var drainTimer: Option<int>
    var shut: ShutPhase

    /** The code of the first shutdown call, and the codes given to exit() so far. */
    var code: nat
    var exits: seq<nat>

    /** Heartbeat timers that will still fire, and ticks that have not returned. */
    var armed: nat
    var inFlight: nat
    var tick: TickPhase

    /** The due time of the status call with which a signalled drain begins. */
    var drainCall: Option<int>

    /** When a drain request first left `running`, and when shutdown began. */
    ghost var drainedAt: Option<int>
    ghost var shutAt: int

    /** What runShutdown has waited for, or waits for now. */
    ghost var waits: set<Party>

    /** The longest time from a drain request to exit. */
    function Budget(): nat {
      drainTimeout + 4 * cleanupTimeout + browserCloseTimeout
    }

    ghost predicate Valid()
      reads this
    {
      Consistent() && (state == Draining ==> (drainTimer == None <==> drainCall.Some?)) &&
      (state == Starting && startPhase == Launching ==> !hasGateway && !hasBrowser)
    }

    /** Valid, but for a drain in the middle of choosing what it waits for. */
    ghost predicate Consistent()
      reads this
    {
      StatesAgree() && OneHeartbeat() && OnSchedule() && NothingSkipped()
    }

    /** Shutdown tells the server if the worker is registered, then closes the gateway if
        there is one, then the browser if there is one, and only then exits. */
    ghost predicate NothingSkipped()
      reads this
    {
      (registered ==> shut.NotShut? || Server in waits) &&
      (hasGateway ==> shut.NotShut? || shut.TellingServer? || Gateway in waits) &&
      (hasBrowser ==> shut.NotShut? || shut.TellingServer? || shut.GatewayClosing? || Browser in waits)
    }

    ghost predicate StatesAgree()
      reads this
    {
      (state == ShuttingDown <==> shut != NotShut) &&
      (state == Running || state == Draining ==>
         startPhase == Ended && registered && hasGateway && hasBrowser && heartbeatEnabled) &&
      (state == Starting ==> startPhase != Ended && !heartbeatEnabled && !registered) &&
      (state == Starting && startPhase != Launching ==> hasGateway && hasBrowser) &&
      (startPhase.LateClosing? || startPhase.LateKilling? ==> state == ShuttingDown) &&
      (state == Starting || state == Running ==> drainTimer == None && drainCall == None && drainedAt == None) &&
      (state == Draining ==> drainedAt.Some?) &&
      exits == if shut.Exited? then [code] else []
    }

    /** A live worker has exactly one heartbeat armed or in flight, one that shuts down
        at most a last one in flight. */
    ghost predicate OneHeartbeat()
      reads this
    {
      (inFlight == 0 <==> tick == NoTick) &&
      match state
      case Starting => armed + inFlight == 0
      case Running => armed + inFlight == 1
      case Draining => armed + inFlight == 1
      case ShuttingDown => armed == 0 && inFlight <= 1 && !heartbeatEnabled
    }

    /** Every wait stays within its part of the budget. */
    ghost predicate OnSchedule()
      reads this
    {
      (state != ShuttingDown ==> Pending(drainTimer) && Pending(drainCall)) &&
      (state == Draining ==> drainedAt.Some? && now <= drainedAt.value + cleanupTimeout + drainTimeout) &&
      (state == Draining && drainCall.Some? ==> drainCall.value <= drainedAt.value + cleanupTimeout) &&
      (state == Draining && drainTimer.Some? ==>
         drainTimer.value <= drainedAt.value + cleanupTimeout + drainTimeout) &&
      (state == ShuttingDown && drainedAt.Some? ==> shutAt <= drainedAt.value + cleanupTimeout + drainTimeout) &&
      match shut
      case NotShut => true
      case TellingServer(due) => now <= due <= shutAt + cleanupTimeout
      case GatewayClosing(due) => now <= due <= shutAt + 2 * cleanupTimeout
      case BrowserClosing(due) => now <= due <= shutAt + 2 * cleanupTimeout + browserCloseTimeout
      case BrowserKilling(due) => now <= due <= shutAt + 3 * cleanupTimeout + browserCloseTimeout
      case Exited(at) => at <= now && at <= shutAt + 3 * cleanupTimeout + browserCloseTimeout
    }

    predicate Pending(timer: Option<int>)
      reads this`now
    {
      timer.Some? ==> now <= timer.value
    }

    constructor (drainTimeout: nat, cleanupTimeout: nat, browserCloseTimeout: nat)
      ensures Valid() && state == Starting && exits == [] && now == 0
      ensures this.drainTimeout == drainTimeout && this.cleanupTimeout == cleanupTimeout
      ensures this.browserCloseTimeout == browserCloseTimeout
    {
      this.drainTimeout, this.cleanupTimeout := drainTimeout, cleanupTimeout;
      this.browserCloseTimeout := browserCloseTimeout;
      now, state, startPhase, registered, hasBrowser, hasGateway := 0, Starting, Launching, false, false, false;
      heartbeatEnabled, drainTimer, shut, armed, inFlight, tick := false, None, NotShut, 0, 0, NoTick;
      code, exits, drainCall, drainedAt, shutAt, waits := 0, [], None, None, 0, {};
    }

    /** No drain or shutdown timer is due before `time` more has passed. */
    predicate NothingDueWithin(time: nat)
      reads this
    {
      if shut.NotShut? then
        (drainTimer.Some? ==> now + time <= drainTimer.value) && (drainCall.Some? ==> now + time <= drainCall.value)
      else
        shut.Exited? || now + time <= shut.due
    }

    method Elapse(time: nat)
      requires Valid() && NothingDueWithin(time)
      modifies this`now
      ensures Valid() && now == old(now) + time
    {
      now := now + time;
    }

    // --------------------------------------------------------------- shutdown

    /** shutdown: the first call runs runShutdown up to its first wait and settles the
        exit code; later calls join it. */
    method Shutdown(exitCode: nat)
      requires Consistent()
      modifies this`state, this`shut, this`waits, this`shutAt, this`code, this`exits
      modifies this`heartbeatEnabled, this`armed, this`drainTimer
      ensures Valid() && state == ShuttingDown
      ensures old(shut) != NotShut ==> shut == old(shut) && shutAt == old(shutAt) && code == old(code)
      ensures old(shut) != NotShut ==> exits == old(exits) && drainTimer == old(drainTimer)
      ensures old(shut) == NotShut ==> shutAt == now && code == exitCode && drainTimer == None
      ensures old(shut) == NotShut && registered ==> shut == TellingServer(now + cleanupTimeout)
      ensures old(shut) == NotShut && !registered && hasGateway ==> shut == GatewayClosing(now + cleanupTimeout)
      ensures old(shut) == NotShut && !registered && !hasGateway ==>
        shut == if hasBrowser then BrowserClosing(now + browserCloseTimeout) else Exited(now)
      ensures old(shut) == NotShut ==> exits == old(exits) + if shut.Exited? then [exitCode] else []
    {
      if shut != NotShut {
        return;
      }
      FirstShutdown(exitCode);
    }

    method FirstShutdown(exitCode: nat)
      requires Consistent() && shut == NotShut
      modifies this`state, this`shut, this`waits, this`shutAt, this`code, this`exits
      modifies this`heartbeatEnabled, this`armed, this`drainTimer
      ensures Valid() && state == ShuttingDown && shutAt == now && code == exitCode && drainTimer == None
      ensures JustShut()
      ensures shut == if registered then TellingServer(now + cleanupTimeout)
                      else if hasGateway then GatewayClosing(now + cleanupTimeout)
                      else if hasBrowser then BrowserClosing(now + browserCloseTimeout)
                      else Exited(now)
    {
      StopTimers(exitCode);
      if registered {
        waits := waits + {Server};
        shut := TellingServer(now + cleanupTimeout);
      } else {
        AfterStatus();
      }
      JustShutIsValid();
    }

    /** No timer of the worker will fire any more, and what is left is the shutdown itself. */
    ghost predicate Quiet()
      reads this
    {
      state == ShuttingDown && !heartbeatEnabled && armed == 0 && inFlight <= 1 &&
      (inFlight == 0 <==> tick == NoTick) &&
      drainTimer == None && (drainedAt.Some? ==> now <= drainedAt.value + cleanupTimeout + drainTimeout)
    }

    method StopTimers(exitCode: nat)
      requires Consistent() && shut == NotShut
      modifies this`state, this`shutAt, this`code, this`heartbeatEnabled, this`armed, this`drainTimer
      ensures Quiet() && shutAt == now && code == exitCode && exits == []
    {
      shutAt := now;
      code := exitCode;
      state := ShuttingDown;
      StopHeartbeat();
      drainTimer := None;
    }

    /** Shutdown has just begun: its first wait, or exit if there is nothing to wait for. */
    ghost predicate JustShut()
      reads this
    {
      state == ShuttingDown && shutAt == now && exits == (if shut.Exited? then [code] else []) &&
      match shut
      case NotShut => false
      case TellingServer(due) => due == now + cleanupTimeout && Server in waits
      case GatewayClosing(due) => due == now + cleanupTimeout && Gateway in waits && !registered
      case BrowserClosing(due) => due == now + browserCloseTimeout && Browser in waits && !registered && !hasGateway
      case BrowserKilling(_) => false
      case Exited(at) => at == now && !registered && !hasGateway && !hasBrowser
    }

    lemma JustShutIsValid()
      requires Quiet() && JustShut()
      ensures Valid()
    {
    }

    /** Clears the one timer that the field remembers. */
    method StopHeartbeat()
      modifies this`heartbeatEnabled, this`armed
      ensures !heartbeatEnabled && armed == if old(armed) == 0 then 0 else old(armed) - 1
    {
      heartbeatEnabled := false;
      if armed > 0 {
        armed := armed - 1;
      }
    }

    method AfterStatus()
      modifies this`shut, this`waits, this`exits
      ensures hasGateway ==> shut == GatewayClosing(now + cleanupTimeout)
      ensures !hasGateway ==> shut == if hasBrowser then BrowserClosing(now + browserCloseTimeout) else Exited(now)
      ensures exits == if shut.Exited? then old(exits) + [code] else old(exits)
      ensures waits == old(waits) + if hasGateway then {Gateway} else if hasBrowser then {Browser} else {}
    {
      if hasGateway {
        waits := waits + {Gateway};
        shut := GatewayClosing(now + cleanupTimeout);
      } else {
        AfterGateway();
      }
    }

    method AfterGateway()
      modifies this`shut, this`waits, this`exits
      ensures shut == if hasBrowser then BrowserClosing(now + browserCloseTimeout) else Exited(now)
      ensures exits == if shut.Exited? then old(exits) + [code] else old(exits)
      ensures waits == old(waits) + if hasBrowser then {Browser} else {}
    {
      if hasBrowser {
        waits := waits + {Browser};
        shut := BrowserClosing(now + browserCloseTimeout);
      } else {
        Exit();
      }
    }

    method Exit()
      modifies this`shut, this`exits
      ensures shut == Exited(now) && exits == old(exits) + [code]
    {
      exits := exits + [code];
      shut := Exited(now);
    }

    /** The current wait of runShutdown ends: its call returned or failed, or its timer
        fired. Only a failed or late browser close leads to the kill. */
    method ShutdownContinues(cleanly: bool)
      requires Valid() && !shut.NotShut? && !shut.Exited?
      modifies this`shut, this`waits, this`exits
      ensures Valid() && ShutRank(old(shut)) < ShutRank(shut)
      ensures old(shut).TellingServer? && hasGateway ==> shut == GatewayClosing(now + cleanupTimeout)
      ensures old(shut).GatewayClosing? || (old(shut).TellingServer? && !hasGateway) ==>
        shut == if hasBrowser then BrowserClosing(now + browserCloseTimeout) else Exited(now)
      ensures old(shut).BrowserClosing? ==>
        shut == if cleanly then Exited(now) else BrowserKilling(now + cleanupTimeout)
      ensures old(shut).BrowserKilling? ==> shut == Exited(now)
      ensures shut.Exited? ==> shut.at == now
    {
      match shut {
        case TellingServer(_) => AfterStatus();
        case GatewayClosing(_) => AfterGateway();
        case BrowserClosing(_) =>
          if cleanly {
            Exit();
          } else {
            shut := BrowserKilling(now + cleanupTimeout);
          }
        case BrowserKilling(_) => Exit();
      }
    }

    // ---------------------------------------------------------------- startup

    /** start() goes on after launching the browser, starting the gateway or registering.
        A shutdown that began meanwhile ends it, once a late browser is closed. */
    method StartContinues(ok: bool, gatewayMade: bool)
      requires Valid() && startPhase != Ended
      modifies this`state, this`shut, this`waits, this`shutAt, this`code, this`exits, this`heartbeatEnabled, this`armed
      modifies this`drainTimer, this`startPhase, this`hasBrowser, this`hasGateway, this`registered
      ensures Valid() && Rank(old(state)) <= Rank(state) && old(exits) <= exits
      ensures old(state) == ShuttingDown ==>
        shut == old(shut) && code == old(code) && registered == old(registered) && hasGateway == old(hasGateway) &&
        hasBrowser == old(hasBrowser)
      ensures old(state) == ShuttingDown && old(startPhase) == Launching ==>
        startPhase == if ok then LateClosing(now + browserCloseTimeout) else Ended
      ensures old(state) == ShuttingDown && old(startPhase).LateClosing? ==>
        startPhase == if ok then Ended else LateKilling(now + cleanupTimeout)
      ensures old(state) == ShuttingDown && old(startPhase) != Launching && !old(startPhase).LateClosing? ==>
        startPhase == Ended
      ensures old(state) == Starting && !ok ==> state == ShuttingDown && code == 1 && startPhase == Ended
      ensures old(state) == Starting && state == ShuttingDown ==>
        shut == if old(startPhase) != Launching then GatewayClosing(now + cleanupTimeout)
                else if ok then BrowserClosing(now + browserCloseTimeout)
                else Exited(now)
      ensures old(state) == Starting && ok ==>
        startPhase == (match old(startPhase)
                       case Launching => if gatewayMade then GatewayStarting else Ended
                       case GatewayStarting => Registering
                       case _ => Ended)
      ensures old(state) == Starting && ok ==>
        state == if startPhase != Ended then Starting
                 else if old(startPhase) == Registering then Running
                 else ShuttingDown
      ensures state == Running ==> registered && armed == 1
    {
      if state == ShuttingDown {
        StartIsLate(ok);
      } else if !ok {
        StartFails();
      } else {
        StartSucceeds(gatewayMade);
      }
    }

    /** start() goes on although a shutdown is under way. */
    method StartIsLate(ok: bool)
      modifies this`startPhase
      ensures old(startPhase) == Launching ==>
        startPhase == if ok then LateClosing(now + browserCloseTimeout) else Ended
      ensures old(startPhase).LateClosing? ==> startPhase == if ok then Ended else LateKilling(now + cleanupTimeout)
      ensures old(startPhase) != Launching && !old(startPhase).LateClosing? ==> startPhase == Ended
    {
      match startPhase {
        case Launching => startPhase := if ok then LateClosing(now + browserCloseTimeout) else Ended;
        case LateClosing(_) => startPhase := if ok then Ended else LateKilling(now + cleanupTimeout);
        case _ => startPhase := Ended;
      }
    }

    method StartSucceeds(gatewayMade: bool)
      requires Valid() && state == Starting
      modifies this`state, this`shut, this`waits, this`shutAt, this`code, this`exits, this`heartbeatEnabled, this`armed
      modifies this`drainTimer, this`startPhase, this`hasBrowser, this`hasGateway, this`registered
      ensures Valid() && old(exits) <= exits
      ensures old(startPhase) == Launching ==>
        if gatewayMade then state == Starting && startPhase == GatewayStarting && hasBrowser && hasGateway
        else state == ShuttingDown && startPhase == Ended && shut == BrowserClosing(now + browserCloseTimeout)
      ensures old(startPhase) == GatewayStarting ==> state == Starting && startPhase == Registering
      ensures old(startPhase) == Registering ==> state == Running && startPhase == Ended && registered && armed == 1
    {
      match startPhase {
        case Launching =>
          hasBrowser := true;
          if gatewayMade {
            hasGateway := true;
            startPhase := GatewayStarting;
          } else {
            StartFails();
          }
        case GatewayStarting =>
          startPhase := Registering;
        case Registering =>
          registered := true;
          startPhase := Ended;
          BecomeRunning();
      }
    }

    method StartFails()
      requires Consistent() && state == Starting
      modifies this`state, this`shut, this`waits, this`shutAt, this`code, this`exits, this`heartbeatEnabled, this`armed
      modifies this`drainTimer, this`startPhase
      ensures Valid() && state == ShuttingDown && startPhase == Ended
      ensures code == 1 && shutAt == now && old(exits) <= exits
      ensures !registered ==>
        shut == if hasGateway then GatewayClosing(now + cleanupTimeout)
                else if hasBrowser then BrowserClosing(now + browserCloseTimeout)
                else Exited(now)
    {
      Shutdown(1);
      startPhase := Ended;
    }

    method BecomeRunning()
      requires armed + inFlight == 0
      modifies this`state, this`heartbeatEnabled, this`armed
      ensures state == Running && heartbeatEnabled && armed == 1
    {
      state := Running;
      heartbeatEnabled := true;
      ArmHeartbeat();
    }

    // ------------------------------------------------------------------ drain

    method RequestDrain(fromSignal: bool, active: nat)
      requires Valid()
      modifies this`state, this`shut, this`waits, this`shutAt, this`code, this`exits
      modifies this`heartbeatEnabled, this`armed, this`drainTimer, this`drainCall, this`drainedAt
      ensures Valid() && Rank(old(state)) <= Rank(state) && old(exits) <= exits
      ensures drainedAt == if old(state) == Running then Some(now) else old(drainedAt)
      ensures old(state) == Running ==>
        state == if fromSignal || active > 0 then Draining else ShuttingDown
      ensures old(state) == Running && fromSignal ==> drainCall == Some(now + cleanupTimeout) && drainTimer == None
      ensures old(state) == Running && !fromSignal ==> drainCall == None
      ensures old(state) == Running && !fromSignal && active > 0 ==> drainTimer == Some(now + drainTimeout)
      ensures old(state) != Running ==> state == ShuttingDown && drainCall == old(drainCall)
      ensures old(shut) != NotShut ==> shut == old(shut) && code == old(code)
      ensures old(shut) == NotShut && state == ShuttingDown ==> code == 0 && shutAt == now
      ensures (old(state) == Running || old(state) == Draining) && state == ShuttingDown ==>
        shut == TellingServer(now + cleanupTimeout)
    {
      if state == ShuttingDown {
        return;
      }
      if state == Draining || state == Starting {
        Shutdown(0);
        return;
      }
      state := Draining;
      drainedAt := Some(now);
      if fromSignal && registered {
        drainCall := Some(now + cleanupTimeout);
        return;
      }
      ChooseDrainEnd(active);
    }

    /** The second half of requestDrain. The server was told, or need not or could not be
        told. A shutdown that began meanwhile does not stop it: it may then still set the
        timer, which only finds the shutdown under way. */
    method ChooseDrainEnd(active: nat)
      requires Consistent() && drainCall == None && Rank(state) >= 2
      requires state == Draining ==> now <= drainedAt.value + cleanupTimeout
      modifies this`state, this`shut, this`waits, this`shutAt, this`code, this`exits
      modifies this`heartbeatEnabled, this`armed, this`drainTimer
      ensures Valid() && Rank(old(state)) <= Rank(state) && old(exits) <= exits
      ensures active > 0 ==> drainTimer == Some(now + drainTimeout) && state == old(state) && shut == old(shut)
      ensures active == 0 ==> state == ShuttingDown
      ensures state == ShuttingDown && old(state) == Draining ==> shut == TellingServer(now + cleanupTimeout)
      ensures old(shut) != NotShut ==> shut == old(shut) && code == old(code)
      ensures old(shut) == NotShut && active == 0 ==> code == 0 && shutAt == now
    {
      if active == 0 {
        Shutdown(0);
        return;
      }
      drainTimer := Some(now + drainTimeout);
    }

    method DrainCallReturns(active: nat)
      requires Valid() && drainCall.Some?
      modifies this`state, this`shut, this`waits, this`shutAt, this`code, this`exits
      modifies this`heartbeatEnabled, this`armed, this`drainTimer, this`drainCall
      ensures Valid() && Rank(old(state)) <= Rank(state) && old(exits) <= exits && drainCall == None
      ensures active > 0 ==> drainTimer == Some(now + drainTimeout) && state == old(state) && shut == old(shut)
      ensures active == 0 ==> state == ShuttingDown
      ensures state == ShuttingDown && old(state) == Draining ==> shut == TellingServer(now + cleanupTimeout)
      ensures old(shut) != NotShut ==> shut == old(shut) && code == old(code)
    {
      drainCall := None;
      ChooseDrainEnd(active);
    }

    method DrainTimerFires()
      requires Valid() && drainTimer.Some? && drainTimer.value <= now
      modifies this`state, this`shut, this`waits, this`shutAt, this`code, this`exits
      modifies this`heartbeatEnabled, this`armed, this`drainTimer
      ensures Valid() && state == ShuttingDown && drainTimer == None && old(exits) <= exits
      ensures old(shut) != NotShut ==> shut == old(shut) && code == old(code)
      ensures old(shut) == NotShut ==> code == 0 && shutAt == now && shut == TellingServer(now + cleanupTimeout)
    {
      Shutdown(0);
      drainTimer := None;
    }

    /** The gateway announced the end of a session. */
    method SessionClosed(active: nat)
      requires Valid()
      modifies this`state, this`shut, this`waits, this`shutAt, this`code, this`exits
      modifies this`heartbeatEnabled, this`armed, this`drainTimer
      ensures Valid() && Rank(old(state)) <= Rank(state) && old(exits) <= exits
      ensures state == if old(state) == Draining && active == 0 then ShuttingDown else old(state)
      ensures state == old(state) ==> drainTimer == old(drainTimer) && armed == old(armed) && shut == old(shut)
      ensures state != old(state) ==> shut == TellingServer(now + cleanupTimeout) && shutAt == now && code == 0
    {
      if state == Draining && active == 0 {
        Shutdown(0);
      }
    }

    /** An unhandled error, or the browser exits by itself. */
    method Fatal()
      requires Valid()
      modifies this`state, this`shut, this`waits, this`shutAt, this`code, this`exits
      modifies this`heartbeatEnabled, this`armed, this`drainTimer
      ensures Valid() && state == ShuttingDown && old(exits) <= exits
      ensures code == if old(shut) == NotShut then 1 else old(code)
    {
      Shutdown(1);
    }

    // -------------------------------------------------------------- heartbeat

    method ArmHeartbeat()
      modifies this`armed
      ensures armed == old(armed) + if heartbeatEnabled && state != ShuttingDown then 1 else 0
    {
      if !heartbeatEnabled || state == ShuttingDown {
        return;
      }
      armed := armed + 1;
    }

    method HeartbeatFires()
      requires armed == 1 && inFlight == 0
      modifies this`armed, this`inFlight, this`tick
      ensures heartbeatEnabled && registered && hasGateway ==> armed == 0 && inFlight == 1 && tick == AwaitReply
      ensures !(heartbeatEnabled && registered && hasGateway) ==>
        inFlight == 0 && tick == old(tick) && armed == if heartbeatEnabled && state != ShuttingDown then 1 else 0
    {
      armed := armed - 1;
      if !heartbeatEnabled || !registered || !hasGateway {
        ArmHeartbeat();
        return;
      }
      inFlight := inFlight + 1;
      tick := AwaitReply;
    }

    /** The end of a tick: the finally block arms the next one, unless stopped. */
    method TickEnds()
      requires Valid() && inFlight > 0
      modifies this`armed, this`inFlight, this`tick
      ensures Valid() && tick == NoTick && inFlight == 0
      ensures armed == if state == ShuttingDown then 0 else 1
    {
      inFlight := inFlight - 1;
      tick := NoTick;
      ArmHeartbeat();
    }

    /** The server answered. `stale` says whether it named sessions that the gateway then
        closed, and `active` how many connections are left after that. */
    method HeartbeatReplies(status: RemoteStatus, stale: bool, active: nat)
      requires Valid() && tick == AwaitReply
      modifies this`state, this`shut, this`waits, this`shutAt, this`code, this`exits, this`heartbeatEnabled, this`armed
      modifies this`drainTimer, this`drainCall, this`drainedAt, this`inFlight, this`tick
      ensures Valid() && Rank(old(state)) <= Rank(state) && old(exits) <= exits
      ensures old(drainedAt).Some? || old(state) == ShuttingDown ==> drainedAt == old(drainedAt)
      ensures old(state) == ShuttingDown ==> shut == old(shut) && tick == NoTick
      ensures status == RemoteShuttingDown ==> state == ShuttingDown
      ensures old(state) == Running && status == RemoteDraining ==>
        drainedAt == Some(now) && state == if active > 0 then Draining else ShuttingDown
      ensures old(state) == Running && (status == Available || status == Stalled) ==> state == Running
      ensures old(state) == Draining && status != RemoteShuttingDown ==>
        state == if stale && active == 0 then ShuttingDown else Draining
      ensures state == Draining && status != RemoteDraining ==> tick == AwaitStatus
      ensures state == Draining && status == RemoteDraining ==> tick == NoTick
    {
      if !heartbeatEnabled || state == ShuttingDown {
        TickEnds();
        return;
      }
      if stale {
        SessionClosed(active);
      }
      ObeyStatus(status, active);
    }

    method ObeyStatus(status: RemoteStatus, active: nat)
      requires Valid() && tick == AwaitReply
      modifies this`state, this`shut, this`waits, this`shutAt, this`code, this`exits, this`heartbeatEnabled, this`armed
      modifies this`drainTimer, this`drainCall, this`drainedAt, this`inFlight, this`tick
      ensures Valid() && old(exits) <= exits
      ensures state == if status == RemoteShuttingDown then ShuttingDown
                       else if old(state) == Draining then Draining
                       else if status != RemoteDraining then old(state)
                       else if old(state) == Running && active > 0 then Draining
                       else ShuttingDown
      ensures drainedAt == if old(state) == Running && status == RemoteDraining then Some(now) else old(drainedAt)
      ensures state == Draining ==> tick == if status == RemoteDraining then NoTick else AwaitStatus
      ensures old(shut) != NotShut ==> shut == old(shut) && code == old(code)
      ensures old(shut) == NotShut && state == ShuttingDown ==>
        code == 0 && shutAt == now && shut == TellingServer(now + cleanupTimeout)
      ensures old(state) == Running && state == Draining ==> drainTimer == Some(now + drainTimeout) && drainCall == None
      ensures state == old(state) != ShuttingDown ==> drainTimer == old(drainTimer) && drainCall == old(drainCall)
    {
      if status == RemoteShuttingDown {
        Shutdown(0);
        tick := AwaitShutdown;
      } else if state == Draining {
        if status != RemoteDraining {
          tick := AwaitStatus;
        } else {
          TickEnds();
        }
      } else if status == RemoteDraining {
        DrainRemotely(active);
      } else {
        TickEnds();
      }
    }

    /** The server wants the worker to drain; a tick that starts shutdown waits for it. */
    method DrainRemotely(active: nat)
      requires Valid() && tick == AwaitReply && (state == Running || state == ShuttingDown)
      modifies this`state, this`shut, this`waits, this`shutAt, this`code, this`exits, this`heartbeatEnabled, this`armed
      modifies this`drainTimer, this`drainCall, this`drainedAt, this`inFlight, this`tick
      ensures Valid() && old(exits) <= exits
      ensures old(state) == ShuttingDown ==>
        state == ShuttingDown && drainedAt == old(drainedAt) && shut == old(shut) && code == old(code)
      ensures old(state) == Running ==>
        drainedAt == Some(now) && drainCall == None && state == if active > 0 then Draining else ShuttingDown
      ensures old(state) == Running && active > 0 ==> drainTimer == Some(now + drainTimeout) && tick == NoTick
      ensures old(state) == Running && active == 0 ==>
        code == 0 && shutAt == now && shut == TellingServer(now + cleanupTimeout) && tick == AwaitShutdown
    {
      var joins := state == Running && active == 0;
      RequestDrain(false, active);
      if joins {
        tick := AwaitShutdown;
      } else {
        TickEnds();
      }
    }

    /** The heartbeat failed; a worker that the server does not know registers again. */
    method HeartbeatFails(unknownWorker: bool)
      requires Valid() && tick == AwaitReply
      modifies this`armed, this`inFlight, this`tick
      ensures Valid() && tick == if unknownWorker then AwaitRegistration else NoTick
    {
      if unknownWorker {
        tick := AwaitRegistration;
      } else {
        TickEnds();
      }
    }

    method RegistrationReturns(ok: bool)
      requires Valid() && tick == AwaitRegistration
      modifies this`armed, this`inFlight, this`tick, this`registered
      ensures Valid() && tick == if state == Draining && ok then AwaitStatus else NoTick
      ensures state == ShuttingDown ==> registered == old(registered)
    {
      if ok && state != ShuttingDown {
        registered := true;
        if state == Draining {
          tick := AwaitStatus;
          return;
        }
      }
      TickEnds();
    }

    method TickWaitEnds()
      requires Valid() && (tick == AwaitStatus || (tick == AwaitShutdown && shut.Exited?))
      modifies this`armed, this`inFlight, this`tick
      ensures Valid() && tick == NoTick
    {
      TickEnds();
    }

    // ------------------------------------------------------------- whole runs

    predicate Enabled(e: Event)
      reads this
    {
      match e
      case TimePasses(time) => NothingDueWithin(time)
      case StartGoesOn(_, _) => startPhase != Ended
      case DrainCallDone(_) => drainCall.Some?
      case DrainTimerDue => drainTimer.Some? && drainTimer.value <= now
      case HeartbeatDue => armed > 0
      case HeartbeatAnswered(_, _, _) => tick == AwaitReply
      case HeartbeatFailed(_) => tick == AwaitReply
      case RegistrationDone(_) => tick == AwaitRegistration
      case TickWaitDone => tick == AwaitStatus || (tick == AwaitShutdown && shut.Exited?)
      case ShutdownGoesOn(_) => !shut.NotShut? && !shut.Exited?
      case _ => true
    }

    /** Every wait can end, in every way in which what it waits for may answer. */
    lemma EveryWaitCanEnd(ok: bool, n: nat, status: RemoteStatus)
      requires Valid()
      ensures Enabled(DrainAsked(ok, n)) && Enabled(SessionEnded(n)) && Enabled(Failure)
      ensures startPhase != Ended ==> Enabled(StartGoesOn(ok, n > 0))
      ensures drainCall.Some? ==> Enabled(DrainCallDone(n))
      ensures drainTimer == Some(now) ==> Enabled(DrainTimerDue)
      ensures armed == 1 ==> Enabled(HeartbeatDue)
      ensures tick == AwaitReply ==> Enabled(HeartbeatAnswered(status, ok, n)) && Enabled(HeartbeatFailed(ok))
      ensures tick == AwaitRegistration ==> Enabled(RegistrationDone(ok))
      ensures tick == AwaitStatus ==> Enabled(TickWaitDone)
      ensures state == ShuttingDown && !shut.Exited? ==> Enabled(ShutdownGoesOn(ok))
      ensures state == Starting || state == Running || shut.Exited? ==> Enabled(TimePasses(n))
      ensures state == ShuttingDown && !shut.Exited? ==> Enabled(TimePasses(shut.due - now))
      ensures state == Draining && drainCall.Some? ==> Enabled(TimePasses(drainCall.value - now))
      ensures state == Draining && drainTimer.Some? ==> Enabled(TimePasses(drainTimer.value - now))
    {
    }

    method Handle(e: Event)
      requires Valid() && Enabled(e)
      modifies this
      ensures Valid() && Rank(old(state)) <= Rank(state) && old(exits) <= exits
      ensures old(drainedAt).Some? ==> drainedAt == old(drainedAt)
      ensures old(state) == Running && e.DrainAsked? ==> drainedAt == Some(now)
    {
      match e {
        case TimePasses(time) => Elapse(time);
        case StartGoesOn(ok, gatewayMade) => StartContinues(ok, gatewayMade);
        case DrainAsked(fromSignal, active) => RequestDrain(fromSignal, active);
        case DrainCallDone(active) => DrainCallReturns(active);
        case DrainTimerDue => DrainTimerFires();
        case SessionEnded(active) => SessionClosed(active);
        case Failure => Fatal();
        case HeartbeatDue => HeartbeatFires();
        case HeartbeatAnswered(status, stale, active) => HeartbeatReplies(status, stale, active);
        case HeartbeatFailed(unknownWorker) => HeartbeatFails(unknownWorker);
        case RegistrationDone(ok) => RegistrationReturns(ok);
        case TickWaitDone => TickWaitEnds();
        case ShutdownGoesOn(cleanly) => ShutdownContinues(cleanly);
      }
    }

    /** Any run: the runtime delivers the events in order and drops those that cannot
        happen. The state only moves forward, exit is called at most once, at most one
        heartbeat is armed or in flight, and once a drain request has left `running` at
        time t, the clock passes t + Budget() only after exit. */
    method Deliver(events: seq<Event>)
      requires Valid()
      modifies this
      ensures Valid() && Rank(old(state)) <= Rank(state)
      ensures old(state) != Starting ==> state != Starting
      ensures old(state) == Draining ==> state == Draining || state == ShuttingDown
      ensures old(state) == ShuttingDown ==> state == ShuttingDown
      ensures |exits| <= 1 && old(exits) <= exits && armed + inFlight <= 1
      ensures exits != [] ==>
        (registered ==> Server in waits) && (hasGateway ==> Gateway in waits) && (hasBrowser ==> Browser in waits)
      ensures old(drainedAt).Some? ==> drainedAt == old(drainedAt)
      ensures drainedAt.Some? && now > drainedAt.value + Budget() ==> |exits| == 1
      ensures drainedAt.Some? && shut.Exited? ==> shut.at <= drainedAt.value + Budget()
    {
      ghost var firstDrain, firstState, firstExits := drainedAt, state, exits;
      for i := 0 to |events|
        invariant Valid() && Rank(firstState) <= Rank(state) && firstExits <= exits
        invariant firstDrain.Some? ==> drainedAt == firstDrain
      {
        if Enabled(events[i]) {
          Handle(events[i]);
        }
      }
    }

    /** Progress: after a drain request the timers alone lead to exit within the budget,
        whatever hangs and whatever the connection count is when the drain call ends. */
    method TimersLeadToExit(active: nat)
      requires Valid() && drainedAt.Some? && !shut.Exited?
      modifies this
      ensures Valid() && shut.Exited? && |exits| == 1 && drainedAt == old(drainedAt)
      ensures old(now) <= now == shut.at <= drainedAt.value + Budget()
    {
      if state == Draining && drainCall.Some? {
        Elapse(drainCall.value - now);
        DrainCallReturns(active);
      }
      if state == Draining {
        Elapse(drainTimer.value - now);
        DrainTimerFires();
      }
      ghost var start := drainedAt;
      while !shut.Exited?
        invariant Valid() && state == ShuttingDown && drainedAt == start && old(now) <= now
        invariant shut.Exited? ==> now == shut.at
        decreases 5 - ShutRank(shut)
      {
        Elapse(shut.due - now);
        ShutdownContinues(false);
      }
    }

    /** The budget is tight: a signal whose every later call hangs and whose sessions stay
        open makes the process exit with code 0 exactly when the budget is used up. */
    method HangEverywhere(active: nat)
      requires Valid() && state == Running && active > 0
      modifies this
      ensures Valid() && shut == Exited(old(now) + Budget()) && exits == [0]
    {
      RequestDrain(true, active);
      Elapse(cleanupTimeout);
      DrainCallReturns(active);
      Elapse(drainTimeout);
      DrainTimerFires();
      HangShutdown();
    }

    method HangShutdown()
      requires Valid() && shut == TellingServer(now + cleanupTimeout) && hasGateway && hasBrowser
      modifies this`now, this`shut, this`waits, this`exits
      ensures Valid() && shut == Exited(old(now) + 3 * cleanupTimeout + browserCloseTimeout)
    {
      Elapse(cleanupTimeout);
      ShutdownContinues(false);
      Elapse(cleanupTimeout);
      ShutdownContinues(false);
      Elapse(browserCloseTimeout);
      ShutdownContinues(false);
      Elapse(cleanupTimeout);
      ShutdownContinues(false);
    }
  }
}
