/**
 * The alert state machine of checkSignalSituation and the remote-flag poll,
 * and the self-rescheduling blink/buzzer cycle runAlertCycle. The module-level
 * flags of the program are the fields of one AlertEngine object.
 */
module Alert {
  import opened Wrappers
  import opened Classifier
  import opened Renderer

  /** The hardware writes an operation issues, in order. */
  datatype Command =
    | SetGlobal(r: int, g: int, b: int)  // npix.setGlobal: the whole strip in one colour
    | SetPixels(grb: seq<Byte>)          // npix.setPixels, from setPattern
    | WriteBuzzer(level: int)            // buzzer_port.write

  /** What one iteration of the cycle writes, and whether it schedules the next one. */
  datatype StepOutput = StepOutput(commands: seq<Command>, reschedule: bool)

  /** The four alert flags: isBlinking, isBuzzerActive, isBuzzerSituationActive, isBuzzerSelfActive. */
  datatype AlertFlags = AlertFlags(blinking: bool, buzzer: bool, situation: bool, remote: bool)

  /** The buzzer is on exactly when one of its two causes is. */
  predicate BuzzerIsEitherCause(f: AlertFlags)
  {
    f.buzzer == (f.situation || f.remote)
  }

  /** Readings that call for the buzzer. */
  predicate HighBand(wbgt: Option<real>, co2: Option<real>)
  {
    Above(wbgt, 35.0) || Above(co2, 20000.0)
  }

  /** Readings that call for blinking. */
  predicate MidBand(wbgt: Option<real>, co2: Option<real>)
  {
    Above(wbgt, 30.0) || Above(co2, 10000.0)
  }

  /**
   * The flag updates of checkSignalSituation. In the high band the situational
   * cause and the buzzer are set and the function returns early, leaving the
   * blink flag alone. Otherwise the situational cause is cleared (the source
   * does this only while the buzzer is on, which under the invariant is the
   * only time it can be set) and the blink flag follows the mid band.
   */
  function AfterSignal(f: AlertFlags, wbgt: Option<real>, co2: Option<real>): (r: AlertFlags)
    ensures r.remote == f.remote
    ensures BuzzerIsEitherCause(f) ==> BuzzerIsEitherCause(r)
    ensures HighBand(wbgt, co2) ==> r.situation && r.buzzer && r.blinking == f.blinking
    ensures !HighBand(wbgt, co2) && BuzzerIsEitherCause(f) ==> !r.situation && r.buzzer == f.remote
    ensures !HighBand(wbgt, co2) ==> r.blinking == MidBand(wbgt, co2)
  {
    if HighBand(wbgt, co2) then
      f.(situation := true, buzzer := true)
    else
      var cleared := if f.buzzer then f.(situation := false, buzzer := f.remote) else f;
      cleared.(blinking := MidBand(wbgt, co2))
  }

  /**
   * The flag updates of the remote poll's response handler: "TRUE" sets the
   * remote cause and the buzzer, "FALSE" clears the remote cause and the
   * buzzer unless the situational cause remains, and anything else (another
   * text, or no response at all) changes nothing.
   */
  function AfterRemote(f: AlertFlags, response: Option<string>): (r: AlertFlags)
    ensures r.situation == f.situation && r.blinking == f.blinking
    ensures BuzzerIsEitherCause(f) ==> BuzzerIsEitherCause(r)
    ensures response == Some("TRUE") ==> r.remote && r.buzzer
    ensures response == Some("FALSE") ==> !r.remote
    ensures response == Some("FALSE") && BuzzerIsEitherCause(f) ==> r.buzzer == f.situation
    ensures response != Some("TRUE") && response != Some("FALSE") ==> r == f
  {
    if response == Some("TRUE") then
      f.(remote := true, buzzer := true)
    else if response == Some("FALSE") then
      f.(remote := false, buzzer := f.buzzer && f.situation)
    else
      f
  }

  /** What reaches the flags: a pair of readings, or a response of the remote poll. */
  datatype Event =
    | Reading(wbgt: Option<real>, co2: Option<real>)
    | Remote(response: Option<string>)

  /** The flags after a run of events, each applied in turn. */
  function Replay(f: AlertFlags, events: seq<Event>): AlertFlags
    decreases |events|
  {
    if events == [] then f
    else
      var next := match events[0]
        case Reading(wbgt, co2) => AfterSignal(f, wbgt, co2)
        case Remote(response) => AfterRemote(f, response);
      Replay(next, events[1..])
  }

  /** Whatever the order of readings and responses, the buzzer stays tied to its two causes. */
  lemma {:induction false} ReplayKeepsBuzzerCause(f: AlertFlags, events: seq<Event>)
    requires BuzzerIsEitherCause(f)
    ensures BuzzerIsEitherCause(Replay(f, events))
    decreases |events|
  {
    if events != [] {
      var next := match events[0]
        case Reading(wbgt, co2) => AfterSignal(f, wbgt, co2)
        case Remote(response) => AfterRemote(f, response);
      ReplayKeepsBuzzerCause(next, events[1..]);
    }
  }

  /**
   * The buzzer goes quiet once the remote flag is withdrawn and a reading
   * outside the high band arrives, in either order.
   */
  lemma SilencedByQuietReadingAndFalse(f: AlertFlags, wbgt: Option<real>, co2: Option<real>)
    requires BuzzerIsEitherCause(f) && !HighBand(wbgt, co2)
    ensures !Replay(f, [Remote(Some("FALSE")), Reading(wbgt, co2)]).buzzer
    ensures !Replay(f, [Reading(wbgt, co2), Remote(Some("FALSE"))]).buzzer
  {
    var a := AfterRemote(f, Some("FALSE"));
    assert Replay(f, [Remote(Some("FALSE")), Reading(wbgt, co2)]) == Replay(a, [Reading(wbgt, co2)]);
    var b := AfterSignal(f, wbgt, co2);
    assert Replay(f, [Reading(wbgt, co2), Remote(Some("FALSE"))]) == Replay(b, [Remote(Some("FALSE"))]);
  }

  /** A high reading keeps the buzzer on through a withdrawn remote flag. */
  lemma HighReadingOutlastsFalse(f: AlertFlags, wbgt: Option<real>, co2: Option<real>)
    requires BuzzerIsEitherCause(f) && HighBand(wbgt, co2)
    ensures Replay(f, [Reading(wbgt, co2), Remote(Some("FALSE"))]).buzzer
  {
    var b := AfterSignal(f, wbgt, co2);
    assert Replay(f, [Reading(wbgt, co2), Remote(Some("FALSE"))]) == Replay(b, [Remote(Some("FALSE"))]);
  }

  /** Repeating a reading or a response changes nothing more. */
  lemma StepsIdempotent(f: AlertFlags, wbgt: Option<real>, co2: Option<real>, response: Option<string>)
    requires BuzzerIsEitherCause(f)
    ensures AfterSignal(AfterSignal(f, wbgt, co2), wbgt, co2) == AfterSignal(f, wbgt, co2)
    ensures AfterRemote(AfterRemote(f, response), response) == AfterRemote(f, response)
  {
  }

  /** The two writes of an active iteration: the strip red or off, and the buzzer pin. */
  function ActiveCommands(light: bool, buzzerActive: bool, buzzerPhase: bool): seq<Command>
  {
    [SetGlobal(if light then 255 else 0, 0, 0), WriteBuzzer(if buzzerActive && buzzerPhase then 1 else 0)]
  }

  /** The bytes of decideRgb for the stored levels, with the default light reading. */
  function SteadyPattern(heat: nat, gas: nat): seq<Byte>
    requires heat <= MaxLevel && gas <= MaxLevel
  {
    GrbBytes(Compose(heat, gas, DefaultCds))
  }

  class AlertEngine {
    var alertCycleActive: bool
    var isBlinking: bool
    var isBuzzerActive: bool
    var isBuzzerSituationActive: bool
    var isBuzzerSelfActive: bool
    var buzzerState: bool
    var lightBlinkState: bool
    /** The heat and CO2 severity levels last classified. */
    const lightSignalStatus: array<nat>
    /** Iterations of runAlertCycle the runtime holds scheduled (setTimeout, 500 ms). */
    ghost var pendingTimers: nat

    ghost function Flags(): AlertFlags
      reads this
    {
      AlertFlags(isBlinking, isBuzzerActive, isBuzzerSituationActive, isBuzzerSelfActive)
    }

    /** Levels in range and the buzzer tied to its causes. */
    ghost predicate Sound()
      reads this, lightSignalStatus
    {
      && lightSignalStatus.Length == 2
      && lightSignalStatus[0] <= MaxLevel
      && lightSignalStatus[1] <= MaxLevel
      && BuzzerIsEitherCause(Flags())
    }

    /** A cycle is running exactly when one iteration is scheduled: never two loops. */
    ghost predicate OneLoop()
      reads this
    {
      pendingTimers == if alertCycleActive then 1 else 0
    }

    /** Besides, whenever blinking or the buzzer is wanted a cycle is running. */
    ghost predicate Valid()
      reads this, lightSignalStatus
    {
      Sound() && OneLoop() && ((isBlinking || isBuzzerActive) ==> alertCycleActive)
    }

    constructor ()
      ensures Valid() && fresh(lightSignalStatus)
      ensures !alertCycleActive && !isBlinking && !isBuzzerActive
      ensures !isBuzzerSituationActive && !isBuzzerSelfActive
      ensures !buzzerState && !lightBlinkState
      ensures lightSignalStatus[..] == [0, 0]
    {
      alertCycleActive, isBlinking, isBuzzerActive := false, false, false;
      isBuzzerSituationActive, isBuzzerSelfActive := false, false;
      buzzerState, lightBlinkState := false, false;
      lightSignalStatus := new nat[2](_ => 0);
      pendingTimers := 0;
    }

    /**
     * One iteration of runAlertCycle. With nothing to show it stops the cycle,
     * renders the stored levels and silences the buzzer; otherwise it flips
     * the strip between red and off, flips the buzzer phase while the buzzer
     * is wanted (holding the pin low while it is not), and schedules itself:
     * exactly one more timer is pending afterwards. Whoever calls it accounts
     * for the timer that triggered it, if any (see TimerFired).
     */
    method RunAlertCycle() returns (out: StepOutput)
      requires Sound()
      modifies this
      ensures Sound()
      ensures Flags() == old(Flags())
      ensures out.reschedule == alertCycleActive == (isBlinking || isBuzzerActive)
      ensures pendingTimers == old(pendingTimers) + (if out.reschedule then 1 else 0)
      ensures !out.reschedule ==>
                && lightBlinkState == old(lightBlinkState)
                && buzzerState == old(buzzerState)
                && out.commands == [SetPixels(SteadyPattern(lightSignalStatus[0], lightSignalStatus[1])), WriteBuzzer(0)]
      ensures out.reschedule ==>
                && lightBlinkState == !old(lightBlinkState)
                && buzzerState == (old(buzzerState) != isBuzzerActive)
                && out.commands == ActiveCommands(lightBlinkState, isBuzzerActive, buzzerState)
    {
      alertCycleActive := true;
      if !isBlinking && !isBuzzerActive {
        alertCycleActive := false;
        var sendRgb, grb := DecideRgb(lightSignalStatus[0], lightSignalStatus[1], DefaultCds);
        out := StepOutput([SetPixels(grb), WriteBuzzer(0)], false);
        return;
      }
      var commands := Toggle();
      pendingTimers := pendingTimers + 1;
      out := StepOutput(commands, true);
    }

    /**
     * The pending `setTimeout(runAlertCycle, 500)` fires: its timer leaves the
     * queue and the iteration runs. The loop goes on exactly while blinking or
     * the buzzer is wanted, and then it is again the only timer pending.
     */
    method TimerFired() returns (out: StepOutput)
      requires Valid() && alertCycleActive
      modifies this
      ensures Valid()
      ensures Flags() == old(Flags())
      ensures out.reschedule == alertCycleActive == (isBlinking || isBuzzerActive)
      ensures pendingTimers == if out.reschedule then 1 else 0
      ensures !out.reschedule ==>
                && lightBlinkState == old(lightBlinkState)
                && buzzerState == old(buzzerState)
                && out.commands == [SetPixels(SteadyPattern(lightSignalStatus[0], lightSignalStatus[1])), WriteBuzzer(0)]
      ensures out.reschedule ==>
                && lightBlinkState == !old(lightBlinkState)
                && buzzerState == (old(buzzerState) != isBuzzerActive)
                && out.commands == ActiveCommands(lightBlinkState, isBuzzerActive, buzzerState)
    {
      pendingTimers := pendingTimers - 1;
      out := RunAlertCycle();
    }

    /**
     * The active part of runAlertCycle: flip the strip between red and off,
     * and flip the buzzer phase while the buzzer is wanted, holding the pin
     * low while it is not.
     */
    method Toggle() returns (commands: seq<Command>)
      requires isBlinking || isBuzzerActive
      modifies this
      ensures Flags() == old(Flags())
      ensures alertCycleActive == old(alertCycleActive) && pendingTimers == old(pendingTimers)
      ensures lightBlinkState == !old(lightBlinkState)
      ensures buzzerState == (old(buzzerState) != isBuzzerActive)
      ensures commands == ActiveCommands(lightBlinkState, isBuzzerActive, buzzerState)
    {
      commands := [];
      if isBlinking || isBuzzerActive {
        lightBlinkState := !lightBlinkState;
        commands := commands + [SetGlobal(if lightBlinkState then 255 else 0, 0, 0)];
      } else {
        // The source renders the stored levels here; the early return in
        // runAlertCycle leaves this branch dead.
        assert false;
      }
      if isBuzzerActive {
        buzzerState := !buzzerState;
        commands := commands + [WriteBuzzer(if buzzerState then 1 else 0)];
      } else {
        commands := commands + [WriteBuzzer(0)];
      }
    }

    /**
     * The guard at each call site, `if(!alertCycleActive) runAlertCycle()`:
     * with a cycle already running it does nothing, so no second loop starts.
     */
    method StartCycle() returns (commands: seq<Command>)
      requires Sound() && OneLoop()
      requires isBlinking || isBuzzerActive
      modifies this
      ensures Valid() && alertCycleActive
      ensures Flags() == old(Flags())
      ensures old(alertCycleActive) ==> unchanged(this) && commands == []
      ensures !old(alertCycleActive) ==>
                && lightBlinkState == !old(lightBlinkState)
                && buzzerState == (old(buzzerState) != isBuzzerActive)
                && commands == ActiveCommands(lightBlinkState, isBuzzerActive, buzzerState)
    {
      commands := [];
      if !alertCycleActive {
        var out := RunAlertCycle();
        commands := out.commands;
      }
    }

    /**
     * checkSignalSituation on one pair of readings: update the alert flags,
     * start the cycle when an alert is wanted and none runs, and outside the
     * high band classify both readings and render them.
     */
    method CheckSignalSituation(wbgt: Option<real>, co2: Option<real>) returns (commands: seq<Command>)
      requires Valid()
      modifies this, lightSignalStatus
      ensures Valid()
      ensures Flags() == AfterSignal(old(Flags()), wbgt, co2)
      ensures HighBand(wbgt, co2) ==>
                && lightSignalStatus[..] == old(lightSignalStatus[..])
                && alertCycleActive
                && lightBlinkState == (old(lightBlinkState) != !old(alertCycleActive))
                && buzzerState == (old(buzzerState) != !old(alertCycleActive))
                && commands == if old(alertCycleActive) then [] else ActiveCommands(lightBlinkState, true, buzzerState)
      ensures !HighBand(wbgt, co2) ==>
                var started := !old(alertCycleActive) && MidBand(wbgt, co2);
                && lightSignalStatus[..] == [Level(wbgt, WbgtLine), Level(co2, Co2Line)]
                && alertCycleActive == (old(alertCycleActive) || started)
                && lightBlinkState == (old(lightBlinkState) != started)
                && buzzerState == (old(buzzerState) != (started && isBuzzerActive))
                && commands == (if started then ActiveCommands(lightBlinkState, isBuzzerActive, buzzerState) else [])
                               + [SetPixels(SteadyPattern(lightSignalStatus[0], lightSignalStatus[1]))]
    {
      if Above(wbgt, 35.0) || Above(co2, 20000.0) {
        commands := RaiseSituation();
        return;
      } else {
        ClearSituation();
      }
      commands := FollowMidBand(Above(wbgt, 30.0) || Above(co2, 10000.0));
      var render := ClassifyAndRender(wbgt, co2);
      commands := commands + [render];
    }

    /**
     * The high-band branch of checkSignalSituation: the situational cause
     * switches the buzzer on and the cycle starts unless one runs.
     */
    method RaiseSituation() returns (commands: seq<Command>)
      requires Valid()
      modifies this
      ensures Valid() && alertCycleActive
      ensures Flags() == old(Flags()).(situation := true, buzzer := true)
      ensures lightBlinkState == (old(lightBlinkState) != !old(alertCycleActive))
      ensures buzzerState == (old(buzzerState) != !old(alertCycleActive))
      ensures commands == if old(alertCycleActive) then [] else ActiveCommands(lightBlinkState, true, buzzerState)
    {
      commands := [];
      isBuzzerSituationActive := true;
      if isBuzzerSelfActive || isBuzzerSituationActive {
        isBuzzerActive := true;
        commands := StartCycle();
      }
    }

    /**
     * The mid-band test of checkSignalSituation: blinking follows the band,
     * and starting to blink starts the cycle unless one runs.
     */
    method FollowMidBand(mid: bool) returns (commands: seq<Command>)
      requires Valid()
      modifies this
      ensures Valid()
      ensures Flags() == old(Flags()).(blinking := mid)
      ensures var started := !old(alertCycleActive) && mid;
              && alertCycleActive == (old(alertCycleActive) || started)
              && lightBlinkState == (old(lightBlinkState) != started)
              && buzzerState == (old(buzzerState) != (started && isBuzzerActive))
              && commands == if started then ActiveCommands(lightBlinkState, isBuzzerActive, buzzerState) else []
    {
      commands := [];
      if mid {
        isBlinking := true;
        commands := StartCycle();
      } else {
        if isBlinking {
          isBlinking := false;
        }
      }
    }

    /**
     * The else branch of checkSignalSituation's high-band test: while the
     * buzzer is on, drop the situational cause and silence the buzzer unless
     * the remote cause still wants it.
     */
    method ClearSituation()
      requires Sound()
      modifies this
      ensures Sound()
      ensures !isBuzzerSituationActive && isBuzzerActive == isBuzzerSelfActive
      ensures isBuzzerActive ==> old(isBuzzerActive)
      ensures isBlinking == old(isBlinking) && isBuzzerSelfActive == old(isBuzzerSelfActive)
      ensures alertCycleActive == old(alertCycleActive) && pendingTimers == old(pendingTimers)
      ensures lightBlinkState == old(lightBlinkState) && buzzerState == old(buzzerState)
    {
      if isBuzzerActive {
        isBuzzerSituationActive := false;
        if !(isBuzzerSelfActive || isBuzzerSituationActive) {
          isBuzzerActive := false;
        }
      }
    }

    /**
     * The tail of checkSignalSituation outside the high band: the two
     * descending scans write the levels, and decideRgb renders them.
     */
    method ClassifyAndRender(wbgt: Option<real>, co2: Option<real>) returns (render: Command)
      requires lightSignalStatus.Length == 2
      modifies lightSignalStatus
      ensures lightSignalStatus[..] == [Level(wbgt, WbgtLine), Level(co2, Co2Line)]
      ensures render == SetPixels(SteadyPattern(lightSignalStatus[0], lightSignalStatus[1]))
    {
      var heat := ScanLevel(wbgt, WbgtLine);
      lightSignalStatus[0] := heat;
      var gas := ScanLevel(co2, Co2Line);
      lightSignalStatus[1] := gas;
      var sendRgb, grb := DecideRgb(lightSignalStatus[0], lightSignalStatus[1], DefaultCds);
      render := SetPixels(grb);
    }

    /**
     * The response handler of the remote poll. `response` is the body text,
     * or None when the request failed or answered with an HTTP error.
     */
    method RemoteUpdate(response: Option<string>) returns (commands: seq<Command>)
      requires Valid()
      modifies this
      ensures Valid()
      ensures Flags() == AfterRemote(old(Flags()), response)
      ensures var started := !old(alertCycleActive) && response == Some("TRUE");
              && alertCycleActive == (old(alertCycleActive) || started)
              && lightBlinkState == (old(lightBlinkState) != started)
              && buzzerState == (old(buzzerState) != started)
              && commands == if started then ActiveCommands(lightBlinkState, true, buzzerState) else []
    {
      commands := [];
      if response == Some("TRUE") {
        isBuzzerSelfActive := true;
        if isBuzzerSelfActive || isBuzzerSituationActive {
          isBuzzerActive := true;
          commands := StartCycle();
        }
      } else if response == Some("FALSE") {
        isBuzzerSelfActive := false;
        if !(isBuzzerSelfActive || isBuzzerSituationActive) {
          isBuzzerActive := false;
        }
      }
    }
  }
}
