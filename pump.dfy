/** The peristaltic pump: a bidirectional pump on H-bridge channel A with
    three states and timed runs that stop themselves. */
module Peristaltic {
  import opened Ints
  import opened Timing
  import opened Hardware

  datatype PumpState = PumpStopped | PumpForward | PumpReverse

  /** Default arguments of controlPump. */
  const DEFAULT_SPEED: U16 := 512
  const DEFAULT_DURATION: U32 := 0

  class PeristalticPump {
    /** The driver pins; shared with the vacuum pump. */
    const board: Board

    var currentState: PumpState
    /** Duty written to the channel; the class itself never clamps it. */
    var currentSpeed: U16
    /** Seconds of a timed run; 0 means run until stopped. */
    var runDuration: U32
    var pumpStartTime: U32
    var isTimedRun: bool
    var lastDuty: U32

    /** A timed run is only ever active while the pump turns, and a stopped
        pump applies no duty. */
    ghost predicate Valid()
      reads this
    {
      && (isTimedRun ==> currentState != PumpStopped && runDuration > 0)
      && (currentState == PumpStopped ==> lastDuty == 0)
    }

    constructor (board: Board)
      ensures this.board == board && Valid()
      ensures currentState == PumpStopped && currentSpeed == 512 && runDuration == 5
      ensures pumpStartTime == 0 && !isTimedRun && lastDuty == 0
    {
      this.board := board;
      currentState := PumpStopped;
      currentSpeed := 512;
      runDuration := 5;
      pumpStartTime := 0;
      isTimedRun := false;
      lastDuty := 0;
    }

    function GetCurrentState(): PumpState reads this { currentState }
    function GetCurrentSpeed(): U16 reads this { currentSpeed }
    function GetRunDuration(): U32 reads this { runDuration }
    function GetIsTimedRun(): bool reads this { isTimedRun }
    function GetPumpStartTime(): U32 reads this { pumpStartTime }

    /** Freewheel: both direction pins low and no duty; STBY untouched. */
    method MotorCoast()
      modifies this`lastDuty, board`ain1, board`ain2, board`dutyA
      ensures !board.ain1 && !board.ain2 && board.dutyA == 0 && lastDuty == 0
    {
      board.ain1 := false;
      board.ain2 := false;
      board.dutyA := 0;
      lastDuty := 0;
    }

    /** Short brake: both direction pins high and no duty; STBY untouched. */
    method MotorBrake()
      modifies this`lastDuty, board`ain1, board`ain2, board`dutyA
      ensures board.ain1 && board.ain2 && board.dutyA == 0 && lastDuty == 0
    {
      board.ain1 := true;
      board.ain2 := true;
      board.dutyA := 0;
      lastDuty := 0;
    }

    /** Enable the driver and drive forward (AIN1 high, AIN2 low) at `speed`. */
    method MotorForward(speed: U16)
      modifies this`lastDuty, board`stby, board`ain1, board`ain2, board`dutyA
      ensures board.stby && board.ain1 && !board.ain2
      ensures board.dutyA == speed && lastDuty == speed
    {
      board.stby := true;
      board.ain1 := true;
      board.ain2 := false;
      board.dutyA := speed;
      lastDuty := speed;
    }

    /** Enable the driver and drive in reverse (AIN1 low, AIN2 high) at `speed`. */
    method MotorReverse(speed: U16)
      modifies this`lastDuty, board`stby, board`ain1, board`ain2, board`dutyA
      ensures board.stby && !board.ain1 && board.ain2
      ensures board.dutyA == speed && lastDuty == speed
    {
      board.stby := true;
      board.ain1 := false;
      board.ain2 := true;
      board.dutyA := speed;
      lastDuty := speed;
    }

    /** controlPump: records the command as given (speed is not clamped)
        and drives channel A accordingly; `now` is the millis() reading. */
    method ControlPump(state: PumpState, speed: U16 := DEFAULT_SPEED,
                       duration: U32 := DEFAULT_DURATION, nameonly now: U32)
      modifies this, board`stby, board`ain1, board`ain2, board`dutyA
      ensures Valid()
      ensures currentState == state && currentSpeed == speed && runDuration == duration
      ensures state == PumpStopped ==>
        && !isTimedRun && lastDuty == 0 && pumpStartTime == old(pumpStartTime)
        && !board.ain1 && !board.ain2 && board.dutyA == 0 && board.stby == old(board.stby)
      ensures state != PumpStopped ==>
        && lastDuty == speed && board.dutyA == speed && board.stby
        && isTimedRun == (duration > 0)
        && pumpStartTime == (if duration > 0 then now else old(pumpStartTime))
      ensures state == PumpForward ==> board.ain1 && !board.ain2
      ensures state == PumpReverse ==> !board.ain1 && board.ain2
    {
      currentState := state;
      currentSpeed := speed;
      runDuration := duration;

      match state
      case PumpStopped =>
        MotorCoast();
        isTimedRun := false;
      case PumpForward =>
        MotorForward(speed);
        if duration > 0 {
          isTimedRun := true;
          pumpStartTime := now;
        } else {
          isTimedRun := false;
        }
      case PumpReverse =>
        MotorReverse(speed);
        if duration > 0 {
          isTimedRun := true;
          pumpStartTime := now;
        } else {
          isTimedRun := false;
        }
    }

    /** The condition under which update() at time `now` ends a timed run. */
    predicate TimedRunExpired(now: U32)
      reads this
      ensures TimedRunExpired(now) <==>
        && isTimedRun && currentState != PumpStopped
        && (now - pumpStartTime) % U32_LIMIT >= runDuration * 1000
    {
      ElapsedReached(now, pumpStartTime, runDuration);
      isTimedRun && currentState != PumpStopped
      && ElapsedSeconds(now, pumpStartTime) >= runDuration
    }

    /** update: stop a timed run whose duration has elapsed, else do nothing. */
    method Update(now: U32)
      requires Valid()
      modifies this, board`stby, board`ain1, board`ain2, board`dutyA
      ensures Valid() && !TimedRunExpired(now)
      ensures old(TimedRunExpired(now)) ==>
        && currentState == PumpStopped && !isTimedRun && runDuration == 0 && lastDuty == 0
        && currentSpeed == old(currentSpeed) && pumpStartTime == old(pumpStartTime)
        && !board.ain1 && !board.ain2 && board.dutyA == 0 && board.stby == old(board.stby)
      ensures !old(TimedRunExpired(now)) ==> unchanged(this) && unchanged(board)
    {
      if isTimedRun && currentState != PumpStopped {
        var elapsedTime := ElapsedSeconds(now, pumpStartTime);
        if elapsedTime >= runDuration {
          ControlPump(PumpStopped, currentSpeed, 0, now := now);
        }
      }
    }

    /** getRemainingTime: seconds left of an active timed run, else 0. */
    function GetRemainingTime(now: U32): (r: U32)
      reads this
      ensures r <= runDuration
      ensures r == 0 <==> !(isTimedRun && currentState != PumpStopped) || TimedRunExpired(now)
      ensures r > 0 ==> r + ElapsedSeconds(now, pumpStartTime) == runDuration
    {
      if isTimedRun && currentState != PumpStopped then
        RemainingSeconds(runDuration, ElapsedSeconds(now, pumpStartTime))
      else
        0
    }
  }

  /** While a run proceeds, the remaining time never grows. */
  lemma RemainingTimeNonIncreasing(p: PeristalticPump, now1: U32, now2: U32)
    requires p.pumpStartTime <= now1 <= now2
    ensures p.GetRemainingTime(now2) <= p.GetRemainingTime(now1)
  {
    if p.isTimedRun && p.currentState != PumpStopped {
      RemainingNonIncreasing(p.runDuration, p.pumpStartTime, now1, now2);
    }
  }
}
