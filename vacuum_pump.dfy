/** The vacuum pump: a forward-only pump on H-bridge channel B with a
    hard 80% duty ceiling, a safety gate, an emergency stop and the same
    timed runs as the peristaltic pump. */
module Vacuum {
  import opened Ints
  import opened Timing
  import opened Hardware

  datatype VacuumPumpState = VacuumStopped | VacuumRunning

  /** PWM resolution in bits. */
  const PWM_RES: nat := 10
  /** The fixed safety ceiling, in percent, of the duty the motor receives. */
  const SAFE_SPEED_PERCENT: U8 := 80
  /** Default arguments of controlVacuumPump. */
  const DEFAULT_SPEED_PERCENT: U8 := 100
  const DEFAULT_DURATION: U32 := 0

  function Pow2(n: nat): (r: nat)
    ensures r >= 1
  {
    if n == 0 then 1 else 2 * Pow2(n - 1)
  }

  /** getMaxDuty: (1 << PWM_RES) - 1. */
  function GetMaxDuty(): (r: U32)
    ensures r == 1023
  {
    Pow2(PWM_RES) - 1
  }

  /** percentToDuty: clamp the percent to 100, then scale it to a duty,
      rounding down. */
  function PercentToDuty(percent: U8): (d: U32)
    ensures d <= GetMaxDuty()
    ensures 100 * d <= Min(percent, 100) * 1023 < 100 * d + 100
  {
    var p := if percent > 100 then 100 else percent;
    (p * GetMaxDuty()) / 100
  }

  /** dutyToPercent: clamp the duty to the maximum, then scale it to a
      percent, rounding down. */
  function DutyToPercent(duty: U32): (p: U8)
    ensures p <= 100
    ensures 1023 * p <= 100 * Min(duty, 1023) < 1023 * p + 1023
  {
    var d := if duty > GetMaxDuty() then GetMaxDuty() else duty;
    (d * 100) / GetMaxDuty()
  }

  /** The duty a percent command produces grows with the percent. */
  lemma PercentToDutyMonotone(p: U8, q: U8)
    requires p <= q
    ensures PercentToDuty(p) <= PercentToDuty(q)
  {
    assert Min(p, 100) <= Min(q, 100);
  }

  /** Converting a percent to a duty and back loses at most one percent. */
  lemma PercentDutyRoundTrip(p: U8)
    requires p <= 100
    ensures var q := DutyToPercent(PercentToDuty(p)); q == p || q + 1 == p
  {
    var d := PercentToDuty(p);
    var q := DutyToPercent(d);
    assert 100 * d <= p * 1023 < 100 * d + 100;
    assert 1023 * q <= 100 * d < 1023 * q + 1023;
  }

  /** The largest duty the motor is ever given: that of 80%, i.e. 818. */
  lemma SafeDutyValue()
    ensures PercentToDuty(SAFE_SPEED_PERCENT) == 818
  {
    var d := PercentToDuty(SAFE_SPEED_PERCENT);
    assert 100 * d <= 81840 < 100 * d + 100;
  }

  class VacuumPump {
    /** The driver pins; shared with the peristaltic pump. */
    const board: Board

    var currentState: VacuumPumpState
    /** The percent last commanded, before the safety ceiling. */
    var currentSpeedPercent: U8
    var runDuration: U32
    var pumpStartTime: U32
    var isTimedRun: bool
    var lastDuty: U32

    /** A timed run is only active while running, a stopped pump applies no
        duty, and the duty last recorded never exceeds that of the safety
        ceiling (brake's momentary full duty ends in a coast, which records
        0). */
    ghost predicate Valid()
      reads this
    {
      && (isTimedRun ==> currentState == VacuumRunning && runDuration > 0)
      && (currentState == VacuumStopped ==> lastDuty == 0)
      && lastDuty <= PercentToDuty(SAFE_SPEED_PERCENT)
    }

    constructor (board: Board)
      ensures this.board == board && Valid()
      ensures currentState == VacuumStopped && currentSpeedPercent == 100 && runDuration == 5
      ensures pumpStartTime == 0 && !isTimedRun && lastDuty == 0
    {
      this.board := board;
      currentState := VacuumStopped;
      currentSpeedPercent := 100;
      runDuration := 5;
      pumpStartTime := 0;
      isTimedRun := false;
      lastDuty := 0;
    }

    function GetCurrentState(): VacuumPumpState reads this { currentState }
    function GetCurrentSpeed(): U8 reads this { currentSpeedPercent }
    function GetRunDuration(): U32 reads this { runDuration }
    function GetIsTimedRun(): bool reads this { isTimedRun }
    function GetPumpStartTime(): U32 reads this { pumpStartTime }

    /** isSafeToRun: the hook for sensor interlocks, which as written
        admits every command. */
    predicate IsSafeToRun()
      ensures IsSafeToRun()
    {
      true
    }

    /** The safety gate drops RUNNING commands only, so a stop always
        passes; with the hook as written it drops nothing. */
    predicate Blocks(state: VacuumPumpState)
      ensures Blocks(state) ==> state == VacuumRunning
      ensures !Blocks(state)
    {
      !IsSafeToRun() && state == VacuumRunning
    }

    /** disableDriver: no duty and STBY low, which also idles channel A. */
    method DisableDriver()
      modifies this`lastDuty, board`dutyB, board`stby
      ensures board.dutyB == 0 && !board.stby && lastDuty == 0
    {
      board.dutyB := 0;
      board.stby := false;
      lastDuty := 0;
    }

    /** enableDriver: STBY high (the settling delay is not modelled). */
    method EnableDriver()
      modifies board`stby
      ensures board.stby
    {
      board.stby := true;
    }

    /** Coast: no duty, both direction pins low, driver disabled. */
    method MotorCoast()
      modifies this`lastDuty, board`dutyB, board`bin1, board`bin2, board`stby
      ensures !board.bin1 && !board.bin2 && board.dutyB == 0 && !board.stby && lastDuty == 0
    {
      board.dutyB := 0;
      board.bin1 := false;
      board.bin2 := false;
      DisableDriver();
      lastDuty := 0;
    }

    /** Brake at full duty for a moment, then coast; only the coasted state
        outlives the call. */
    method MotorBrake()
      modifies this`lastDuty, board`dutyB, board`bin1, board`bin2, board`stby
      ensures !board.bin1 && !board.bin2 && board.dutyB == 0 && !board.stby && lastDuty == 0
    {
      EnableDriver();
      board.bin1 := true;
      board.bin2 := true;
      board.dutyB := GetMaxDuty();
      lastDuty := GetMaxDuty();
      MotorCoast();
    }

    /** Drive forward at the commanded percent, capped at the safety ceiling. */
    method MotorForward(speedPercent: U8)
      modifies this`lastDuty, board`dutyB, board`bin1, board`bin2, board`stby
      ensures board.stby && board.bin1 && !board.bin2
      ensures lastDuty == PercentToDuty(Min(speedPercent, SAFE_SPEED_PERCENT))
      ensures board.dutyB == lastDuty && lastDuty <= PercentToDuty(SAFE_SPEED_PERCENT)
    {
      var percent := speedPercent;
      if percent > SAFE_SPEED_PERCENT {
        percent := SAFE_SPEED_PERCENT;
      }
      var duty := PercentToDuty(percent);
      PercentToDutyMonotone(percent, SAFE_SPEED_PERCENT);
      EnableDriver();
      board.bin1 := true;
      board.bin2 := false;
      board.dutyB := duty;
      lastDuty := duty;
    }

    /** controlVacuumPump: unless the safety gate drops it, record the
        command as given and drive channel B accordingly. */
    method ControlVacuumPump(state: VacuumPumpState, speedPercent: U8 := DEFAULT_SPEED_PERCENT,
                             duration: U32 := DEFAULT_DURATION, nameonly now: U32)
      requires Valid()
      modifies this, board`dutyB, board`bin1, board`bin2, board`stby
      ensures Valid()
      ensures Blocks(state) ==> unchanged(this) && unchanged(board)
      ensures !Blocks(state) ==>
        currentState == state && currentSpeedPercent == speedPercent && runDuration == duration
      ensures !Blocks(state) && state == VacuumStopped ==>
        && !isTimedRun && lastDuty == 0 && pumpStartTime == old(pumpStartTime)
        && board.dutyB == 0 && !board.bin1 && !board.bin2 && !board.stby
      ensures !Blocks(state) && state == VacuumRunning ==>
        && lastDuty == PercentToDuty(Min(speedPercent, SAFE_SPEED_PERCENT))
        && board.dutyB == lastDuty && board.bin1 && !board.bin2 && board.stby
        && isTimedRun == (duration > 0)
        && pumpStartTime == (if duration > 0 then now else old(pumpStartTime))
    {
      if !IsSafeToRun() && state == VacuumRunning {
        return;
      }

      currentState := state;
      currentSpeedPercent := speedPercent;
      runDuration := duration;

      match state
      case VacuumStopped =>
        MotorCoast();
        isTimedRun := false;
      case VacuumRunning =>
        MotorForward(speedPercent);
        if duration > 0 {
          isTimedRun := true;
          pumpStartTime := now;
        } else {
          isTimedRun := false;
        }
    }

    /** The condition under which update() at time `now` ends a timed run. */
    predicate TimedRunExpired(now: U32)
      reads this
      ensures TimedRunExpired(now) <==>
        && isTimedRun && currentState != VacuumStopped
        && (now - pumpStartTime) % U32_LIMIT >= runDuration * 1000
    {
      ElapsedReached(now, pumpStartTime, runDuration);
      isTimedRun && currentState != VacuumStopped
      && ElapsedSeconds(now, pumpStartTime) >= runDuration
    }

    /** update: stop a timed run whose duration has elapsed, else do nothing. */
    method Update(now: U32)
      requires Valid()
      modifies this, board`dutyB, board`bin1, board`bin2, board`stby
      ensures Valid() && !TimedRunExpired(now)
      ensures old(TimedRunExpired(now)) ==>
        && currentState == VacuumStopped && !isTimedRun && runDuration == 0 && lastDuty == 0
        && currentSpeedPercent == old(currentSpeedPercent) && pumpStartTime == old(pumpStartTime)
        && board.dutyB == 0 && !board.bin1 && !board.bin2 && !board.stby
      ensures !old(TimedRunExpired(now)) ==> unchanged(this) && unchanged(board)
    {
      if isTimedRun && currentState != VacuumStopped {
        var elapsedTime := ElapsedSeconds(now, pumpStartTime);
        if elapsedTime >= runDuration {
          ControlVacuumPump(VacuumStopped, currentSpeedPercent, 0, now := now);
        }
      }
    }

    /** getRemainingTime: seconds left of an active timed run, else 0. */
    function GetRemainingTime(now: U32): (r: U32)
      reads this
      ensures r <= runDuration
      ensures r == 0 <==> !(isTimedRun && currentState != VacuumStopped) || TimedRunExpired(now)
      ensures r > 0 ==> r + ElapsedSeconds(now, pumpStartTime) == runDuration
    {
      if isTimedRun && currentState != VacuumStopped then
        RemainingSeconds(runDuration, ElapsedSeconds(now, pumpStartTime))
      else
        0
    }

    /** emergencyStop: cut the duty and drop STBY, then mark the pump
        stopped; direction pins, speed, duration and start time are left
        as they were. */
    method EmergencyStop()
      modifies this`currentState, this`isTimedRun, this`lastDuty, board`dutyB, board`stby
      ensures Valid()
      ensures currentState == VacuumStopped && !isTimedRun && lastDuty == 0
      ensures board.dutyB == 0 && !board.stby
      ensures currentSpeedPercent == old(currentSpeedPercent) && runDuration == old(runDuration)
      ensures pumpStartTime == old(pumpStartTime)
      ensures board.bin1 == old(board.bin1) && board.bin2 == old(board.bin2)
    {
      DisableDriver();
      currentState := VacuumStopped;
      isTimedRun := false;
    }
  }

  /** While a run proceeds, the remaining time never grows. */
  lemma RemainingTimeNonIncreasing(p: VacuumPump, now1: U32, now2: U32)
    requires p.pumpStartTime <= now1 <= now2
    ensures p.GetRemainingTime(now2) <= p.GetRemainingTime(now1)
  {
    if p.isTimedRun && p.currentState != VacuumStopped {
      RemainingNonIncreasing(p.runDuration, p.pumpStartTime, now1, now2);
    }
  }
}
