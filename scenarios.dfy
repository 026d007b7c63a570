/** End-to-end runs of the pump controllers on one board, as the main loop
    drives them: a command, then update() on later millis() readings. */
module Scenarios {
  import opened Ints
  import opened Timing
  import opened Hardware
  import opened Peristaltic
  import opened Vacuum

  /** A five-second forward run at full speed keeps turning 4999 ms after
      it starts and has stopped, with no duty left, at 5000 ms. */
  method TimedForwardRun(t0: U32) returns (remainingAtStart: U32, stateAt4999: PumpState,
                                           stateAt5000: PumpState, dutyAt5000: U32)
    requires t0 + 5000 < U32_LIMIT
    ensures remainingAtStart == 5
    ensures stateAt4999 == PumpForward
    ensures stateAt5000 == PumpStopped && dutyAt5000 == 0
  {
    var board := new Board();
    var pump := new PeristalticPump(board);
    pump.ControlPump(PumpForward, 1023, 5, now := t0);
    remainingAtStart := pump.GetRemainingTime(t0);
    assert ElapsedSeconds(t0 + 4999, t0) == 4;
    pump.Update(t0 + 4999);
    stateAt4999 := pump.currentState;
    assert ElapsedSeconds(t0 + 5000, t0) == 5;
    pump.Update(t0 + 5000);
    stateAt5000 := pump.currentState;
    dutyAt5000 := board.dutyA;
  }

  /** A five-second reverse run started one second before millis() wraps
      around still stops after exactly five seconds: it turns at reading 3999
      and stops at 4000. */
  method TimedRunAcrossWrap() returns (stateAt3999: PumpState, stateAt4000: PumpState)
    ensures stateAt3999 == PumpReverse
    ensures stateAt4000 == PumpStopped
  {
    var board := new Board();
    var pump := new PeristalticPump(board);
    var t0: U32 := U32_LIMIT - 1000;
    pump.ControlPump(PumpReverse, 300, 5, now := t0);
    assert ElapsedSeconds(3999, t0) == 4;
    pump.Update(3999);
    stateAt3999 := pump.currentState;
    assert ElapsedSeconds(4000, t0) == 5;
    pump.Update(4000);
    stateAt4000 := pump.currentState;
  }

  /** A vacuum command for 95% is stored as 95% but drives the motor at the
      80% ceiling, duty 818 of 1023, with no timer when the duration is 0. */
  method VacuumSpeedCapped() returns (stored: U8, duty: U32, state: VacuumPumpState, timed: bool)
    ensures stored == 95 && duty == 818
    ensures state == VacuumRunning && !timed
  {
    var board := new Board();
    var vacuum := new VacuumPump(board);
    vacuum.ControlVacuumPump(VacuumRunning, 95, 0, now := 0);
    SafeDutyValue();
    stored := vacuum.currentSpeedPercent;
    duty := board.dutyB;
    state := vacuum.currentState;
    timed := vacuum.isTimedRun;
  }

  /** An emergency stop during a timed vacuum run stops the pump and its
      timer at once, while the commanded duration stays on record. */
  method EmergencyDuringTimedRun(t0: U32) returns (state: VacuumPumpState, duration: U32,
                                                   duty: U32, remaining: U32)
    ensures state == VacuumStopped && duration == 10 && duty == 0 && remaining == 0
  {
    var board := new Board();
    var vacuum := new VacuumPump(board);
    vacuum.ControlVacuumPump(VacuumRunning, 60, 10, now := t0);
    vacuum.EmergencyStop();
    state := vacuum.currentState;
    duration := vacuum.runDuration;
    duty := board.dutyB;
    remaining := vacuum.GetRemainingTime(t0);
  }

  /** Both pumps share STBY: stopping the vacuum pump puts the whole driver
      in standby while the peristaltic pump still reports running forward
      with its duty applied, until its next command raises STBY again. */
  method SharedStandby() returns (stbyAfterVacuumStop: bool, pumpStateThen: PumpState,
                                  pumpDutyThen: U32, stbyAfterNextCommand: bool)
    ensures !stbyAfterVacuumStop
    ensures pumpStateThen == PumpForward && pumpDutyThen == 512
    ensures stbyAfterNextCommand
  {
    var board := new Board();
    var pump := new PeristalticPump(board);
    var vacuum := new VacuumPump(board);
    pump.ControlPump(PumpForward, now := 0);
    vacuum.ControlVacuumPump(VacuumStopped, now := 0);
    stbyAfterVacuumStop := board.stby;
    pumpStateThen := pump.currentState;
    pumpDutyThen := board.dutyA;
    pump.ControlPump(PumpForward, 512, 0, now := 0);
    stbyAfterNextCommand := board.stby;
  }
}
