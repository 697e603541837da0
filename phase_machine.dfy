/**
 * The two-threshold rep-phase machine that the push-up, squat and lunge
 * validators each implement in their `detectRepPhase`. It runs on a primary
 * joint angle (elbow or knee) and one tracked vertical coordinate (image y,
 * which grows downwards):
 *   - below 90 degrees the movement is at the bottom: `Down` is signalled once
 *     on entry, then `Hold` while it persists;
 *   - above the exercise's top threshold it is at the top: likewise `Up`;
 *   - in between, a change of the tracked coordinate by more than 0.01 since
 *     the last remembered value signals the direction of travel (once);
 *     otherwise the coordinate is remembered and the last signalled phase is
 *     repeated.
 * Each validator class is proved to compute exactly `Step` on its own fields.
 */
module PhaseMachine {
  import opened Numeric
  import opened FormValidator

  /** The bottom threshold, shared by all three machines. */
  const BottomAngle: real := 90.0

  /** The dead-band on the tracked coordinate. */
  const DeadBand: real := 0.01

  /** A validator's private memory: the last signalled phase and the last remembered coordinate. */
  datatype PhaseMemory = PhaseMemory(previousPhase: Option<Phase>, previousY: Option<real>)
  {
    /** The memory only ever records `Up` or `Down` (the source's field type is 'up' | 'down' | null). */
    predicate Valid()
    {
      previousPhase != Some(Hold)
    }
  }

  /** What one call answers, and the memory it leaves behind. */
  datatype StepResult = StepResult(phase: Option<Phase>, memory: PhaseMemory)

  /** The memory a validator starts with. */
  const Initial: PhaseMemory := PhaseMemory(None, None)

  /** One frame of the machine: `angle` is the primary joint angle, `y` the tracked coordinate. */
  function Step(mem: PhaseMemory, angle: real, y: real, top: real): (r: StepResult)
    requires BottomAngle <= top && mem.Valid()
    // the memory never records Hold
    ensures r.memory.Valid()
    // a signalled Up or Down is always what the memory now holds
    ensures r.phase == Some(Up) || r.phase == Some(Down) ==> r.memory.previousPhase == r.phase
    // Hold is answered only while the bottom or the top persists, and changes nothing
    ensures r.phase == Some(Hold) <==>
              (angle < BottomAngle && mem.previousPhase == Some(Down)) ||
              (top < angle && mem.previousPhase == Some(Up))
    ensures r.phase == Some(Hold) ==> r.memory == mem
    // the bottom and the top band never touch the remembered coordinate
    ensures angle < BottomAngle || top < angle ==> r.memory.previousY == mem.previousY
    ensures angle < BottomAngle ==> r.memory.previousPhase == Some(Down) && r.phase != Some(Up)
    ensures top < angle ==> r.memory.previousPhase == Some(Up) && r.phase != Some(Down)
    // in the middle band the coordinate is remembered exactly when no new phase is signalled
    ensures BottomAngle <= angle <= top ==>
              (r.memory.previousY == Some(y) <==> r.phase == mem.previousPhase) &&
              (r.phase == mem.previousPhase ==> r.memory == mem.(previousY := Some(y))) &&
              (r.phase != mem.previousPhase ==> r.memory.previousY == mem.previousY)
    // in the middle band a move beyond the dead band signals its direction (smaller y is Up) unless already held
    ensures BottomAngle <= angle <= top && mem.previousY.Some? && Abs(y - mem.previousY.value) > DeadBand
            && mem.previousPhase != Some(if y < mem.previousY.value then Up else Down) ==>
              r.phase == Some(if y < mem.previousY.value then Up else Down)
    // and a new phase in the middle band is only ever such a move
    ensures BottomAngle <= angle <= top && r.phase != mem.previousPhase ==>
              && mem.previousY.Some? && Abs(y - mem.previousY.value) > DeadBand
              && r.phase == Some(if y < mem.previousY.value then Up else Down)
  {
    if angle < BottomAngle then
      if mem.previousPhase != Some(Down) then StepResult(Some(Down), mem.(previousPhase := Some(Down)))
      else StepResult(Some(Hold), mem)
    else if angle > top then
      if mem.previousPhase != Some(Up) then StepResult(Some(Up), mem.(previousPhase := Some(Up)))
      else StepResult(Some(Hold), mem)
    else if mem.previousY.Some? && Abs(y - mem.previousY.value) > DeadBand
            && mem.previousPhase != Some(Travel(y - mem.previousY.value)) then
      var dir := Travel(y - mem.previousY.value);
      StepResult(Some(dir), mem.(previousPhase := Some(dir)))
    else
      StepResult(mem.previousPhase, mem.(previousY := Some(y)))
  }

  /** The direction a change of the tracked coordinate means: smaller y is higher up. */
  function Travel(movement: real): Phase
  {
    if movement < 0.0 then Up else Down
  }

  /** The phases a machine answers over a run of (angle, coordinate) samples. */
  function Run(mem: PhaseMemory, samples: seq<(real, real)>, top: real): (phases: seq<Option<Phase>>)
    requires BottomAngle <= top && mem.Valid()
    ensures |phases| == |samples|
    decreases |samples|
  {
    if samples == [] then []
    else
      var r := Step(mem, samples[0].0, samples[0].1, top);
      [r.phase] + Run(r.memory, samples[1..], top)
  }

  /** The memory a machine holds after a run of samples. */
  function After(mem: PhaseMemory, samples: seq<(real, real)>, top: real): (r: PhaseMemory)
    requires BottomAngle <= top && mem.Valid()
    ensures r.Valid()
    decreases |samples|
  {
    if samples == [] then mem
    else After(Step(mem, samples[0].0, samples[0].1, top).memory, samples[1..], top)
  }

  /**
   * However long the bottom persists, `Down` is signalled at most once: every
   * answer after the first is `Hold`, and the first is `Down` or `Hold`.
   */
  lemma {:induction false} BottomSignalledOnce(mem: PhaseMemory, samples: seq<(real, real)>, top: real)
    requires BottomAngle <= top && mem.Valid()
    requires forall i :: 0 <= i < |samples| ==> samples[i].0 < BottomAngle
    ensures forall i :: 0 < i < |samples| ==> Run(mem, samples, top)[i] == Some(Hold)
    ensures |samples| > 0 ==> Run(mem, samples, top)[0] in {Some(Down), Some(Hold)}
    ensures |samples| > 0 ==> After(mem, samples, top).previousPhase == Some(Down)
    decreases |samples|
  {
    if |samples| > 0 {
      var r := Step(mem, samples[0].0, samples[0].1, top);
      var rest := samples[1..];
      BottomSignalledOnce(r.memory, rest, top);
      if |rest| > 0 {
        assert Run(r.memory, rest, top)[0] == Some(Hold);
      }
      forall i | 0 < i < |samples|
        ensures Run(mem, samples, top)[i] == Some(Hold)
      {
        assert Run(mem, samples, top)[i] == Run(r.memory, rest, top)[i - 1];
      }
    }
  }
}
