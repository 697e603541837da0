/**
 * The exercise catalogue: four exercises, each with its id, display name,
 * target (reps, or seconds for the plank) and the validator that analyses it.
 * The validators are created once with the catalogue and shared by every
 * workout, so the phase memory of a validator outlives a single session.
 */
module ExerciseConfig {
  import opened Numeric
  import opened PoseDetector
  import opened FormValidator
  import opened PhaseMachine
  import Pushup
  import Squat
  import Plank
  import Lunge

  /** Which validator an exercise uses. */
  datatype Kind = PushUps | Squats | PlankHold | Lunges

  datatype Exercise = Exercise(id: string, name: string, target: int, kind: Kind)

  /** The catalogue, in display order. */
  const Exercises: seq<Exercise> := [
    Exercise("pushup", "Push-ups", 20, PushUps),
    Exercise("squat", "Squats", 30, Squats),
    Exercise("plank", "Plank Hold", 60, PlankHold),
    Exercise("lunges", "Lunges", 24, Lunges)
  ]

  /** Four entries with distinct ids, each with its own validator kind and a positive target. */
  lemma CatalogueEntries()
    ensures |Exercises| == 4
    ensures forall i, j :: 0 <= i < j < |Exercises| ==> Exercises[i].id != Exercises[j].id
    ensures forall i, j :: 0 <= i < j < |Exercises| ==> Exercises[i].kind != Exercises[j].kind
    ensures forall i :: 0 <= i < |Exercises| ==> 0 < Exercises[i].target
  {
    assert Exercises[0].id[1] != Exercises[2].id[1];
  }

  /** The first exercise of `es` whose id is `id`, as `Array.prototype.find` returns it. */
  function Find(es: seq<Exercise>, id: string): (r: Option<Exercise>)
    ensures r.None? <==> forall i :: 0 <= i < |es| ==> es[i].id != id
    ensures r.Some? ==> exists i :: 0 <= i < |es| && es[i] == r.value && r.value.id == id
                                    && forall j :: 0 <= j < i ==> es[j].id != id
    decreases |es|
  {
    if es == [] then None
    else if es[0].id == id then Some(es[0])
    else
      var r := Find(es[1..], id);
      if r.Some? then
        ghost var i :| 0 <= i < |es[1..]| && es[1..][i] == r.value && r.value.id == id
                       && forall j :: 0 <= j < i ==> es[1..][j].id != id;
        assert es[i + 1] == r.value;
        r
      else r
  }

  /** `getExerciseById`: the catalogue entry with this id, or nothing. */
  function GetExerciseById(id: string): (r: Option<Exercise>)
    ensures r.Some? ==> r.value in Exercises && r.value.id == id
    ensures r.None? <==> id !in ["pushup", "squat", "plank", "lunges"]
  {
    Find(Exercises, id)
  }

  /** The ids are distinct, so each entry is found by its own id. */
  lemma {:induction false} CatalogueLookupRoundTrip(i: int)
    requires 0 <= i < |Exercises|
    ensures GetExerciseById(Exercises[i].id) == Some(Exercises[i])
  {
    var id := Exercises[i].id;
    // distinct ids: "pushup" and "plank" differ at their second letter, all others at their first
    assert Exercises[0].id[1] != Exercises[2].id[1];
    assert forall k :: 0 <= k < |Exercises| && k != i && k + i != 2 ==> Exercises[k].id[0] != id[0];
    FindSkipsOthers(Exercises, i, id);
  }

  /** Entries before `i` whose ids differ do not affect the lookup. */
  lemma {:induction false} FindSkipsOthers(es: seq<Exercise>, i: nat, id: string)
    requires i <= |es|
    requires forall k :: 0 <= k < i ==> es[k].id != id
    ensures Find(es, id) == Find(es[i..], id)
    decreases i
  {
    if i > 0 {
      assert es[0].id != id;
      FindSkipsOthers(es[1..], i - 1, id);
      assert es[1..][i - 1..] == es[i..];
    }
  }

  /** `exercise.validator.validateForm` for the validator of an exercise. */
  function ValidateFormFor(m: MathLib, kind: Kind, f: Frame): (r: FormFeedback)
    ensures r.isValid <==> r.severity == Good
  {
    match kind
    case PushUps => Pushup.ValidateForm(m, f)
    case Squats => Squat.ValidateForm(m, f)
    case PlankHold => Plank.ValidateForm(m, f)
    case Lunges => Lunge.ValidateForm(m, f)
  }

  /** `exercise.validator.calculateFormScore` for the validator of an exercise. */
  function FormScoreFor(m: MathLib, kind: Kind, f: Frame): (r: real)
    ensures 0.0 <= r <= 100.0
  {
    match kind
    case PushUps => Pushup.FormScore(m, f)
    case Squats => Squat.FormScore(m, f)
    case PlankHold => Plank.FormScore(m, f)
    case Lunges => Lunge.FormScore(m, f)
  }

  /** An empty frame scores 0 for every exercise: every scored joint is missing. */
  lemma EmptyFrameScoresZero(m: MathLib, kind: Kind)
    ensures FormScoreFor(m, kind, []) == 0.0
  {
    assert !Present([], LeftHip);
  }

  /** The phase memories of the three stateful validators. */
  datatype PhaseMemories = PhaseMemories(pushup: PhaseMemory, squat: PhaseMemory, lunge: PhaseMemory)
  {
    predicate Valid()
    {
      pushup.Valid() && squat.Valid() && lunge.Valid()
    }
  }

  /**
   * `exercise.validator.detectRepPhase`: the answer of the exercise's own
   * validator and the memories afterwards; only that validator's memory moves.
   */
  function DetectFor(m: MathLib, kind: Kind, f: Frame, mems: PhaseMemories): (r: (Option<Phase>, PhaseMemories))
    requires mems.Valid()
    ensures r.1.Valid()
    ensures kind != PushUps ==> r.1.pushup == mems.pushup
    ensures kind != Squats ==> r.1.squat == mems.squat
    ensures kind != Lunges ==> r.1.lunge == mems.lunge
    ensures kind == PlankHold ==> r == (Some(Hold), mems)
  {
    match kind
    case PushUps =>
      var s := Pushup.DetectSpec(m, f, mems.pushup);
      (s.phase, mems.(pushup := s.memory))
    case Squats =>
      var s := Squat.DetectSpec(m, f, mems.squat);
      (s.phase, mems.(squat := s.memory))
    case PlankHold => (Plank.DetectRepPhase(f), mems)
    case Lunges =>
      var s := Lunge.DetectSpec(m, f, mems.lunge);
      (s.phase, mems.(lunge := s.memory))
  }

  /** The shared validator instances behind the catalogue; the plank validator has no state. */
  class Validators {
    const pushup: Pushup.PushupValidator
    const squat: Squat.SquatValidator
    const lunge: Lunge.LungeValidator

    /** The three validators' fields as values. */
    function Memories(): PhaseMemories
      reads this, pushup, squat, lunge
    {
      PhaseMemories(pushup.Memory(), squat.Memory(), lunge.Memory())
    }

    ghost predicate Valid()
      reads this, pushup, squat, lunge
    {
      Memories().Valid()
    }

    constructor()
      ensures Valid() && Memories() == PhaseMemories(Initial, Initial, Initial)
      ensures fresh(pushup) && fresh(squat) && fresh(lunge)
    {
      pushup := new Pushup.PushupValidator();
      squat := new Squat.SquatValidator();
      lunge := new Lunge.LungeValidator();
    }

    /** `exercise.validator.detectRepPhase` on the shared instances. */
    method DetectRepPhase(m: MathLib, kind: Kind, f: Frame) returns (phase: Option<Phase>)
      requires Valid()
      modifies pushup, squat, lunge
      ensures Valid()
      ensures (phase, Memories()) == DetectFor(m, kind, f, old(Memories()))
    {
      match kind
      case PushUps => phase := pushup.DetectRepPhase(m, f);
      case Squats => phase := squat.DetectRepPhase(m, f);
      case PlankHold => phase := Plank.DetectRepPhase(f);
      case Lunges => phase := lunge.DetectRepPhase(m, f);
    }
  }
}
