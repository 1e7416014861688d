/**
 * The diagnosis wizard page: five ordered steps, the next / previous / start-over
 * handlers, the step-indicator jump, the gate on the "next" button, and the interval
 * that simulates the analysis by raising `aiProgress` in steps of ten.
 */
module DiagnosisPage {
  import opened Wrappers
  import SymptomSelector

  /** `DiagnosisStep`. */
  datatype Step = Animal | Symptoms | Image | Result | Treatment

  /** The page's `steps` array: the fixed order of the wizard. */
  const Steps: seq<Step> := [Animal, Symptoms, Image, Result, Treatment]

  /** `currentStepIndex`: where a step sits in `Steps`; every step is found there. */
  function StepIndex(step: Step): (i: nat)
    ensures i < |Steps| && Steps[i] == step
  {
    match step
    case Animal => 0
    case Symptoms => 1
    case Image => 2
    case Result => 3
    case Treatment => 4
  }

  /** The steps are distinct, so the position of a step in `Steps` is unique. */
  lemma StepIndexOfPosition(k: nat)
    requires k < |Steps|
    ensures StepIndex(Steps[k]) == k
  {
  }

  /** `steps[currentStepIndex + 1]`: the following step, absent after the last one. */
  function NextStep(step: Step): (r: Option<Step>)
    ensures r.Some? <==> StepIndex(step) < |Steps| - 1
    ensures r.Some? ==> StepIndex(r.value) == StepIndex(step) + 1
  {
    var i := StepIndex(step);
    if i + 1 < |Steps| then Some(Steps[i + 1]) else None
  }

  /** `steps[currentStepIndex - 1]`: the preceding step, absent before the first one. */
  function PrevStep(step: Step): (r: Option<Step>)
    ensures r.Some? <==> StepIndex(step) > 0
    ensures r.Some? ==> StepIndex(r.value) + 1 == StepIndex(step)
  {
    var i := StepIndex(step);
    if i > 0 then Some(Steps[i - 1]) else None
  }

  /** Going forward and then back returns to the same step, and back then forward too. */
  lemma NextPrevInverse(step: Step)
    ensures NextStep(step).Some? ==> PrevStep(NextStep(step).value) == Some(step)
    ensures PrevStep(step).Some? ==> NextStep(PrevStep(step).value) == Some(step)
  {
  }

  /** The "next" button is rendered while `currentStepIndex < steps.length - 1`. */
  predicate NextShown(step: Step)
    ensures NextShown(step) <==> step != Treatment
  {
    StepIndex(step) < |Steps| - 1
  }

  /** The "previous" button is rendered while `currentStepIndex > 0`. */
  predicate PrevShown(step: Step)
    ensures PrevShown(step) <==> step != Animal
  {
    StepIndex(step) > 0
  }

  /** The buttons are offered exactly where the handler has a neighbour to move to. */
  lemma ButtonsOfferedIffNeighbour(step: Step)
    ensures NextShown(step) <==> NextStep(step).Some?
    ensures PrevShown(step) <==> PrevStep(step).Some?
  {
  }

  /**
   * The `disabled` expression of the "next" button: no animal chosen on the first step, or
   * no symptom selected on the second. The handler itself does not test it.
   */
  predicate NextDisabled(step: Step, selectedAnimal: string, selectedSymptoms: seq<string>) {
    (step == Animal && selectedAnimal == "") || (step == Symptoms && |selectedSymptoms| == 0)
  }

  /** The gate holds back only the first two steps; from the image step on, "next" is always enabled. */
  lemma GateOnlyOnFirstTwoSteps(step: Step, selectedAnimal: string, selectedSymptoms: seq<string>)
    ensures NextDisabled(step, selectedAnimal, selectedSymptoms) ==> StepIndex(step) < 2
    ensures step == Animal ==> (NextDisabled(step, selectedAnimal, selectedSymptoms) <==> selectedAnimal == "")
    ensures step == Symptoms ==> (NextDisabled(step, selectedAnimal, selectedSymptoms) <==> selectedSymptoms == [])
  {
  }

  /** The indicator marks step `k` as completed when it comes before the current one. */
  predicate IsCompleted(k: Step, current: Step)
    ensures IsCompleted(k, current) ==> k != current && current != Animal
  {
    StepIndex(k) < StepIndex(current)
  }

  /** The completed steps are exactly the prefix of `Steps` before the current step. */
  lemma CompletedArePrefix(k: Step, current: Step)
    ensures IsCompleted(k, current) <==> k in Steps[..StepIndex(current)]
  {
    if k in Steps[..StepIndex(current)] {
      var j :| 0 <= j < StepIndex(current) && Steps[..StepIndex(current)][j] == k;
      StepIndexOfPosition(j);
    }
  }

  /** What one firing of the analysis interval does to `aiProgress`, and whether it stops. */
  datatype TickOutcome = TickOutcome(progress: int, stop: bool)

  /**
   * The interval callback: at 100 or more it stops the interval and reports 100, otherwise
   * it adds 10.
   */
  function AnalysisTick(progress: int): (t: TickOutcome)
    ensures t.stop <==> progress >= 100
  {
    if progress >= 100 then TickOutcome(100, true) else TickOutcome(progress + 10, false)
  }

  /** From a multiple of ten in [0, 100] a tick stays a multiple of ten in [0, 100] and never goes down. */
  lemma AnalysisTickKeepsRange(progress: int)
    requires 0 <= progress <= 100 && progress % 10 == 0
    ensures 0 <= AnalysisTick(progress).progress <= 100
    ensures AnalysisTick(progress).progress % 10 == 0
    ensures progress <= AnalysisTick(progress).progress
    ensures AnalysisTick(progress).stop ==> AnalysisTick(progress).progress == progress
  {
  }

  /** `aiProgress` after `n` firings of one interval. */
  function ProgressAfter(progress: int, n: nat): int
    decreases n
  {
    if n == 0 then progress else ProgressAfter(AnalysisTick(progress).progress, n - 1)
  }

  /**
   * From a multiple of ten in [0, 100], the interval climbs by ten per firing without
   * stopping until it reaches exactly 100, and the firing after that stops it.
   */
  lemma {:induction false} AnalysisReaches100(progress: int)
    requires 0 <= progress <= 100 && progress % 10 == 0
    ensures forall k: nat :: k <= (100 - progress) / 10 ==> ProgressAfter(progress, k) == progress + 10 * k
    ensures forall k: nat :: k < (100 - progress) / 10 ==> !AnalysisTick(ProgressAfter(progress, k)).stop
    ensures ProgressAfter(progress, (100 - progress) / 10) == 100
    ensures AnalysisTick(ProgressAfter(progress, (100 - progress) / 10)).stop
    decreases 100 - progress
  {
    if progress < 100 {
      AnalysisReaches100(progress + 10);
      forall k: nat | k <= (100 - progress) / 10
        ensures ProgressAfter(progress, k) == progress + 10 * k
      {
        if k > 0 {
          assert ProgressAfter(progress, k) == ProgressAfter(progress + 10, k - 1);
        }
      }
    }
  }

  /**
   * The page's state hooks. `runningTimers` counts the analysis intervals still firing: the
   * handler starts a new one each time it leaves the image step, and nothing but the
   * interval itself stops one.
   */
  class Wizard {
    var currentStep: Step
    var selectedAnimal: string
    var selectedSymptoms: seq<string>
    var uploadedImage: Option<string>
    var isAnalyzing: bool
    var aiProgress: int
    var runningTimers: nat

    /** Progress is a multiple of ten in [0, 100], and an analysis flag always has a live interval to clear it. */
    ghost predicate Valid()
      reads this
    {
      && 0 <= aiProgress <= 100
      && aiProgress % 10 == 0
      && (isAnalyzing ==> runningTimers > 0)
    }

    /** The initial hook values. */
    constructor ()
      ensures Valid()
      ensures currentStep == Animal && selectedAnimal == "" && selectedSymptoms == []
      ensures uploadedImage == None && !isAnalyzing && aiProgress == 0 && runningTimers == 0
    {
      currentStep := Animal;
      selectedAnimal := "";
      selectedSymptoms := [];
      uploadedImage := None;
      isAnalyzing := false;
      aiProgress := 0;
      runningTimers := 0;
    }

    /** Whether the "next" button is rendered and clickable for the current state. */
    predicate NextEnabled()
      reads this
      ensures NextEnabled() ==> currentStep != Treatment
    {
      NextShown(currentStep) && !NextDisabled(currentStep, selectedAnimal, selectedSymptoms)
    }

    /** `handleNextStep`: advance; leaving the image step starts the analysis and its interval. */
    method Next()
      requires Valid()
      modifies this
      ensures Valid()
      ensures selectedAnimal == old(selectedAnimal) && selectedSymptoms == old(selectedSymptoms)
      ensures uploadedImage == old(uploadedImage) && aiProgress == old(aiProgress)
      ensures NextStep(old(currentStep)).None? ==>
        currentStep == old(currentStep) && isAnalyzing == old(isAnalyzing) && runningTimers == old(runningTimers)
      ensures old(currentStep) == Image ==>
        currentStep == Result && isAnalyzing && runningTimers == old(runningTimers) + 1
      ensures old(currentStep) != Image && NextStep(old(currentStep)).Some? ==>
        currentStep == NextStep(old(currentStep)).value
        && isAnalyzing == old(isAnalyzing) && runningTimers == old(runningTimers)
    {
      var next := NextStep(currentStep);
      if next.Some? {
        if currentStep == Image {
          isAnalyzing := true;
          currentStep := Result;
          runningTimers := runningTimers + 1;
        } else {
          currentStep := next.value;
        }
      }
    }

    /** One firing of a running analysis interval. */
    method Tick()
      requires Valid() && runningTimers > 0
      modifies this
      ensures Valid()
      ensures currentStep == old(currentStep) && selectedAnimal == old(selectedAnimal)
      ensures selectedSymptoms == old(selectedSymptoms) && uploadedImage == old(uploadedImage)
      ensures aiProgress == AnalysisTick(old(aiProgress)).progress && old(aiProgress) <= aiProgress
      ensures old(aiProgress) >= 100 ==> !isAnalyzing && runningTimers == old(runningTimers) - 1
      ensures old(aiProgress) < 100 ==> isAnalyzing == old(isAnalyzing) && runningTimers == old(runningTimers)
    {
      var t := AnalysisTick(aiProgress);
      if t.stop {
        runningTimers := runningTimers - 1;
        isAnalyzing := false;
      }
      aiProgress := t.progress;
    }

    /** `handlePrevStep`: go back one step; the analysis interval keeps running. */
    method Prev()
      requires Valid()
      modifies this`currentStep
      ensures Valid()
      ensures PrevStep(old(currentStep)).Some? ==> currentStep == PrevStep(old(currentStep)).value
      ensures PrevStep(old(currentStep)).None? ==> currentStep == old(currentStep) == Animal
    {
      var prev := PrevStep(currentStep);
      if prev.Some? {
        currentStep := prev.value;
      }
    }

    /** `handleStartOver`: clear every input and the analysis; running intervals are not stopped. */
    method StartOver()
      requires Valid()
      modifies this
      ensures Valid()
      ensures currentStep == Animal && selectedAnimal == "" && selectedSymptoms == []
      ensures uploadedImage == None && !isAnalyzing && aiProgress == 0
      ensures runningTimers == old(runningTimers)
    {
      selectedAnimal := "";
      selectedSymptoms := [];
      uploadedImage := None;
      isAnalyzing := false;
      aiProgress := 0;
      currentStep := Animal;
    }

    /** A click on the step indicator: any step, with no gate. */
    method JumpTo(step: Step)
      requires Valid()
      modifies this`currentStep
      ensures Valid() && currentStep == step
    {
      currentStep := step;
    }

    /** `onSelect` of the animal-type step. */
    method SelectAnimal(animalType: string)
      requires Valid()
      modifies this`selectedAnimal
      ensures Valid() && selectedAnimal == animalType
      ensures currentStep == Animal ==> (NextDisabled(currentStep, selectedAnimal, selectedSymptoms) <==> animalType == "")
    {
      selectedAnimal := animalType;
    }

    /** A click on a symptom card: the selector's toggle, handed back through `onSymptomsChange`. */
    method ToggleSymptom(symptomId: string)
      requires Valid()
      modifies this`selectedSymptoms
      ensures Valid()
      ensures selectedSymptoms == SymptomSelector.Toggle(old(selectedSymptoms), symptomId)
      ensures symptomId !in old(selectedSymptoms) ==> !NextDisabled(currentStep, selectedAnimal, selectedSymptoms) || currentStep == Animal
    {
      selectedSymptoms := SymptomSelector.Toggle(selectedSymptoms, symptomId);
    }

    /** "Clear all" of the symptom step: the empty list, which closes the gate on that step. */
    method ClearSymptoms()
      requires Valid()
      modifies this`selectedSymptoms
      ensures Valid() && selectedSymptoms == []
      ensures currentStep == Symptoms ==> NextDisabled(currentStep, selectedAnimal, selectedSymptoms)
    {
      selectedSymptoms := [];
    }

    /** The image step's upload, with the data URL the browser's file reader produced. */
    method UploadImage(dataUrl: string)
      requires Valid()
      modifies this`uploadedImage
      ensures Valid() && uploadedImage == Some(dataUrl)
    {
      uploadedImage := Some(dataUrl);
    }
  }

  /**
   * A full pass through the wizard, then a second analysis without starting over. The first
   * analysis climbs from 0 and stops at its eleventh firing; the progress is not reset, so the
   * second interval stops at its first firing and the second analysis shows nothing.
   */
  method RerunWithoutStartOver() returns (firstRunTicks: nat, secondRunTicks: nat)
    ensures firstRunTicks == 11 && secondRunTicks == 1
  {
    var w := new Wizard();
    w.SelectAnimal("dog");
    w.Next();
    w.ToggleSymptom("fever");
    assert w.NextEnabled();
    w.Next();
    w.Next();
    assert w.currentStep == Result && w.isAnalyzing && w.aiProgress == 0;
    firstRunTicks := 0;
    while w.isAnalyzing
      invariant w.Valid() && w.runningTimers == if w.isAnalyzing then 1 else 0
      invariant w.isAnalyzing ==> w.aiProgress == 10 * firstRunTicks
      invariant !w.isAnalyzing ==> w.aiProgress == 100 && firstRunTicks == 11
      decreases w.isAnalyzing, 100 - w.aiProgress
    {
      w.Tick();
      firstRunTicks := firstRunTicks + 1;
    }
    w.JumpTo(Image);
    w.Next();
    assert w.isAnalyzing && w.runningTimers == 1 && w.aiProgress == 100;
    secondRunTicks := 0;
    while w.isAnalyzing
      invariant w.Valid() && w.runningTimers == if w.isAnalyzing then 1 else 0
      invariant w.aiProgress == 100
      invariant secondRunTicks == if w.isAnalyzing then 0 else 1
      decreases w.isAnalyzing
    {
      w.Tick();
      secondRunTicks := secondRunTicks + 1;
    }
  }
}
