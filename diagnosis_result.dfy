/**
 * The result view of the wizard: its own loading progress (raised by an interval in steps
 * of five and held at 95 while loading, set to 100 once loading ends), the style table of
 * the four urgencies, and the colour band of the confidence bar.
 */
module DiagnosisResult {
  datatype Urgency = Low | Medium | High | Emergency

  /** One entry of `urgencyConfig`: badge colour class, label, and the icon component's name. */
  datatype UrgencyStyle = UrgencyStyle(color: string, text: string, icon: string)

  /** `urgencyConfig[urgency]`. */
  function UrgencyConfig(u: Urgency): (style: UrgencyStyle)
  {
    match u
    case Low => UrgencyStyle("bg-green-500", "کم", "CheckCircle")
    case Medium => UrgencyStyle("bg-yellow-500", "متوسط", "Clock")
    case High => UrgencyStyle("bg-orange-500", "بالا", "Thermometer")
    case Emergency => UrgencyStyle("bg-red-500", "اضطراری", "AlertTriangle")
  }

  /** Every urgency has its own entry: distinct urgencies never share a colour, label or icon. */
  lemma UrgencyConfigDistinct(u: Urgency, v: Urgency)
    requires u != v
    ensures UrgencyConfig(u).color != UrgencyConfig(v).color
    ensures UrgencyConfig(u).text != UrgencyConfig(v).text
    ensures UrgencyConfig(u).icon != UrgencyConfig(v).icon
  {
  }

  datatype Band = Green | Yellow | Orange

  /** The confidence bar's colour: above 80 green, above 60 yellow, otherwise orange. */
  function ConfidenceBand(confidence: real): (b: Band)
  {
    if confidence > 80.0 then Green else if confidence > 60.0 then Yellow else Orange
  }

  /** The bands, as the three intervals (80, inf), (60, 80] and (-inf, 60]. */
  lemma ConfidenceBandIntervals(confidence: real)
    ensures ConfidenceBand(confidence) == Green <==> confidence > 80.0
    ensures ConfidenceBand(confidence) == Yellow <==> 60.0 < confidence <= 80.0
    ensures ConfidenceBand(confidence) == Orange <==> confidence <= 60.0
  {
  }

  /** Green outranks yellow, which outranks orange. */
  function BandRank(b: Band): nat {
    match b
    case Orange => 0
    case Yellow => 1
    case Green => 2
  }

  /** A higher confidence never gets a lower band. */
  lemma ConfidenceBandMonotone(c1: real, c2: real)
    requires c1 <= c2
    ensures BandRank(ConfidenceBand(c1)) <= BandRank(ConfidenceBand(c2))
  {
  }

  /** The result the wizard renders: fixed, whatever was entered. */
  datatype Diagnosis = Diagnosis(disease: string, confidence: real, description: string, urgency: Urgency)

  const WizardDiagnosis: Diagnosis := Diagnosis(
    "عفونت تنفسی فوقانی (URI)",
    94.0,
    "یک عفونت ویروسی یا باکتریایی که سیستم تنفسی فوقانی را درگیر می‌کند",
    Medium)

  /** The wizard's fixed result shows a green confidence bar and the yellow "medium" badge. */
  lemma WizardDiagnosisStyle()
    ensures ConfidenceBand(WizardDiagnosis.confidence) == Green
    ensures UrgencyConfig(WizardDiagnosis.urgency).color == "bg-yellow-500"
  {
  }

  /** One firing of the loading interval: add five, but never past 95. */
  function LoadingTick(progress: int): (next: int)
  {
    if progress >= 95 then 95 else progress + 5
  }

  /**
   * Below 95 a firing adds five; at 95 or more it yields exactly 95. On the multiples of
   * five the component reaches, a firing from at most 95 never goes down and stays at most 95.
   */
  lemma LoadingTickCases(progress: int)
    ensures progress < 95 ==> LoadingTick(progress) == progress + 5
    ensures progress >= 95 ==> LoadingTick(progress) == 95
    ensures progress <= 95 && progress % 5 == 0 ==> progress <= LoadingTick(progress) <= 95
  {
  }

  /** The progress after `n` firings. */
  function LoadingAfter(progress: int, n: nat): int
    decreases n
  {
    if n == 0 then progress else LoadingAfter(LoadingTick(progress), n - 1)
  }

  /** From 0, the n-th firing shows min(5n, 95): it climbs and never passes 95. */
  lemma {:induction false} LoadingFromZero(n: nat)
    ensures LoadingAfter(0, n) == if 5 * n < 95 then 5 * n else 95
    ensures n > 0 ==> LoadingAfter(0, n - 1) <= LoadingAfter(0, n)
  {
    LoadingShifted(0, n);
    if n > 0 {
      LoadingShifted(0, n - 1);
    }
  }

  /** From any multiple of five up to 95, `n` firings add 5n, held at 95. */
  lemma {:induction false} LoadingShifted(start: int, n: nat)
    requires 0 <= start <= 95 && start % 5 == 0
    ensures LoadingAfter(start, n) == if start + 5 * n < 95 then start + 5 * n else 95
    decreases n
  {
    if n > 0 {
      LoadingShifted(LoadingTick(start), n - 1);
    }
  }

  /** Once loading restarts at 100 (progress is not reset), the next firing drops it to 95. */
  lemma LoadingRestartDropsFrom100()
    ensures LoadingTick(100) == 95 < 100
  {
  }

  /**
   * The component's `progress` state, its `isLoading` prop, and whether the effect's
   * interval is running. The effect re-runs only when `isLoading` changes: it first clears
   * the previous interval, then starts a new one when loading, or sets 100 when not.
   */
  class LoadingProgress {
    var isLoading: bool
    var progress: int
    var timerRunning: bool

    /** Progress is a multiple of five in [0, 100]; the interval runs exactly while loading; not loading shows 100. */
    ghost predicate Valid()
      reads this
    {
      && 0 <= progress <= 100
      && progress % 5 == 0
      && timerRunning == isLoading
      && (!isLoading ==> progress == 100)
    }

    /** Mounting: `progress` starts at 0, then the effect runs once. */
    constructor (loading: bool)
      ensures Valid() && isLoading == loading
      ensures progress == if loading then 0 else 100
    {
      isLoading := loading;
      progress := 0;
      timerRunning := loading;
      if !loading {
        progress := 100;
      }
    }

    /** A new `isLoading` prop; the effect re-runs only if it differs. */
    method SetLoading(loading: bool)
      requires Valid()
      modifies this
      ensures Valid() && isLoading == loading
      ensures progress == if loading then old(progress) else 100
    {
      if loading != isLoading {
        timerRunning := false;
        isLoading := loading;
        if loading {
          timerRunning := true;
        } else {
          progress := 100;
        }
      }
    }

    /** One firing of the running loading interval. */
    method Tick()
      requires Valid() && timerRunning
      modifies this`progress
      ensures Valid()
      ensures progress == LoadingTick(old(progress))
      ensures old(progress) <= 95 ==> old(progress) <= progress <= 95
    {
      progress := LoadingTick(progress);
    }
  }
}
