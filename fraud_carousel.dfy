/**
 * The carousel of fraud alerts on the dashboard
 * (frontend/src/components/dashboard/FraudAlertsCarousel.tsx): five fixed alerts, the index
 * of the one shown, the autoplay flag, and the counts per severity under the carousel.
 */
module FraudCarousel {
  import opened Scan

  datatype AlertSeverity = Critical | High | Medium

  /** An entry of `FRAUD_ALERTS`, without its display texts. */
  datatype Alert = Alert(id: nat, tipo: string, severity: AlertSeverity, location: string, value: nat, confidence: nat)

  const FRAUD_ALERTS: seq<Alert> := [
    Alert(1, "Atomización", High, "Medellín, Antioquia", 1200000000, 94),
    Alert(2, "Sobrevaloración", Critical, "Envigado, Antioquia", 5400000000, 98),
    Alert(3, "Transacciones Rápidas", Medium, "Rionegro, Antioquia", 850000000, 87),
    Alert(4, "Subvaluación", High, "Sabaneta, Antioquia", 25000000, 91),
    Alert(5, "Red de Testaferros", Critical, "La Estrella, Antioquia", 3200000000, 96)
  ]

  const COUNT: nat := |FRAUD_ALERTS|

  // ---------------------------------------------------------------- navigation

  /** `(prev + 1) % FRAUD_ALERTS.length`. */
  function Next(i: nat): (j: nat)
    requires i < COUNT
    ensures j < COUNT
  {
    (i + 1) % COUNT
  }

  /** `(prev - 1 + FRAUD_ALERTS.length) % FRAUD_ALERTS.length`. */
  function Previous(i: nat): (j: nat)
    requires i < COUNT
    ensures j < COUNT
  {
    (i - 1 + COUNT) % COUNT
  }

  /** The carousel wraps at both ends, and one step back undoes one step forward and vice versa. */
  lemma NavigationSpec(i: nat)
    requires i < COUNT
    ensures Next(COUNT - 1) == 0 && Previous(0) == COUNT - 1
    ensures Previous(Next(i)) == i && Next(Previous(i)) == i
    ensures i < COUNT - 1 ==> Next(i) == i + 1
    ensures i > 0 ==> Previous(i) == i - 1
  {
  }

  /** Five steps forward come back to the start. */
  lemma {:induction false} FullCycle(i: nat)
    requires i < COUNT
    ensures Next(Next(Next(Next(Next(i))))) == i
  {
  }

  class Carousel {
    var currentIndex: nat
    var isAutoPlaying: bool

    predicate Valid()
      reads this
    {
      currentIndex < COUNT
    }

    constructor()
      ensures currentIndex == 0 && isAutoPlaying
      ensures Valid()
    {
      currentIndex, isAutoPlaying := 0, true;
    }

    /** The alert on show. */
    function Current(): Alert
      reads this
      requires Valid()
    {
      FRAUD_ALERTS[currentIndex]
    }

    /** The interval's tick: one step forward, only while autoplay is on. */
    method Tick()
      requires Valid()
      modifies this
      ensures Valid()
      ensures isAutoPlaying == old(isAutoPlaying)
      ensures old(isAutoPlaying) ==> currentIndex == Next(old(currentIndex))
      ensures !old(isAutoPlaying) ==> currentIndex == old(currentIndex)
    {
      if isAutoPlaying {
        currentIndex := Next(currentIndex);
      }
    }

    /** `goToPrevious`: stops autoplay and steps back. */
    method GoToPrevious()
      requires Valid()
      modifies this
      ensures Valid()
      ensures !isAutoPlaying && currentIndex == Previous(old(currentIndex))
    {
      isAutoPlaying := false;
      currentIndex := Previous(currentIndex);
    }

    /** `goToNext`: stops autoplay and steps forward. */
    method GoToNext()
      requires Valid()
      modifies this
      ensures Valid()
      ensures !isAutoPlaying && currentIndex == Next(old(currentIndex))
    {
      isAutoPlaying := false;
      currentIndex := Next(currentIndex);
    }

    /** `goToSlide(index)` from the dot of alert `index`: stops autoplay and shows that alert. */
    method GoToSlide(index: nat)
      requires index < COUNT
      modifies this
      ensures Valid()
      ensures !isAutoPlaying && currentIndex == index
    {
      isAutoPlaying := false;
      currentIndex := index;
    }

    /** The "Pausar"/"Reproducir" button. */
    method ToggleAutoPlay()
      modifies this
      ensures isAutoPlaying == !old(isAutoPlaying) && currentIndex == old(currentIndex)
    {
      isAutoPlaying := !isAutoPlaying;
    }

    /** `{currentIndex + 1} / {FRAUD_ALERTS.length}`: the position shown counts from one. */
    function Position(): (p: nat)
      reads this
      requires Valid()
      ensures 1 <= p <= COUNT
    {
      currentIndex + 1
    }
  }

  /** After a step forward and a step back the same alert is on show again, and autoplay is off. */
  method NextThenPrevious(c: Carousel)
    requires c.Valid()
    modifies c
    ensures c.Valid() && c.currentIndex == old(c.currentIndex) && !c.isAutoPlaying
  {
    c.GoToNext();
    c.GoToPrevious();
    NavigationSpec(old(c.currentIndex));
  }

  // ---------------------------------------------------------------- the counts

  /** `FRAUD_ALERTS.filter(a => a.severity === s).length`. */
  function CountOf(s: AlertSeverity): (n: nat)
    ensures n <= COUNT
  {
    |Filter(FRAUD_ALERTS, (a: Alert) => a.severity == s)|
  }

  /** Two critical alerts, two high and one medium: the three counts add up to all five. */
  lemma SeverityCounts()
    ensures CountOf(Critical) == 2 && CountOf(High) == 2 && CountOf(Medium) == 1
    ensures CountOf(Critical) + CountOf(High) + CountOf(Medium) == COUNT
  {
    var a := FRAUD_ALERTS;
    assert a[1..][1..][1..][1..][1..] == [];
  }

  /** `getSeverityColor`: the badge classes per severity (the default case is never reached). */
  function SeverityClasses(s: AlertSeverity): string {
    match s
    case Critical => "bg-[var(--danger-50)] text-[var(--danger-700)] border-[var(--danger-100)]"
    case High => "bg-[var(--warning-50)] text-[var(--warning-700)] border-[var(--warning-100)]"
    case Medium => "bg-[var(--info-50)] text-[var(--info-700)] border-[var(--info-100)]"
  }

  /** The alert ids are 1 to 5 in order, one per slide. */
  lemma AlertIds()
    ensures forall i | 0 <= i < COUNT :: FRAUD_ALERTS[i].id == i + 1
  {
  }
}
