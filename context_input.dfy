/**
 * The quick-assessment form: a minutes-since-injury counter that never drops
 * below zero and a bleeding-speed choice; Continue is enabled, and reports
 * completion, once a speed has been chosen.
 */
module Assessment {
  import opened Optional

  datatype BleedingSpeed = Slow | Moderate | Spurting

  /** The choices offered, in the order they are listed. */
  const BleedingOptions: seq<BleedingSpeed> := [Slow, Moderate, Spurting]

  /** The form's state; a `None` speed is the initial `null`. */
  datatype FormState = FormState(minutes: int, bleeding: Option<BleedingSpeed>)

  const InitialForm: FormState := FormState(0, None)

  /** The button presses that change the form. */
  datatype FormEvent = MinusPressed | PlusPressed | SpeedSelected(speed: BleedingSpeed)

  /** The minus button: `Math.max(0, m - 1)`. */
  function DecrementedMinutes(m: int): (r: int)
    ensures r >= 0
    ensures m > 0 ==> r == m - 1
    ensures m <= 0 ==> r == 0
  {
    if m - 1 > 0 then m - 1 else 0
  }

  /** The effect of one press; the two fields change independently. */
  function Apply(s: FormState, e: FormEvent): (t: FormState)
    ensures e.SpeedSelected? ==> t.minutes == s.minutes && t.bleeding == Some(e.speed)
    ensures !e.SpeedSelected? ==> t.bleeding == s.bleeding
    ensures e.PlusPressed? ==> t.minutes == s.minutes + 1
    ensures s.minutes >= 0 ==> t.minutes >= 0
  {
    match e
    case MinusPressed => s.(minutes := DecrementedMinutes(s.minutes))
    case PlusPressed => s.(minutes := s.minutes + 1)
    case SpeedSelected(speed) => s.(bleeding := Some(speed))
  }

  /** The form after a sequence of presses, in order. */
  function Run(s: FormState, es: seq<FormEvent>): FormState
    decreases |es|
  {
    if es == [] then s else Run(Apply(s, es[0]), es[1..])
  }

  /** The Continue button is greyed out and inert. */
  predicate ContinueDisabled(s: FormState) {
    s.bleeding.None?
  }

  /** Whether `handleComplete` invokes the parent's `onComplete`. */
  predicate CompletesOn(s: FormState)
    ensures CompletesOn(s) <==> !ContinueDisabled(s)
  {
    s.bleeding != None
  }

  /**
   * The gate depends on the bleeding choice alone: Continue is enabled
   * exactly when `handleComplete` would report completion, whatever the
   * minutes counter shows.
   */
  lemma ContinueGateIgnoresMinutes(s: FormState, m: int)
    ensures !ContinueDisabled(s) <==> CompletesOn(s)
    ensures CompletesOn(s.(minutes := m)) == CompletesOn(s)
    ensures ContinueDisabled(s) <==> s.bleeding == None
  {
  }

  /** The freshly mounted form cannot continue until a speed is chosen. */
  lemma InitialFormBlocked()
    ensures ContinueDisabled(InitialForm) && InitialForm.minutes == 0
    ensures forall v :: v in BleedingOptions ==> CompletesOn(Apply(InitialForm, SpeedSelected(v)))
  {
  }

  /** Whatever is pressed, the minutes counter never goes negative. */
  lemma {:induction false} MinutesStayNonNegative(s: FormState, es: seq<FormEvent>)
    requires s.minutes >= 0
    ensures Run(s, es).minutes >= 0
    decreases |es|
  {
    if es != [] {
      MinutesStayNonNegative(Apply(s, es[0]), es[1..]);
    }
  }

  /** Once a speed is chosen it can be changed but never cleared, so Continue stays enabled. */
  lemma {:induction false} BleedingStaysSet(s: FormState, es: seq<FormEvent>)
    requires s.bleeding.Some?
    ensures Run(s, es).bleeding.Some?
    ensures !ContinueDisabled(Run(s, es))
    decreases |es|
  {
    if es != [] {
      BleedingStaysSet(Apply(s, es[0]), es[1..]);
    }
  }

  /** Presses of the minutes buttons alone never change the bleeding choice. */
  lemma {:induction false} MinutesPressesKeepBleeding(s: FormState, es: seq<FormEvent>)
    requires forall k :: 0 <= k < |es| ==> !es[k].SpeedSelected?
    ensures Run(s, es).bleeding == s.bleeding
    decreases |es|
  {
    if es != [] {
      MinutesPressesKeepBleeding(Apply(s, es[0]), es[1..]);
    }
  }

  /** The mounted form component. */
  class ContextInput {
    var minutes: int
    var bleeding: Option<BleedingSpeed>

    ghost predicate Valid()
      reads this
    {
      minutes >= 0
    }

    function State(): FormState
      reads this
    {
      FormState(minutes, bleeding)
    }

    constructor ()
      ensures Valid() && State() == InitialForm
    {
      minutes := 0;
      bleeding := None;
    }

    method PressMinus()
      requires Valid()
      modifies this
      ensures Valid() && State() == Apply(old(State()), MinusPressed)
    {
      minutes := if minutes - 1 > 0 then minutes - 1 else 0;
    }

    method PressPlus()
      requires Valid()
      modifies this
      ensures Valid() && State() == Apply(old(State()), PlusPressed)
    {
      minutes := minutes + 1;
    }

    method SelectBleeding(speed: BleedingSpeed)
      requires Valid()
      modifies this
      ensures Valid() && State() == Apply(old(State()), SpeedSelected(speed))
    {
      bleeding := Some(speed);
    }

    /**
     * `handleComplete`: reports whether the parent's `onComplete` is invoked,
     * which happens exactly when a speed has been chosen. The form itself is
     * not changed.
     */
    method HandleComplete() returns (completed: bool)
      ensures completed <==> bleeding.Some?
      ensures completed <==> !ContinueDisabled(State())
    {
      completed := bleeding != None;
    }
  }

  /** A session on a fresh form: minutes alone never unlock Continue, a speed does. */
  method FillIn() returns (completed: bool)
    ensures completed
  {
    var form := new ContextInput();
    form.PressPlus();
    form.PressPlus();
    form.PressMinus();
    var early := form.HandleComplete();
    assert !early && form.minutes == 1;
    form.SelectBleeding(Moderate);
    completed := form.HandleComplete();
  }
}
