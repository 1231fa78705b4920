/**
 * The treatment-step wizard: a cursor into a fixed list of four instruction
 * cards, moved by Next and Previous, with a Finish action on the last card and
 * an independent "Read Aloud" flag.
 */
module Treatment {

  /** One instruction card of the wizard. */
  datatype TreatmentStep = TreatmentStep(title: string, instruction: string, action: string)

  /** The fixed, ordered list of cards. */
  const Steps: seq<TreatmentStep> := [
    TreatmentStep(
      "Massive Hemorrhage",
      "Apply direct pressure to wound site. If available, use hemostatic gauze and pressure dressing.",
      "Maintain pressure for 3-5 minutes"),
    TreatmentStep(
      "Airway",
      "Check airway is clear and maintained. Monitor for obstruction.",
      "Ensure patient can breathe normally"),
    TreatmentStep(
      "Respiratory",
      "Assess breathing rate and quality. Look for chest injuries.",
      "Monitor breathing pattern"),
    TreatmentStep(
      "Circulation",
      "Check pulse and blood pressure if possible. Monitor skin color.",
      "Document vital signs")
  ]

  /** The index of the last card, where Finish replaces Next. */
  const LastIndex: int := |Steps| - 1

  /** An index at which `Steps` may be read. */
  predicate InBounds(i: int) {
    0 <= i < |Steps|
  }

  /** The cursor after `handleNext`: it moves one forward unless it is already at the last card. */
  function NextIndex(i: int): (j: int)
    ensures j == i + 1 <==> i < LastIndex
    ensures j == i <==> i >= LastIndex
    ensures InBounds(i) ==> InBounds(j)
  {
    if i < |Steps| - 1 then i + 1 else i
  }

  /** The cursor after `handlePrevious`: it moves one back unless it is already at the first card. */
  function PreviousIndex(i: int): (j: int)
    ensures j == i - 1 <==> i > 0
    ensures j == i <==> i <= 0
    ensures InBounds(i) ==> InBounds(j)
  {
    if i > 0 then i - 1 else i
  }

  /** The right-hand navigation button: Next everywhere except on the last card. */
  datatype ForwardButton = NextButton | FinishButton

  function ForwardButtonAt(i: int): (b: ForwardButton)
    ensures InBounds(i) ==> (b == FinishButton <==> NextIndex(i) == i)
  {
    if i == |Steps| - 1 then FinishButton else NextButton
  }

  /** The Previous button is greyed out and inert on the first card. */
  predicate PreviousDisabled(i: int)
    ensures InBounds(i) ==> (PreviousDisabled(i) <==> PreviousIndex(i) == i)
  {
    i == 0
  }

  /**
   * The buttons agree with the handlers' guards: Finish is shown exactly where
   * `handleNext` would do nothing, and Previous is disabled exactly where
   * `handlePrevious` would do nothing.
   */
  lemma ButtonsMatchGuards(i: int)
    requires InBounds(i)
    ensures ForwardButtonAt(i) == FinishButton <==> NextIndex(i) == i
    ensures ForwardButtonAt(i) == NextButton <==> NextIndex(i) == i + 1
    ensures PreviousDisabled(i) <==> PreviousIndex(i) == i
    ensures !PreviousDisabled(i) <==> PreviousIndex(i) == i - 1
  {
  }

  /** The component's state: the cursor and the Read Aloud switch. */
  datatype WizardState = WizardState(currentStep: int, audioEnabled: bool)

  /** Both `useState` initial values. */
  const Initial: WizardState := WizardState(0, false)

  /** The handler calls that change the state. */
  datatype Command = Next | Previous | SetAudio(on: bool)

  /** The effect of one handler call. */
  function Apply(s: WizardState, c: Command): (t: WizardState)
    ensures t.currentStep - s.currentStep in {-1, 0, 1}
    ensures InBounds(s.currentStep) ==> InBounds(t.currentStep)
    ensures c.SetAudio? ==> t.currentStep == s.currentStep && t.audioEnabled == c.on
    ensures !c.SetAudio? ==> t.audioEnabled == s.audioEnabled
  {
    match c
    case Next => s.(currentStep := NextIndex(s.currentStep))
    case Previous => s.(currentStep := PreviousIndex(s.currentStep))
    case SetAudio(on) => s.(audioEnabled := on)
  }

  /** The state after a sequence of handler calls, in order. */
  function Run(s: WizardState, cs: seq<Command>): WizardState
    decreases |cs|
  {
    if cs == [] then s else Run(Apply(s, cs[0]), cs[1..])
  }

  /** The navigation commands of a sequence, with every Read Aloud toggle dropped. */
  function Navigation(cs: seq<Command>): (ns: seq<Command>)
    ensures |ns| <= |cs|
    ensures forall k :: 0 <= k < |ns| ==> !ns[k].SetAudio?
  {
    if cs == [] then []
    else if cs[0].SetAudio? then Navigation(cs[1..])
    else [cs[0]] + Navigation(cs[1..])
  }

  /** Whatever sequence of calls is made, the cursor stays a valid index into `Steps`. */
  lemma {:induction false} RunStaysInBounds(s: WizardState, cs: seq<Command>)
    requires InBounds(s.currentStep)
    ensures InBounds(Run(s, cs).currentStep)
    decreases |cs|
  {
    if cs != [] {
      RunStaysInBounds(Apply(s, cs[0]), cs[1..]);
    }
  }

  /** Toggling Read Aloud anywhere in a sequence of calls never changes where the cursor ends. */
  lemma {:induction false} AudioNeverMovesCursor(s: WizardState, cs: seq<Command>)
    ensures Run(s, cs).currentStep == Run(s, Navigation(cs)).currentStep
    decreases |cs|
  {
    if cs != [] {
      var t := Apply(s, cs[0]);
      AudioNeverMovesCursor(t, cs[1..]);
      if cs[0].SetAudio? {
        AudioIgnored(s, t, Navigation(cs[1..]));
      } else {
        assert Navigation(cs) == [cs[0]] + Navigation(cs[1..]);
        assert Navigation(cs)[1..] == Navigation(cs[1..]);
      }
    }
  }

  /** Two states with the same cursor end with the same cursor under the same navigation. */
  lemma {:induction false} AudioIgnored(s: WizardState, t: WizardState, ns: seq<Command>)
    requires s.currentStep == t.currentStep
    requires forall k :: 0 <= k < |ns| ==> !ns[k].SetAudio?
    ensures Run(s, ns).currentStep == Run(t, ns).currentStep
    decreases |ns|
  {
    if ns != [] {
      AudioIgnored(Apply(s, ns[0]), Apply(t, ns[0]), ns[1..]);
    }
  }

  /**
   * From the first card, three Next calls reach "Circulation", the last card,
   * where a fourth Next changes nothing and Finish is offered.
   */
  lemma ThreeNextsReachCirculation()
    ensures |Steps| == 4 && LastIndex == 3
    ensures Run(Initial, [Next, Next, Next]).currentStep == 3
    ensures Steps[3].title == "Circulation"
    ensures Run(Initial, [Next, Next, Next, Next]) == Run(Initial, [Next, Next, Next])
    ensures ForwardButtonAt(3) == FinishButton
  {
  }

  /** The mounted wizard component. */
  class TreatmentSteps {
    var currentStep: int
    var audioEnabled: bool

    /** The cursor always indexes a card. */
    ghost predicate Valid()
      reads this
    {
      InBounds(currentStep)
    }

    function State(): WizardState
      reads this
    {
      WizardState(currentStep, audioEnabled)
    }

    constructor ()
      ensures Valid() && State() == Initial
    {
      currentStep := 0;
      audioEnabled := false;
    }

    method HandleNext()
      requires Valid()
      modifies this
      ensures Valid() && State() == Apply(old(State()), Next)
    {
      if currentStep < |Steps| - 1 {
        currentStep := currentStep + 1;
      }
    }

    method HandlePrevious()
      requires Valid()
      modifies this
      ensures Valid() && State() == Apply(old(State()), Previous)
    {
      if currentStep > 0 {
        currentStep := currentStep - 1;
      }
    }

    /** The Read Aloud switch's value-change handler. */
    method SetAudioEnabled(on: bool)
      requires Valid()
      modifies this
      ensures Valid() && State() == Apply(old(State()), SetAudio(on))
    {
      audioEnabled := on;
    }

    /** The k of the "Step k of n" counter. */
    function StepNumber(): (k: int)
      reads this
      requires Valid()
      ensures 1 <= k <= |Steps|
    {
      currentStep + 1
    }

    /** The card on screen; reading it never leaves the list. */
    function CurrentCard(): (card: TreatmentStep)
      reads this
      requires Valid()
      ensures card in Steps
    {
      Steps[currentStep]
    }

    /**
     * A press on the right-hand button: on the last card it is Finish, which
     * asks the parent to restart and leaves the cursor alone; elsewhere it is
     * Next, which always advances.
     */
    method PressForward() returns (restartRequested: bool)
      requires Valid()
      modifies this
      ensures Valid()
      ensures restartRequested <==> old(currentStep) == LastIndex
      ensures restartRequested ==> State() == old(State())
      ensures !restartRequested ==> State() == Apply(old(State()), Next) && currentStep == old(currentStep) + 1
    {
      if ForwardButtonAt(currentStep) == FinishButton {
        restartRequested := true;
      } else {
        restartRequested := false;
        HandleNext();
      }
    }

    /** A press on Previous: ignored while disabled, otherwise `handlePrevious`. */
    method PressPrevious()
      requires Valid()
      modifies this
      ensures Valid() && State() == Apply(old(State()), Previous)
      ensures old(currentStep) != 0 ==> currentStep == old(currentStep) - 1
    {
      if !PreviousDisabled(currentStep) {
        HandlePrevious();
      }
    }
  }

  /** A session on a fresh wizard: toggling Read Aloud in between does not move the cursor. */
  method WalkThrough() returns (restartRequested: bool)
    ensures restartRequested
  {
    var w := new TreatmentSteps();
    w.HandleNext();
    w.SetAudioEnabled(true);
    w.HandleNext();
    w.HandleNext();
    assert w.currentStep == 3 && w.CurrentCard().title == "Circulation";
    w.HandleNext();
    assert w.currentStep == 3;
    restartRequested := w.PressForward();
  }
}
