/**
 * The home screen: a three-stage switch (camera, assessment form, treatment
 * wizard) shown only once camera permission has been granted.
 */
module Home {
  import opened Optional

  datatype Stage = Camera | Context | Treatment

  /** The camera permission as reported by the platform; `None` while it is still loading. */
  datatype Permission = Permission(granted: bool)

  /** The screen's own state. */
  datatype Shell = Shell(stage: Stage, imageUri: Option<string>)

  /** The marker stored in place of the captured photo. */
  const CapturedMarker: string := "captured"

  const InitialShell: Shell := Shell(Camera, None)

  /** The three stage views, each rendered under its own `stage === …` condition. */
  datatype Panel = CameraPanel | ContextPanel | TreatmentPanel

  /** What the screen renders. */
  datatype Screen = Blank | PermissionRequest | StagePanels(shown: set<Panel>)

  function PanelOf(stage: Stage): Panel {
    match stage
    case Camera => CameraPanel
    case Context => ContextPanel
    case Treatment => TreatmentPanel
  }

  /** The three conditional children, each present exactly when its condition holds. */
  function ShownPanels(stage: Stage): (shown: set<Panel>)
    ensures shown == {PanelOf(stage)}
  {
    (if stage == Camera then {CameraPanel} else {}) +
    (if stage == Context then {ContextPanel} else {}) +
    (if stage == Treatment then {TreatmentPanel} else {})
  }

  /**
   * The rendered screen: nothing while the permission is loading, the request
   * prompt while it is denied, and otherwise exactly one stage view, the one
   * matching the stage.
   */
  function Render(permission: Option<Permission>, stage: Stage): (r: Screen)
    ensures permission.None? ==> r == Blank
    ensures r.StagePanels? <==> permission.Some? && permission.value.granted
    ensures r.StagePanels? ==> r.shown == {PanelOf(stage)}
  {
    match permission
    case None => Blank
    case Some(p) => if !p.granted then PermissionRequest else StagePanels(ShownPanels(stage))
  }

  /** `handleCapture`: from the camera stage it moves on, with a photo stored. */
  function Capture(s: Shell): (t: Shell)
    ensures s.stage == Camera ==> t.stage == NextStage(s.stage)
    ensures t.imageUri == Some(CapturedMarker) && PhotoTakenPastCamera(t)
  {
    Shell(Context, Some(CapturedMarker))
  }

  /** The assessment form's `onComplete`: from the form stage it moves on, keeping the photo. */
  function CompleteContext(s: Shell): (t: Shell)
    ensures s.stage == Context ==> t.stage == NextStage(s.stage)
    ensures t.imageUri == s.imageUri
    ensures s.stage == Context && PhotoTakenPastCamera(s) ==> PhotoTakenPastCamera(t)
  {
    s.(stage := Treatment)
  }

  /** The wizard's `onRestart`: back to the camera; the stored image is kept. */
  function Restart(s: Shell): (t: Shell)
    ensures s.stage == Treatment ==> t.stage == NextStage(s.stage)
    ensures t.imageUri == s.imageUri && PhotoTakenPastCamera(t)
  {
    s.(stage := Camera)
  }

  /** The successor of a stage in the cycle camera, context, treatment. */
  function NextStage(stage: Stage): Stage {
    match stage
    case Camera => Context
    case Context => Treatment
    case Treatment => Camera
  }

  /** A user action, each raised by a control inside one stage view. */
  datatype UiEvent = CapturePressed | ContextCompleted | TreatmentRestarted

  function SourcePanel(e: UiEvent): Panel {
    match e
    case CapturePressed => CameraPanel
    case ContextCompleted => ContextPanel
    case TreatmentRestarted => TreatmentPanel
  }

  /**
   * One user action under the given permission. An action can only come from
   * a view on screen, so one whose view is not rendered changes nothing; when
   * it is rendered the stage moves one step round the cycle.
   */
  function Dispatch(permission: Option<Permission>, s: Shell, e: UiEvent): (t: Shell)
    ensures !(permission.Some? && permission.value.granted) ==> t == s
    ensures SourcePanel(e) != PanelOf(s.stage) ==> t == s
    ensures t != s ==> t.stage == NextStage(s.stage)
    ensures !e.CapturePressed? ==> t.imageUri == s.imageUri
    ensures permission.Some? && permission.value.granted && SourcePanel(e) == PanelOf(s.stage) ==>
      t.stage == NextStage(s.stage)
  {
    var screen := Render(permission, s.stage);
    if !screen.StagePanels? || SourcePanel(e) !in screen.shown then s
    else match e
      case CapturePressed => Capture(s)
      case ContextCompleted => CompleteContext(s)
      case TreatmentRestarted => Restart(s)
  }

  /** One user action together with the permission at that moment. */
  datatype Input = Input(permission: Option<Permission>, event: UiEvent)

  function Run(s: Shell, ins: seq<Input>): Shell
    decreases |ins|
  {
    if ins == [] then s else Run(Dispatch(ins[0].permission, s, ins[0].event), ins[1..])
  }

  /** Past the camera stage a photo has always been taken. */
  predicate PhotoTakenPastCamera(s: Shell) {
    s.stage != Camera ==> s.imageUri == Some(CapturedMarker)
  }

  /**
   * With permission granted, from any state: a capture in the camera stage
   * moves to the form with the photo marker; completing the form moves to the
   * wizard; restarting the wizard returns to the camera. Neither of the last
   * two touches the stored image.
   */
  lemma StageCycle(p: Permission, s: Shell)
    requires p.granted
    ensures s.stage == Camera ==> Dispatch(Some(p), s, CapturePressed) == Shell(Context, Some(CapturedMarker))
    ensures s.stage == Context ==> Dispatch(Some(p), s, ContextCompleted) == s.(stage := Treatment)
    ensures s.stage == Treatment ==> Dispatch(Some(p), s, TreatmentRestarted) == s.(stage := Camera)
  {
  }

  /** Whatever happens, the stage is never past the camera without a photo marker. */
  lemma {:induction false} RunKeepsPhotoPastCamera(s: Shell, ins: seq<Input>)
    requires PhotoTakenPastCamera(s)
    ensures PhotoTakenPastCamera(Run(s, ins))
    decreases |ins|
  {
    if ins != [] {
      RunKeepsPhotoPastCamera(Dispatch(ins[0].permission, s, ins[0].event), ins[1..]);
    }
  }

  /** Without a granted permission no action has any effect, however many arrive. */
  lemma {:induction false} NoPermissionNoProgress(s: Shell, ins: seq<Input>)
    requires forall k :: 0 <= k < |ins| ==> !(ins[k].permission.Some? && ins[k].permission.value.granted)
    ensures Run(s, ins) == s
    decreases |ins|
  {
    if ins != [] {
      NoPermissionNoProgress(Dispatch(ins[0].permission, s, ins[0].event), ins[1..]);
    }
  }

  /** Once set, the photo marker is never cleared. */
  lemma {:induction false} PhotoNeverCleared(s: Shell, ins: seq<Input>)
    requires s.imageUri.Some?
    ensures Run(s, ins).imageUri.Some?
    decreases |ins|
  {
    if ins != [] {
      PhotoNeverCleared(Dispatch(ins[0].permission, s, ins[0].event), ins[1..]);
    }
  }

  /** The mounted home screen. */
  class HomeScreen {
    var stage: Stage
    var imageUri: Option<string>

    ghost predicate Valid()
      reads this
    {
      PhotoTakenPastCamera(State())
    }

    function State(): Shell
      reads this
    {
      Shell(stage, imageUri)
    }

    constructor ()
      ensures Valid() && State() == InitialShell
    {
      stage := Camera;
      imageUri := None;
    }

    method HandleCapture()
      requires Valid()
      modifies this
      ensures Valid() && State() == Capture(old(State()))
    {
      imageUri := Some(CapturedMarker);
      stage := Context;
    }

    method OnContextComplete()
      requires Valid() && stage == Context
      modifies this
      ensures Valid() && State() == CompleteContext(old(State()))
    {
      stage := Treatment;
    }

    method OnTreatmentRestart()
      requires Valid()
      modifies this
      ensures Valid() && State() == Restart(old(State()))
    {
      stage := Camera;
    }

    /** Renders under `permission`, then hands `e` to the view it belongs to if that view is on screen. */
    method Deliver(permission: Option<Permission>, e: UiEvent) returns (screen: Screen)
      requires Valid()
      modifies this
      ensures screen == Render(permission, old(stage))
      ensures Valid() && State() == Dispatch(permission, old(State()), e)
    {
      screen := Render(permission, stage);
      if screen.StagePanels? && SourcePanel(e) in screen.shown {
        match e
        case CapturePressed => HandleCapture();
        case ContextCompleted => OnContextComplete();
        case TreatmentRestarted => OnTreatmentRestart();
      }
    }
  }
}
