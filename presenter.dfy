/** Choosing the view controller a sheet is presented on
    (Sources/SheetUI/UIApplication+Extensions.swift).

    The application's connected scenes are an argument here instead of
    global state, in the order in which `first(where:)` visits them. */
module Presenter {
  import opened Wrappers

  datatype ActivationState = Unattached | ForegroundActive | ForegroundInactive | Background

  /** A view controller, the controller it currently presents (if any) and
      whether it is in the middle of being dismissed. */
  datatype Controller = Controller(id: nat, presented: Option<Controller>, isBeingDismissed: bool)

  datatype Window = Window(isKeyWindow: bool, rootViewController: Option<Controller>)

  /** A connected scene. `isWindowScene` is false for a scene that is not a
      `UIWindowScene`, which the `as?` cast turns into nil. */
  datatype Scene = Scene(activationState: ActivationState, isWindowScene: bool, windows: seq<Window>)

  /** The default argument of `getRootViewController`. */
  const DefaultActivationStates: seq<ActivationState> := [ForegroundActive, ForegroundInactive]

  /** Swift's `firstIndex(where:)`: the position of the first element that satisfies `p`. */
  function FirstIndex<T>(s: seq<T>, p: T -> bool): (r: Option<nat>)
    ensures r.Some? ==> r.value < |s| && p(s[r.value])
    ensures r.Some? ==> forall j :: 0 <= j < r.value ==> !p(s[j])
    ensures r.None? ==> forall j :: 0 <= j < |s| ==> !p(s[j])
  {
    if s == [] then None
    else if p(s[0]) then Some(0)
    else
      match FirstIndex(s[1..], p)
      case None => None
      case Some(k) => Some(k + 1)
  }

  /** Scene `i` is the first scene whose activation state is one of `states`. */
  ghost predicate IsFirstActive(scenes: seq<Scene>, states: seq<ActivationState>, i: int)
  {
    0 <= i < |scenes| && scenes[i].activationState in states &&
    forall j :: 0 <= j < i ==> scenes[j].activationState !in states
  }

  /** Window `k` is the first key window of `windows`. */
  ghost predicate IsFirstKey(windows: seq<Window>, k: int)
  {
    0 <= k < |windows| && windows[k].isKeyWindow &&
    forall j :: 0 <= j < k ==> !windows[j].isKeyWindow
  }

  /** The second half of `getRootViewController`: the root of the scene's first key window. */
  function SceneRoot(scene: Scene): (r: Option<Controller>)
    ensures !scene.isWindowScene ==> r.None?
    ensures (forall j :: 0 <= j < |scene.windows| ==> !scene.windows[j].isKeyWindow) ==> r.None?
    ensures scene.isWindowScene ==>
      forall k :: IsFirstKey(scene.windows, k) ==> r == scene.windows[k].rootViewController
  {
    if !scene.isWindowScene then None
    else
      match FirstIndex(scene.windows, (w: Window) => w.isKeyWindow)
      case None => None
      case Some(k) => scene.windows[k].rootViewController
  }

  /** `getRootViewController(activationStates:)`: the first scene in an allowed
      activation state decides; later scenes are never consulted. */
  function RootViewController(scenes: seq<Scene>, states: seq<ActivationState>): (r: Option<Controller>)
    ensures (forall i :: 0 <= i < |scenes| ==> scenes[i].activationState !in states) ==> r.None?
    ensures forall i :: IsFirstActive(scenes, states, i) ==> r == SceneRoot(scenes[i])
    ensures r.Some? ==> exists i :: IsFirstActive(scenes, states, i)
  {
    match FirstIndex(scenes, (sc: Scene) => sc.activationState in states)
    case None => None
    case Some(i) =>
      assert IsFirstActive(scenes, states, i);
      SceneRoot(scenes[i])
  }

  /** `UIApplication.presentingViewController`: the root's presented controller,
      unless there is none or it is being dismissed, in which case the root. */
  function PresentingViewController(scenes: seq<Scene>): (r: Option<Controller>)
    ensures r.None? <==> RootViewController(scenes, DefaultActivationStates).None?
    ensures r.Some? ==>
      var root := RootViewController(scenes, DefaultActivationStates).value;
      if root.presented.Some? && !root.presented.value.isBeingDismissed
      then r.value == root.presented.value
      else r.value == root
    ensures r.Some? ==>
      r.value == RootViewController(scenes, DefaultActivationStates).value || !r.value.isBeingDismissed
  {
    match RootViewController(scenes, DefaultActivationStates)
    case None => None
    case Some(root) =>
      var chosen := if root.presented.Some? then root.presented.value else root;
      if root.presented.Some? && root.presented.value.isBeingDismissed then Some(root) else Some(chosen)
  }

  /** Appending scenes after an allowed one never changes the root that is found:
      the first allowed scene is used, not any later one. */
  lemma {:induction false} LaterScenesIgnored(scenes: seq<Scene>, more: seq<Scene>, states: seq<ActivationState>)
    requires exists i :: 0 <= i < |scenes| && scenes[i].activationState in states
    ensures RootViewController(scenes + more, states) == RootViewController(scenes, states)
  {
    var first := FirstIndex(scenes, (sc: Scene) => sc.activationState in states);
    var i := first.value;
    assert IsFirstActive(scenes, states, i);
    assert (scenes + more)[..|scenes|] == scenes;
    assert IsFirstActive(scenes + more, states, i);
  }

  /** With the default states, scenes that are all in the background or
      unattached give no presenter. */
  lemma NoForegroundSceneNoPresenter(scenes: seq<Scene>)
    requires forall i :: 0 <= i < |scenes| ==> scenes[i].activationState in {Background, Unattached}
    ensures PresentingViewController(scenes).None?
  {
  }
}
