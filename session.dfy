/** The presentation-session bookkeeping shared by the SwiftUI view
    modifiers (`updatePresentation` in Sources/SheetUI/SheetViewModifier.swift
    and Sources/SheetUI/ItemSheetViewModifier.swift), as functions on values.

    A session is the modifier's binding, the controller it stores in its
    `@State sheetViewController`, a counter of controllers built so far
    (it gives each one its identity) and the log of present and dismiss
    calls issued to UIKit. */
module Sessions {
  import opened Wrappers
  import opened SheetStyle
  import P = Presenter

  /** Identity of an `onDismiss` closure. */
  type CallbackId = nat

  /** Which binding a sheet controller writes when its view disappears. */
  datatype BindingTarget =
    | ConstantTrue        // `.constant(true)`: the write goes nowhere
    | IsPresentedBinding  // the modifier's `$isPresented`
    | SelectedItemBinding // the modifier's `$selectedItem`

  /** A sheet controller built by `updatePresentation`. */
  datatype Sheet<C> = Sheet(id: nat, style: SheetViewStyle, binding: BindingTarget, content: C)

  /** A call issued to UIKit. */
  datatype Effect<C> =
    | Present(presenter: P.Controller, sheet: Sheet<C>)
    | DismissSheet(sheet: Sheet<C>, completion: Option<CallbackId>)

  datatype Session<V, C> = Session(binding: V, stored: Option<Sheet<C>>, created: nat, log: seq<Effect<C>>)

  /** What a binding change asks for: a new controller built from these parts, or closing. */
  datatype Request<C> = Open(style: SheetViewStyle, target: BindingTarget, content: C) | Close

  /** A change of the binding as `updatePresentation` sees it: the presenter
      UIKit offers at that moment and the request. */
  datatype Change<C> = Change(presenter: Option<P.Controller>, request: Request<C>)

  function Empty<V, C>(binding: V): (s: Session<V, C>)
    ensures s.binding == binding && s.stored.None? && s.log == []
  {
    Session(binding, None, 0, [])
  }

  /** `updatePresentation`: without a presenter the binding is reset to its
      closed value and nothing else happens; an open request builds, stores
      and presents a new controller (replacing, not dismissing, one already
      stored); a close request dismisses the stored controller, if any, with
      `onDismiss` as completion and forgets it. */
  function Sync<V, C>(s: Session<V, C>, presenter: Option<P.Controller>, closed: V, req: Request<C>,
                      onDismiss: Option<CallbackId>): (t: Session<V, C>)
    ensures presenter.None? ==> t == s.(binding := closed)
    ensures presenter.Some? ==> t.binding == s.binding
    ensures presenter.Some? && req.Open? ==>
      t.stored == Some(Sheet(s.created, req.style, req.target, req.content)) &&
      t.created == s.created + 1 &&
      t.log == s.log + [Present(presenter.value, t.stored.value)]
    ensures presenter.Some? && req.Close? ==>
      t.stored.None? && t.created == s.created &&
      t.log == s.log + (if s.stored.Some? then [DismissSheet(s.stored.value, onDismiss)] else [])
  {
    match presenter
    case None => s.(binding := closed)
    case Some(p) =>
      match req
      case Open(style, target, content) =>
        var sheet := Sheet(s.created, style, target, content);
        s.(stored := Some(sheet), created := s.created + 1, log := s.log + [Present(p, sheet)])
      case Close =>
        var dismissals := match s.stored
          case None => []
          case Some(sheet) => [DismissSheet(sheet, onDismiss)];
        s.(stored := None, log := s.log + dismissals)
  }

  /** `UIDevice.current.userInterfaceIdiom` */
  datatype Idiom = Unspecified | Phone | Pad | TV | CarPlay | Mac

  /** How a modifier's `body` presents the sheet: through this package's
      controller (`onChange` calls `updatePresentation`), or through SwiftUI's
      own `.sheet` with the given `onDismiss`, which is not part of this model. */
  datatype Route = Custom | NativeSheet(onDismiss: Option<CallbackId>)

  /** The routing of `body` in `SheetViewModifier` and in the later
      `ItemSheetViewModifier`: the custom controller on phones only. */
  function PhoneRoute(idiom: Idiom, onDismiss: Option<CallbackId>): (r: Route)
    ensures r.Custom? <==> idiom == Phone
    ensures r.NativeSheet? ==> r.onDismiss == onDismiss
  {
    if idiom == Phone then Custom else NativeSheet(onDismiss)
  }

  /** A write of `value` to the binding. SwiftUI's `onChange` runs
      `updatePresentation` only when the value actually changed and only on
      the custom route. `req` is the request `updatePresentation` derives
      from `value` (each modifier's request function applied to `value`);
      every caller passes the two as such a pair. */
  function AfterBindingWrite<V(==), C>(s: Session<V, C>, value: V, custom: bool, presenter: Option<P.Controller>,
                                       closed: V, req: Request<C>, onDismiss: Option<CallbackId>): (t: Session<V, C>)
    ensures value == s.binding || !custom ==> t == s.(binding := value)
    ensures value != s.binding && custom ==> t == Sync(s.(binding := value), presenter, closed, req, onDismiss)
  {
    if value == s.binding || !custom then s.(binding := value)
    else Sync(s.(binding := value), presenter, closed, req, onDismiss)
  }

  /** `viewDidDisappear` of a sheet bound to `target`. A constant binding
      absorbs the write. Otherwise the binding is set to its closed value, and
      that is a binding write like any other: on the custom route, if the
      value changed, `onChange` runs `updatePresentation` with it, which
      closes the session. */
  function AfterSheetDisappeared<V(==), C>(s: Session<V, C>, target: BindingTarget, closed: V, custom: bool,
                                           presenter: Option<P.Controller>, onDismiss: Option<CallbackId>): (t: Session<V, C>)
    ensures target.ConstantTrue? ==> t == s
    ensures !target.ConstantTrue? ==> t.binding == closed
  {
    if target.ConstantTrue? then s
    else AfterBindingWrite(s, closed, custom, presenter, closed, Close, onDismiss)
  }

  /** For every session whose binding is open: when a sheet bound to the
      modifier disappears on the custom route with a presenter available,
      the stored controller, if any, is dismissed with `onDismiss` and
      forgotten, and nothing else is presented. */
  lemma DisappearClosesSession<V, C>(s: Session<V, C>, target: BindingTarget, closed: V,
                                         presenter: Option<P.Controller>, onDismiss: Option<CallbackId>)
    requires !target.ConstantTrue? && presenter.Some? && s.binding != closed
    ensures
      var t := AfterSheetDisappeared(s, target, closed, true, presenter, onDismiss);
      t.binding == closed && t.stored.None? && t.created == s.created &&
      t.log == s.log + (if s.stored.Some? then [DismissSheet(s.stored.value, onDismiss)] else [])
  {
  }

  /** A disappearance keeps the session invariant. */
  lemma DisappearPreservesValid<V, C>(s: Session<V, C>, target: BindingTarget, closed: V, custom: bool,
                                          presenter: Option<P.Controller>, onDismiss: Option<CallbackId>)
    requires Valid(s)
    ensures Valid(AfterSheetDisappeared(s, target, closed, custom, presenter, onDismiss))
  {
    if !target.ConstantTrue? && closed != s.binding && custom {
      SyncPreservesValid(s.(binding := closed), presenter, closed, Close, onDismiss);
    }
  }

  function SyncRun<V, C>(s: Session<V, C>, closed: V, onDismiss: Option<CallbackId>, changes: seq<Change<C>>): Session<V, C>
    decreases |changes|
  {
    if changes == [] then s
    else SyncRun(Sync(s, changes[0].presenter, closed, changes[0].request, onDismiss), closed, onDismiss, changes[1..])
  }

  /** The session invariant: controllers are numbered in the order they are
      built, every dismissal directly follows the presentation of the same
      controller, and the stored controller is the one presented last. */
  ghost predicate Valid<V, C>(s: Session<V, C>)
  {
    (forall i :: 0 <= i < |s.log| ==> s.log[i].sheet.id < s.created) &&
    (forall i, j :: 0 <= i < j < |s.log| && s.log[i].Present? && s.log[j].Present? ==>
      s.log[i].sheet.id < s.log[j].sheet.id) &&
    (forall i :: 0 <= i < |s.log| && s.log[i].DismissSheet? ==>
      0 < i && s.log[i - 1].Present? && s.log[i - 1].sheet == s.log[i].sheet) &&
    (s.stored.Some? ==>
      |s.log| > 0 && s.log[|s.log| - 1].Present? && s.log[|s.log| - 1].sheet == s.stored.value)
  }

  lemma EmptyValid<V, C>(binding: V)
    ensures Valid(Empty<V, C>(binding))
  {
  }

  lemma SyncPreservesValid<V, C>(s: Session<V, C>, presenter: Option<P.Controller>, closed: V, req: Request<C>,
                                 onDismiss: Option<CallbackId>)
    requires Valid(s)
    ensures Valid(Sync(s, presenter, closed, req, onDismiss))
  {
    var t := Sync(s, presenter, closed, req, onDismiss);
    if presenter.Some? {
      assert |s.log| <= |t.log| && forall i :: 0 <= i < |s.log| ==> t.log[i] == s.log[i];
      forall i | 0 <= i < |t.log| && t.log[i].DismissSheet?
        ensures 0 < i && t.log[i - 1].Present? && t.log[i - 1].sheet == t.log[i].sheet
      {
        if i < |s.log| {
          assert t.log[i - 1] == s.log[i - 1];
        }
      }
    }
  }

  /** The invariant holds after any sequence of binding changes. */
  lemma {:induction false} SyncRunPreservesValid<V, C>(s: Session<V, C>, closed: V, onDismiss: Option<CallbackId>,
                                                       changes: seq<Change<C>>)
    requires Valid(s)
    ensures Valid(SyncRun(s, closed, onDismiss, changes))
    decreases |changes|
  {
    if changes != [] {
      SyncPreservesValid(s, changes[0].presenter, closed, changes[0].request, onDismiss);
      SyncRunPreservesValid(Sync(s, changes[0].presenter, closed, changes[0].request, onDismiss),
                            closed, onDismiss, changes[1..]);
    }
  }

  /** In a valid session no controller is dismissed twice, so `onDismiss`
      is handed to UIKit at most once per presented controller. */
  lemma DismissedAtMostOnce<V, C>(s: Session<V, C>)
    requires Valid(s)
    ensures forall i, j :: 0 <= i < j < |s.log| && s.log[i].DismissSheet? && s.log[j].DismissSheet? ==>
      s.log[i].sheet.id != s.log[j].sheet.id
  {
    forall i, j | 0 <= i < j < |s.log| && s.log[i].DismissSheet? && s.log[j].DismissSheet?
      ensures s.log[i].sheet.id != s.log[j].sheet.id
    {
      assert s.log[i - 1].Present? && s.log[j - 1].Present?;
      assert s.log[i - 1].sheet.id < s.log[j - 1].sheet.id;
    }
  }

  /** Every dismissed controller is one that was presented before it. */
  lemma DismissedWerePresented<V, C>(s: Session<V, C>, i: nat)
    requires Valid(s) && i < |s.log| && s.log[i].DismissSheet?
    ensures exists k :: 0 <= k < i && s.log[k].Present? && s.log[k].sheet == s.log[i].sheet
  {
    assert s.log[i - 1].Present? && s.log[i - 1].sheet == s.log[i].sheet;
  }
}
