/** The two view modifiers of Sources/SheetUI/SheetViewModifier.swift: the
    earlier item-driven `ItemSheetViewModifier` and the boolean-driven
    `SheetViewModifier`. Each keeps its binding, its stored controller and
    the calls it has issued to UIKit in fields; the methods are proved to
    perform the session steps of module Sessions. */
module SheetModifiers {
  import opened Wrappers
  import opened SheetStyle
  import opened Sessions
  import P = Presenter

  /** The controller the earlier `ItemSheetViewModifier` builds for a new
      selection: default style and a constant `true` binding, whatever the
      modifier's own style is. */
  function EarlyItemRequest<Item, C>(contentView: Item -> C, item: Option<Item>): (r: Request<C>)
    ensures r.Open? <==> item.Some?
    ensures r.Open? ==>
      r.style == SheetStyle.Default() && r.target == ConstantTrue && r.content == contentView(item.value)
  {
    match item
    case None => Close
    case Some(i) => Open(SheetStyle.Default(), ConstantTrue, contentView(i))
  }

  /** The controller `SheetViewModifier` builds when `isPresented` becomes
      true: the modifier's own style and its `$isPresented` binding. */
  function BoolRequest<C>(style: SheetViewStyle, contentView: C, value: bool): (r: Request<C>)
    ensures r.Open? <==> value
    ensures r.Open? ==> r.style == style && r.target == IsPresentedBinding && r.content == contentView
  {
    if value then Open(style, IsPresentedBinding, contentView) else Close
  }

  /** The earlier `ItemSheetViewModifier`. Its `body` has no device routing:
      every change goes through `updatePresentation`. */
  class ItemSheetViewModifier<Item(==), C> {
    const onDismiss: Option<CallbackId>
    const contentView: Item -> C

    /** `selectedItem` binding */
    var selectedItem: Option<Item>
    /** `@State sheetViewController` */
    var sheetViewController: Option<Sheet<C>>
    var created: nat
    /** Present and dismiss calls issued so far. */
    var log: seq<Effect<C>>

    function Snapshot(): Session<Option<Item>, C>
      reads this
    {
      Session(selectedItem, sheetViewController, created, log)
    }

    constructor (selectedItem: Option<Item>, onDismiss: Option<CallbackId>, contentView: Item -> C)
      ensures this.onDismiss == onDismiss && this.contentView == contentView
      ensures Snapshot() == Empty(selectedItem) && Valid(Snapshot())
    {
      this.onDismiss := onDismiss;
      this.contentView := contentView;
      this.selectedItem := selectedItem;
      this.sheetViewController := None;
      this.created := 0;
      this.log := [];
    }

    /** `updatePresentation(_:)` at a moment when the application's scenes are `scenes`. */
    method UpdatePresentation(item: Option<Item>, scenes: seq<P.Scene>)
      requires Valid(Snapshot())
      modifies this
      ensures Valid(Snapshot())
      ensures P.PresentingViewController(scenes).None? ==>
        selectedItem.None? && sheetViewController == old(sheetViewController) && log == old(log)
      ensures P.PresentingViewController(scenes).Some? && item.Some? ==>
        sheetViewController == Some(Sheet(old(created), SheetStyle.Default(), ConstantTrue, contentView(item.value))) &&
        log == old(log) + [Present(P.PresentingViewController(scenes).value, sheetViewController.value)]
      ensures P.PresentingViewController(scenes).Some? && item.None? ==>
        sheetViewController.None? &&
        log == old(log) + (if old(sheetViewController).Some? then [DismissSheet(old(sheetViewController).value, onDismiss)] else [])
      ensures Snapshot() == Sync(old(Snapshot()), P.PresentingViewController(scenes), None, EarlyItemRequest(contentView, item), onDismiss)
    {
      SyncPreservesValid(Snapshot(), P.PresentingViewController(scenes), None, EarlyItemRequest(contentView, item), onDismiss);
      var presenter := P.PresentingViewController(scenes);
      if presenter.None? {
        selectedItem := None;
        return;
      }
      if item.Some? {
        var sheet := Sheet(created, SheetStyle.Default(), ConstantTrue, contentView(item.value));
        sheetViewController := Some(sheet);
        created := created + 1;
        log := log + [Present(presenter.value, sheet)];
      } else {
        if sheetViewController.Some? {
          log := log + [DismissSheet(sheetViewController.value, onDismiss)];
        }
        sheetViewController := None;
      }
    }

    /** The host writes `value` to `selectedItem`; `onChange` fires if it changed. */
    method BindingChanged(value: Option<Item>, scenes: seq<P.Scene>)
      requires Valid(Snapshot())
      modifies this
      ensures Valid(Snapshot())
      ensures Snapshot() == AfterBindingWrite(old(Snapshot()), value, true, P.PresentingViewController(scenes),
                                              None, EarlyItemRequest(contentView, value), onDismiss)
    {
      ghost var before := Snapshot();
      var changed := value != selectedItem;
      selectedItem := value;
      assert Snapshot() == before.(binding := value) && Valid(Snapshot());
      if changed {
        UpdatePresentation(value, scenes);
      }
    }

    /** The presented sheet's `viewDidDisappear`: its binding is `.constant(true)`,
        so the write reaches nothing and `selectedItem` keeps its value. */
    method SheetDidDisappear()
      ensures Snapshot() == AfterSheetDisappeared(old(Snapshot()), ConstantTrue, None, true, None, onDismiss)
      ensures selectedItem == old(selectedItem)
    {
    }
  }

  /** `SheetViewModifier`, driven by an `isPresented` binding. */
  class SheetViewModifier<C> {
    const style: SheetViewStyle
    const onDismiss: Option<CallbackId>
    const contentView: C

    /** `isPresented` binding */
    var isPresented: bool
    /** `@State sheetViewController` */
    var sheetViewController: Option<Sheet<C>>
    var created: nat
    /** Present and dismiss calls issued so far. */
    var log: seq<Effect<C>>

    function Snapshot(): Session<bool, C>
      reads this
    {
      Session(isPresented, sheetViewController, created, log)
    }

    constructor (isPresented: bool, style: SheetViewStyle, onDismiss: Option<CallbackId>, contentView: C)
      ensures this.style == style && this.onDismiss == onDismiss && this.contentView == contentView
      ensures Snapshot() == Empty(isPresented) && Valid(Snapshot())
    {
      this.style := style;
      this.onDismiss := onDismiss;
      this.contentView := contentView;
      this.isPresented := isPresented;
      this.sheetViewController := None;
      this.created := 0;
      this.log := [];
    }

    /** `updatePresentation(_:)` at a moment when the application's scenes are `scenes`. */
    method UpdatePresentation(value: bool, scenes: seq<P.Scene>)
      requires Valid(Snapshot())
      modifies this
      ensures Valid(Snapshot())
      ensures P.PresentingViewController(scenes).None? ==>
        !isPresented && sheetViewController == old(sheetViewController) && log == old(log)
      ensures P.PresentingViewController(scenes).Some? && value ==>
        sheetViewController == Some(Sheet(old(created), style, IsPresentedBinding, contentView)) &&
        log == old(log) + [Present(P.PresentingViewController(scenes).value, sheetViewController.value)]
      ensures P.PresentingViewController(scenes).Some? && !value ==>
        sheetViewController.None? &&
        log == old(log) + (if old(sheetViewController).Some? then [DismissSheet(old(sheetViewController).value, onDismiss)] else [])
      ensures Snapshot() == Sync(old(Snapshot()), P.PresentingViewController(scenes), false, BoolRequest(style, contentView, value), onDismiss)
    {
      SyncPreservesValid(Snapshot(), P.PresentingViewController(scenes), false, BoolRequest(style, contentView, value), onDismiss);
      var presenter := P.PresentingViewController(scenes);
      if presenter.None? {
        isPresented := false;
        return;
      }
      if value {
        var sheet := Sheet(created, style, IsPresentedBinding, contentView);
        sheetViewController := Some(sheet);
        created := created + 1;
        log := log + [Present(presenter.value, sheet)];
      } else {
        if sheetViewController.Some? {
          log := log + [DismissSheet(sheetViewController.value, onDismiss)];
        }
        sheetViewController := None;
      }
    }

    /** A write of `value` to `isPresented`; `onChange` fires if it changed,
        and only on the custom route does it reach `updatePresentation`. */
    method BindingChanged(value: bool, idiom: Idiom, scenes: seq<P.Scene>)
      requires Valid(Snapshot())
      modifies this
      ensures Valid(Snapshot())
      ensures idiom != Phone ==> isPresented == value && sheetViewController == old(sheetViewController) && log == old(log)
      ensures Snapshot() == AfterBindingWrite(old(Snapshot()), value, PhoneRoute(idiom, onDismiss).Custom?, P.PresentingViewController(scenes),
                                              false, BoolRequest(style, contentView, value), onDismiss)
    {
      ghost var before := Snapshot();
      var changed := value != isPresented;
      isPresented := value;
      assert Snapshot() == before.(binding := value) && Valid(Snapshot());
      if changed && PhoneRoute(idiom, onDismiss).Custom? {
        UpdatePresentation(value, scenes);
      }
    }

    /** The presented sheet's `viewDidDisappear` sets `isPresented` to false,
        which is a binding write like any other. */
    method SheetDidDisappear(idiom: Idiom, scenes: seq<P.Scene>)
      requires Valid(Snapshot())
      modifies this
      ensures Valid(Snapshot())
      ensures !isPresented
      ensures idiom == Phone && P.PresentingViewController(scenes).Some? && old(isPresented) ==>
        sheetViewController.None? &&
        log == old(log) + (if old(sheetViewController).Some? then [DismissSheet(old(sheetViewController).value, onDismiss)] else [])
      ensures Snapshot() == AfterSheetDisappeared(old(Snapshot()), IsPresentedBinding, false, PhoneRoute(idiom, onDismiss).Custom?,
                                                  P.PresentingViewController(scenes), onDismiss)
    {
      BindingChanged(false, idiom, scenes);
    }
  }

  /** Present on a phone, then close by a swipe or tap (the sheet's view
      disappears), with a presenter available both times: the binding ends
      false, nothing stays stored, and exactly one present and one dismissal
      carrying `onDismiss` were issued. */
  lemma BoolRoundTrip<C>(style: SheetViewStyle, content: C, onDismiss: Option<CallbackId>, p: P.Controller, q: P.Controller)
    ensures
      var s1 := AfterBindingWrite(Empty<bool, C>(false), true, true, Some(p), false, BoolRequest(style, content, true), onDismiss);
      var s2 := AfterSheetDisappeared(s1, IsPresentedBinding, false, true, Some(q), onDismiss);
      var sheet := Sheet(0, style, IsPresentedBinding, content);
      !s2.binding && s2.stored.None? && s2.log == [Present(p, sheet), DismissSheet(sheet, onDismiss)]
  {
  }

  /** As written, a sheet opened by the earlier `ItemSheetViewModifier` and
      closed by a swipe or tap leaves `selectedItem` set: no dismissal with
      `onDismiss` is issued, the controller stays stored, and selecting the
      same item again changes nothing, so it presents nothing. */
  lemma EarlyItemSwipeKeepsSelection<Item, C>(contentView: Item -> C, item: Item, onDismiss: Option<CallbackId>,
                                                  p: P.Controller, q: P.Controller)
    ensures
      var s1 := AfterBindingWrite(Empty<Option<Item>, C>(None), Some(item), true, Some(p), None,
                                  EarlyItemRequest(contentView, Some(item)), onDismiss);
      var s2 := AfterSheetDisappeared(s1, ConstantTrue, None, true, Some(q), onDismiss);
      var s3 := AfterBindingWrite(s2, Some(item), true, Some(q), None, EarlyItemRequest(contentView, Some(item)), onDismiss);
      s2.binding == Some(item) && s2.stored.Some? &&
      (forall i :: 0 <= i < |s2.log| ==> !s2.log[i].DismissSheet?) &&
      s3.log == s2.log
  {
  }
}
