/** The later `ItemSheetViewModifier` of Sources/SheetUI/ItemSheetViewModifier.swift.
    Unlike the earlier one it routes by device idiom and hands the new
    controller the `$selectedItem` binding, which the controller clears when
    its view disappears (Sources/SheetUI/SheetItemSheetViewController.swift). */
module SheetItemModifiers {
  import opened Wrappers
  import opened SheetStyle
  import opened Sessions
  import P = Presenter

  /** The controller built for a new selection: default style, bound to `selectedItem`. */
  function ItemRequest<Item, C>(contentView: Item -> C, item: Option<Item>): (r: Request<C>)
    ensures r.Open? <==> item.Some?
    ensures r.Open? ==>
      r.style == SheetStyle.Default() && r.target == SelectedItemBinding && r.content == contentView(item.value)
  {
    match item
    case None => Close
    case Some(i) => Open(SheetStyle.Default(), SelectedItemBinding, contentView(i))
  }

  class ItemSheetViewModifier<Item(==), C> {
    const onDismiss: Option<CallbackId>
    const contentView: Item -> C

    /** `selectedItem` binding */
    var selectedItem: Option<Item>
    /** `@State sheetViewController` */
    var sheetViewController: Option<Sheet<C>>
    var created: nat
    /** Present and dismiss calls issued so far. */
    var log: seq<Effect<C>>

    function Snapshot(): Session<Option<Item>, C>
      reads this
    {
      Session(selectedItem, sheetViewController, created, log)
    }

    constructor (selectedItem: Option<Item>, onDismiss: Option<CallbackId>, contentView: Item -> C)
      ensures this.onDismiss == onDismiss && this.contentView == contentView
      ensures Snapshot() == Empty(selectedItem) && Valid(Snapshot())
    {
      this.onDismiss := onDismiss;
      this.contentView := contentView;
      this.selectedItem := selectedItem;
      this.sheetViewController := None;
      this.created := 0;
      this.log := [];
    }

    /** `updatePresentation(_:)` at a moment when the application's scenes are `scenes`. */
    method UpdatePresentation(item: Option<Item>, scenes: seq<P.Scene>)
      requires Valid(Snapshot())
      modifies this
      ensures Valid(Snapshot())
      ensures P.PresentingViewController(scenes).None? ==>
        selectedItem.None? && sheetViewController == old(sheetViewController) && log == old(log)
      ensures P.PresentingViewController(scenes).Some? && item.Some? ==>
        sheetViewController == Some(Sheet(old(created), SheetStyle.Default(), SelectedItemBinding, contentView(item.value))) &&
        log == old(log) + [Present(P.PresentingViewController(scenes).value, sheetViewController.value)]
      ensures P.PresentingViewController(scenes).Some? && item.None? ==>
        sheetViewController.None? &&
        log == old(log) + (if old(sheetViewController).Some? then [DismissSheet(old(sheetViewController).value, onDismiss)] else [])
      ensures Snapshot() == Sync(old(Snapshot()), P.PresentingViewController(scenes), None, ItemRequest(contentView, item), onDismiss)
    {
      SyncPreservesValid(Snapshot(), P.PresentingViewController(scenes), None, ItemRequest(contentView, item), onDismiss);
      var presenter := P.PresentingViewController(scenes);
      if presenter.None? {
        selectedItem := None;
        return;
      }
      if item.Some? {
        var sheet := Sheet(created, SheetStyle.Default(), SelectedItemBinding, contentView(item.value));
        sheetViewController := Some(sheet);
        created := created + 1;
        log := log + [Present(presenter.value, sheet)];
      } else {
        if sheetViewController.Some? {
          log := log + [DismissSheet(sheetViewController.value, onDismiss)];
        }
        sheetViewController := None;
      }
    }

    /** A write of `value` to `selectedItem`; `onChange` fires if it changed,
        and only on the custom route does it reach `updatePresentation`. */
    method BindingChanged(value: Option<Item>, idiom: Idiom, scenes: seq<P.Scene>)
      requires Valid(Snapshot())
      modifies this
      ensures Valid(Snapshot())
      ensures idiom != Phone ==> selectedItem == value && sheetViewController == old(sheetViewController) && log == old(log)
      ensures Snapshot() == AfterBindingWrite(old(Snapshot()), value, PhoneRoute(idiom, onDismiss).Custom?, P.PresentingViewController(scenes),
                                              None, ItemRequest(contentView, value), onDismiss)
    {
      ghost var before := Snapshot();
      var changed := value != selectedItem;
      selectedItem := value;
      assert Snapshot() == before.(binding := value) && Valid(Snapshot());
      if changed && PhoneRoute(idiom, onDismiss).Custom? {
        UpdatePresentation(value, scenes);
      }
    }

    /** The presented sheet's `viewDidDisappear` sets `selectedItem` to nil,
        which is a binding write like any other. */
    method SheetDidDisappear(idiom: Idiom, scenes: seq<P.Scene>)
      requires Valid(Snapshot())
      modifies this
      ensures Valid(Snapshot())
      ensures selectedItem.None?
      ensures idiom == Phone && P.PresentingViewController(scenes).Some? && old(selectedItem).Some? ==>
        sheetViewController.None? &&
        log == old(log) + (if old(sheetViewController).Some? then [DismissSheet(old(sheetViewController).value, onDismiss)] else [])
      ensures Snapshot() == AfterSheetDisappeared(old(Snapshot()), SelectedItemBinding, None, PhoneRoute(idiom, onDismiss).Custom?,
                                                  P.PresentingViewController(scenes), onDismiss)
    {
      BindingChanged(None, idiom, scenes);
    }
  }

  /** A sheet opened for `item` and closed by a swipe or tap: the
      disappearing controller clears `selectedItem`, that change dismisses
      the stored controller with `onDismiss` exactly once, and selecting the
      same item again presents a new controller. */
  lemma ItemSwipeClosesSession<Item, C>(contentView: Item -> C, item: Item, onDismiss: Option<CallbackId>,
                                            p: P.Controller, q: P.Controller, r: P.Controller)
    ensures
      var s1 := AfterBindingWrite(Empty<Option<Item>, C>(None), Some(item), true, Some(p), None,
                                  ItemRequest(contentView, Some(item)), onDismiss);
      var s2 := AfterSheetDisappeared(s1, SelectedItemBinding, None, true, Some(q), onDismiss);
      var s3 := AfterBindingWrite(s2, Some(item), true, Some(r), None, ItemRequest(contentView, Some(item)), onDismiss);
      var first := Sheet(0, SheetStyle.Default(), SelectedItemBinding, contentView(item));
      s2.binding.None? && s2.stored.None? &&
      s2.log == [Present(p, first), DismissSheet(first, onDismiss)] &&
      s3.log == s2.log + [Present(r, first.(id := 1))]
  {
  }
}
