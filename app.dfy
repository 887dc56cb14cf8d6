/** The screen component as an object: its state hooks are fields, its
    handlers are methods that update them in sequence, and the commands sent
    through the bottom sheet's ref and the card list's ref are appended to
    the recorded command sequences. Each handler is specified by the
    function of module Sheet that describes the same transition. */
module Screen {
  import opened PinData
  import opened Sheet

  class App {
    var selectedPinId: Option<int>
    var sheetView: string
    var snaps: seq<int>     // snapToIndex commands, oldest first
    var scrolls: seq<int>   // scrollToIndex commands, oldest first

    /** The state as a value of the functional model. */
    ghost function Model(): State
      reads this
    {
      State(selectedPinId, sheetView, snaps, scrolls)
    }

    constructor ()
      ensures Model() == Initial
    {
      selectedPinId := None;
      sheetView := Card;
      snaps := [];
      scrolls := [];
    }

    /** `bottomSheetRef.current?.snapToIndex(i)`. */
    method SnapToIndex(i: int)
      modifies this
      ensures snaps == old(snaps) + [i]
      ensures selectedPinId == old(selectedPinId) && sheetView == old(sheetView) && scrolls == old(scrolls)
    {
      snaps := snaps + [i];
    }

    method HandlePinPress(id: int)
      modifies this
      ensures Model() == PinPress(old(Model()), id)
      ensures selectedPinId == Some(id) && sheetView == Card
      ensures snaps == old(snaps) + [1]
      ensures scrolls == old(scrolls) + (if IsPinId(id) && ListMounted(old(sheetView)) then [FindIndex(DummyData, id)] else [])
    {
      // The list ref is read in the closure of the current render, before
      // the view update below takes effect.
      var listMounted := ListMounted(sheetView);
      selectedPinId := Some(id);
      sheetView := Card;
      SnapToIndex(1);
      var index := FindIndex(DummyData, id);
      if index != -1 && listMounted {
        scrolls := scrolls + [index];
      }
    }

    method OnViewableItemsChanged(viewableItems: seq<Pin>)
      modifies this
      ensures Model() == ViewableItemsChanged(old(Model()), viewableItems)
      ensures |viewableItems| > 0 ==> selectedPinId == Some(viewableItems[0].id)
      ensures |viewableItems| == 0 ==> selectedPinId == old(selectedPinId)
      ensures sheetView == old(sheetView) && snaps == old(snaps) && scrolls == old(scrolls)
    {
      if |viewableItems| > 0 {
        var newItem := viewableItems[0];
        if selectedPinId != Some(newItem.id) {
          selectedPinId := Some(newItem.id);
        }
      }
    }

    method NavigateTo(view: string, snapIndex: int := DefaultSnapIndex)
      modifies this
      ensures Model() == Sheet.NavigateTo(old(Model()), view, snapIndex)
      ensures sheetView == view && snaps == old(snaps) + [snapIndex]
      ensures selectedPinId == old(selectedPinId) && scrolls == old(scrolls)
    {
      sheetView := view;
      SnapToIndex(snapIndex);
    }

    method HandleBack()
      modifies this
      ensures Model() == Back(old(Model()))
      ensures IsDetails(old(sheetView)) ==> sheetView == Options && snaps == old(snaps) + [2]
      ensures old(sheetView) == Options ==> sheetView == Card && snaps == old(snaps) + [1]
      ensures !IsDetails(old(sheetView)) && old(sheetView) != Options ==> Model() == old(Model())
    {
      if StartsWith(sheetView, DetailsPrefix) {
        NavigateTo(Options, 2);
      } else if sheetView == Options {
        NavigateTo(Card, 1);
      }
    }

    /** The edit icon on a card. */
    method OnEditPress()
      modifies this
      ensures Model() == Apply(old(Model()), EditPress)
      ensures sheetView == Options && snaps == old(snaps) + [1]
    {
      NavigateTo(Options, 1);
    }

    /** One of the three entries of the options pane. */
    method OnOptionPress(target: DetailTarget)
      modifies this
      ensures Model() == Apply(old(Model()), OptionPress(target))
      ensures sheetView == DetailView(target) && snaps == old(snaps) + [2]
    {
      match target
      case Head => NavigateTo(DetailsHead);
      case Assign => NavigateTo(DetailsAssign);
      case Task => NavigateTo(DetailsTask);
    }

    /** The shortcut from the task list to the header data. */
    method OnShortcutPress()
      modifies this
      ensures Model() == Apply(old(Model()), ShortcutPress)
      ensures sheetView == DetailsHead && snaps == old(snaps) + [2]
    {
      NavigateTo(DetailsHead);
    }

    /** The sheet's `index` prop for the current render. */
    method SheetIndex() returns (index: int)
      ensures Consistent(Model()) ==> (index == 1 <==> selectedPinId.Some?)
      ensures 0 <= index < |SnapPoints|
    {
      index := InitialSheetIndex(selectedPinId);
      DummyDataIdsDistinct();
    }

    /** The panes rendered for the current view: never options and details
        together, and in a consistent state exactly one of the three. */
    method CurrentPanes() returns (panes: Panes)
      ensures !(panes.options && panes.details)
      ensures Consistent(Model()) ==>
        panes == Panes(true, false, false) || panes == Panes(false, true, false) || panes == Panes(false, false, true)
    {
      panes := ShownPanes(sheetView);
      PanesByView(sheetView);
      if Consistent(Model()) {
        ExactlyOnePane(sheetView);
      }
    }
  }
}
