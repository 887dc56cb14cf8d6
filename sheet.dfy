/** The bottom sheet's view/selection state machine of the hand-rolled
    navigation screen, as functions on a state value: the selection, the
    active view name, and the commands sent to the sheet (`snapToIndex`) and
    to the card list (`scrollToIndex`), recorded in the order issued. */
module Sheet {
  import opened PinData

  /** The sheet's three snap points; a snap index addresses this sequence. */
  const SnapPoints: seq<string> := ["15%", "45%", "90%"]

  /** `navigateTo`'s default snap index: the largest snap point. */
  const DefaultSnapIndex: int := 2

  const Card: string := "card"
  const Options: string := "options"
  const DetailsPrefix: string := "details_"
  const DetailsHead: string := "details_head"
  const DetailsAssign: string := "details_assign"
  const DetailsTask: string := "details_task"

  /** JavaScript's `s.startsWith(prefix)`. */
  predicate StartsWith(s: string, prefix: string) {
    |prefix| <= |s| && s[..|prefix|] == prefix
  }

  predicate IsDetails(view: string) {
    StartsWith(view, DetailsPrefix)
  }

  /** The five view names the screen's buttons ever pass. */
  predicate KnownView(view: string) {
    view == Card || view == Options || view == DetailsHead || view == DetailsAssign || view == DetailsTask
  }

  datatype State = State(
    selectedPinId: Option<int>,
    sheetView: string,
    snaps: seq<int>,    // every snapToIndex argument, oldest first
    scrolls: seq<int>)  // every scrollToIndex index, oldest first

  /** Nothing selected, the card view, no command issued yet. */
  const Initial: State := State(None, Card, [], [])

  // ---------------------------------------------------------------------
  // Which pane the sheet shows

  /** Which of the sheet's three panes are rendered for a view. */
  datatype Panes = Panes(cardList: bool, options: bool, details: bool)

  function ShownPanes(view: string): (r: Panes) {
    if view == Card then Panes(true, false, false)
    else Panes(false, view == Options, IsDetails(view))
  }

  /** The card list, and with it the list ref `scrollToIndex` goes through,
      is mounted only while the card view is shown. */
  predicate ListMounted(view: string) {
    ShownPanes(view).cardList
  }

  /** What the details pane shows. `NoContent` is a details view name
      without a branch of its own: the header and back button, no body. */
  datatype DetailContent =
    | HeadData(address: Address)
    | Assignments(ports: seq<Port>, emptyNotice: bool)
    | TaskList(tasks: seq<string>)
    | NoContent

  /** `renderDetails`: nothing at all without a selected record. */
  function RenderDetails(view: string, data: Option<Pin>): (r: Option<DetailContent>) {
    match data
    case None => None
    case Some(p) =>
      if view == DetailsHead then Some(HeadData(p.address))
      else if view == DetailsAssign then Some(Assignments(p.belegung, |p.belegung| == 0))
      else if view == DetailsTask then Some(TaskList(p.tasks))
      else Some(NoContent)
  }

  /** The sheet's `index` prop, `selectedPinId ? 1 : 0`, with JavaScript's
      truthiness: the id 0 counts as no selection. */
  function InitialSheetIndex(selected: Option<int>): (r: int) {
    if selected.Some? && selected.value != 0 then 1 else 0
  }

  // ---------------------------------------------------------------------
  // Transitions

  /** `handlePinPress(id)`: select, reset to the card view, snap to 1, and
      scroll the card list to the record when it exists and the list is
      mounted. */
  function PinPress(s: State, id: int): (r: State) {
    var index := FindIndex(DummyData, id);
    State(Some(id), Card, s.snaps + [1],
          if index != -1 && ListMounted(s.sheetView) then s.scrolls + [index] else s.scrolls)
  }

  /** `onViewableItemsChanged`: the first viewable card becomes the selection. */
  function ViewableItemsChanged(s: State, viewableItems: seq<Pin>): (r: State) {
    if |viewableItems| > 0 then
      var newId := viewableItems[0].id;
      s.(selectedPinId := if s.selectedPinId != Some(newId) then Some(newId) else s.selectedPinId)
    else s
  }

  /** `navigateTo(view, snapIndex = 2)`. */
  function NavigateTo(s: State, view: string, snapIndex: int := DefaultSnapIndex): (r: State) {
    s.(sheetView := view, snaps := s.snaps + [snapIndex])
  }

  /** `handleBack`: details → options (snap 2), options → card (snap 1),
      anything else unchanged. */
  function Back(s: State): (r: State) {
    if IsDetails(s.sheetView) then NavigateTo(s, Options, 2)
    else if s.sheetView == Options then NavigateTo(s, Card, 1)
    else s
  }

  /** The three entries of the options pane. */
  datatype DetailTarget = Head | Assign | Task

  function DetailView(t: DetailTarget): (v: string)
    ensures IsDetails(v) && KnownView(v)
  {
    match t
    case Head => DetailsHead
    case Assign => DetailsAssign
    case Task => DetailsTask
  }

  /** Every button and event of the screen that reaches the state machine. */
  datatype Action =
    | MarkerPress(id: int)               // marker onPress
    | EditPress                          // edit icon on a card
    | OptionPress(target: DetailTarget)  // an entry of the options pane
    | ShortcutPress                      // "to the form" in the task list
    | BackPress                          // back arrow of options and details
    | ViewableChange(items: seq<Pin>)    // card list viewability callback

  function Apply(s: State, a: Action): (r: State) {
    match a
    case MarkerPress(id) => PinPress(s, id)
    case EditPress => NavigateTo(s, Options, 1)
    case OptionPress(t) => NavigateTo(s, DetailView(t))
    case ShortcutPress => NavigateTo(s, DetailsHead)
    case BackPress => Back(s)
    case ViewableChange(items) => ViewableItemsChanged(s, items)
  }

  /** The action's button or event source is on screen in state `s`.
      The edit icon sits on a card of the list, which reports the card it
      shows as viewable once it is laid out; so the icon is pressed only
      after some card's id has been selected. */
  predicate Offered(s: State, a: Action) {
    var panes := ShownPanes(s.sheetView);
    var data := SelectedPinData(s.selectedPinId);
    match a
    case MarkerPress(id) => IsPinId(id)
    case EditPress => panes.cardList && data.Some?
    case OptionPress(_) => panes.options
    case ShortcutPress => s.sheetView == DetailsTask && data.Some?
    case BackPress => panes.options || (panes.details && data.Some?)
    case ViewableChange(items) =>
      panes.cardList && forall i :: 0 <= i < |items| ==> items[i] in DummyData
  }

  function Run(s: State, acts: seq<Action>): (r: State)
    decreases |acts|
  {
    if |acts| == 0 then s else Run(Apply(s, acts[0]), acts[1..])
  }

  /** Every action of `acts` is offered in the state it is applied to. */
  predicate Trace(s: State, acts: seq<Action>)
    decreases |acts|
  {
    |acts| == 0 || (Offered(s, acts[0]) && Trace(Apply(s, acts[0]), acts[1..]))
  }

  function BackTimes(s: State, n: nat): (r: State)
    decreases n
  {
    if n == 0 then s else BackTimes(Back(s), n - 1)
  }

  // ---------------------------------------------------------------------
  // Properties of single transitions

  lemma PinPressResets(s: State, id: int)
    ensures PinPress(s, id).selectedPinId == Some(id)
    ensures PinPress(s, id).sheetView == Card
    ensures PinPress(s, id).snaps == s.snaps + [1]
    ensures !IsPinId(id) || !ListMounted(s.sheetView) ==> PinPress(s, id).scrolls == s.scrolls
    ensures IsPinId(id) && ListMounted(s.sheetView) ==>
      exists k :: 0 <= k < |DummyData| && DummyData[k].id == id && PinPress(s, id).scrolls == s.scrolls + [k]
  {
  }

  /** Pressing the marker of the k-th record selects that record, shows the
      card view, and (with the card list mounted) scrolls the list to k,
      whatever view was active, the details views included. */
  lemma PinPressSelectsRecord(s: State, k: int)
    requires 0 <= k < |DummyData|
    ensures SelectedPinData(PinPress(s, DummyData[k].id).selectedPinId) == Some(DummyData[k])
    ensures PinPress(s, DummyData[k].id).sheetView == Card
    ensures PinPress(s, DummyData[k].id).scrolls ==
      if ListMounted(s.sheetView) then s.scrolls + [k] else s.scrolls
  {
    SelectedPinDataOfRecord(k);
    DummyDataIdsDistinct();
    LookupOfMember(DummyData, k);
  }

  /** Pressing an id that is no record's selects it, but no record is found
      and no details body is rendered. */
  lemma PinPressUnknown(s: State, id: int, view: string)
    requires !IsPinId(id)
    ensures SelectedPinData(PinPress(s, id).selectedPinId) == None
    ensures RenderDetails(view, SelectedPinData(PinPress(s, id).selectedPinId)) == None
    ensures PinPress(s, id).scrolls == s.scrolls
  {
  }

  lemma PinPressIdempotent(s: State, id: int)
    ensures PinPress(PinPress(s, id), id) ==
      PinPress(s, id).(snaps := s.snaps + [1, 1],
                       scrolls := PinPress(s, id).scrolls + (if IsPinId(id) then [FindIndex(DummyData, id)] else []))
  {
  }

  lemma NavigateToChangesOnlyView(s: State, view: string, snapIndex: int)
    ensures NavigateTo(s, view, snapIndex).sheetView == view
    ensures NavigateTo(s, view, snapIndex).snaps == s.snaps + [snapIndex]
    ensures NavigateTo(s, view, snapIndex).selectedPinId == s.selectedPinId
    ensures NavigateTo(s, view, snapIndex).scrolls == s.scrolls
    ensures NavigateTo(s, view) == NavigateTo(s, view, 2)
  {
  }

  /** The call sites: the card's edit icon snaps to 1, the options entries
      and the task list's shortcut use the default 2. */
  lemma CallSiteSnaps(s: State, t: DetailTarget)
    ensures Apply(s, EditPress).sheetView == Options
    ensures Apply(s, EditPress).snaps == s.snaps + [1]
    ensures Apply(s, OptionPress(t)).sheetView == DetailView(t)
    ensures Apply(s, OptionPress(t)).snaps == s.snaps + [2]
    ensures Apply(s, ShortcutPress).sheetView == DetailsHead
    ensures Apply(s, ShortcutPress).snaps == s.snaps + [2]
    ensures Apply(s, EditPress).selectedPinId == Apply(s, OptionPress(t)).selectedPinId
         == Apply(s, ShortcutPress).selectedPinId == s.selectedPinId
    ensures Apply(s, EditPress).scrolls == Apply(s, OptionPress(t)).scrolls
         == Apply(s, ShortcutPress).scrolls == s.scrolls
  {
  }

  lemma BackFromDetails(s: State)
    requires IsDetails(s.sheetView)
    ensures Back(s) == s.(sheetView := Options, snaps := s.snaps + [2])
  {
  }

  lemma BackFromOptions(s: State)
    requires s.sheetView == Options
    ensures Back(s) == s.(sheetView := Card, snaps := s.snaps + [1])
  {
  }

  /** Back from any other view, the card view included, changes nothing and
      sends no snap command. */
  lemma BackElsewhereIsNoop(s: State)
    requires !IsDetails(s.sheetView) && s.sheetView != Options
    ensures Back(s) == s
  {
  }

  lemma {:induction false} RepeatedBackFromCard(s: State, n: nat)
    requires s.sheetView == Card
    ensures BackTimes(s, n) == s
  {
    if n > 0 {
      assert Back(s) == s;
      RepeatedBackFromCard(s, n - 1);
    }
  }

  /** Back navigation is two levels deep: from any details view one back
      press lands on options and a second on the card view, however the
      details view was reached. */
  lemma TwoBacksFromDetails(s: State)
    requires IsDetails(s.sheetView)
    ensures Back(s).sheetView == Options
    ensures Back(Back(s)).sheetView == Card
    ensures Back(Back(s)).snaps == s.snaps + [2, 1]
    ensures Back(Back(s)).selectedPinId == s.selectedPinId
  {
  }

  /** The task list's shortcut to the header data does not push the task
      list: back from there goes to options. */
  lemma ShortcutThenBack(s: State)
    requires s.sheetView == DetailsTask
    ensures Back(Apply(s, ShortcutPress)).sheetView == Options
    ensures Back(Back(Apply(s, ShortcutPress))).sheetView == Card
  {
  }

  /** Entering options from the card snaps to 1; returning to options from a
      details view snaps to 2. */
  lemma OptionsSnapDependsOnRoute(s: State, t: DetailTarget)
    requires s.sheetView == Card
    ensures Apply(s, EditPress).sheetView == Options
    ensures Apply(s, EditPress).snaps == s.snaps + [1]
    ensures Back(Apply(Apply(s, EditPress), OptionPress(t))).sheetView == Options
    ensures Back(Apply(Apply(s, EditPress), OptionPress(t))).snaps == s.snaps + [1, 2, 2]
  {
  }

  lemma OptionsThenBack(s: State)
    requires s.sheetView == Card
    ensures Back(Apply(s, EditPress)) == s.(snaps := s.snaps + [1, 1])
  {
  }

  /** The viewability callback only ever changes the selection: to the first
      item's id for a non-empty list, not at all for an empty one; and a
      second call with the same items changes nothing. */
  lemma ViewableItemsChangedSelects(s: State, items: seq<Pin>)
    ensures ViewableItemsChanged(s, items).sheetView == s.sheetView
    ensures ViewableItemsChanged(s, items).snaps == s.snaps
    ensures ViewableItemsChanged(s, items).scrolls == s.scrolls
    ensures |items| == 0 ==> ViewableItemsChanged(s, items) == s
    ensures |items| > 0 ==> ViewableItemsChanged(s, items).selectedPinId == Some(items[0].id)
    ensures ViewableItemsChanged(ViewableItemsChanged(s, items), items) == ViewableItemsChanged(s, items)
  {
  }

  // ---------------------------------------------------------------------
  // Panes

  /** At most one pane is shown, each exactly for its views. */
  lemma PanesByView(view: string)
    ensures ShownPanes(view).cardList <==> view == Card
    ensures ShownPanes(view).options <==> view == Options
    ensures ShownPanes(view).details <==> IsDetails(view)
    ensures !(ShownPanes(view).options && ShownPanes(view).details)
  {
    if ShownPanes(view).options {
      assert |view| < |DetailsPrefix|;
    }
  }

  /** For every view name the buttons pass, exactly one pane is shown. */
  lemma ExactlyOnePane(view: string)
    requires KnownView(view)
    ensures ShownPanes(view) == Panes(true, false, false)
         || ShownPanes(view) == Panes(false, true, false)
         || ShownPanes(view) == Panes(false, false, true)
  {
    PanesByView(view);
  }

  /** The details body for the selection: nothing exactly when no record is
      selected; otherwise the branch the view names, over that record. */
  lemma DetailsBody(view: string, selected: Option<int>)
    ensures RenderDetails(view, SelectedPinData(selected)).None? <==>
      !(selected.Some? && IsPinId(selected.value))
    ensures view == DetailsTask && SelectedPinData(selected).Some? ==>
      RenderDetails(view, SelectedPinData(selected)) == Some(TaskList(SelectedPinData(selected).value.tasks))
  {
    SelectedPinDataOf(selected);
  }

  // ---------------------------------------------------------------------
  // Invariants of runs

  predicate SnapsInRange(snaps: seq<int>) {
    forall i :: 0 <= i < |snaps| ==> 0 <= snaps[i] < |SnapPoints|
  }

  predicate ScrollsInRange(scrolls: seq<int>) {
    forall i :: 0 <= i < |scrolls| ==> 0 <= scrolls[i] < |DummyData|
  }

  /** What holds of every state the screen can reach. */
  predicate Consistent(s: State) {
    && KnownView(s.sheetView)
    && SnapsInRange(s.snaps)
    && ScrollsInRange(s.scrolls)
    && (s.selectedPinId.Some? ==> IsPinId(s.selectedPinId.value))
    && (s.sheetView != Card ==> s.selectedPinId.Some?)
  }

  lemma ApplyKeepsSnapsInRange(s: State, a: Action)
    requires SnapsInRange(s.snaps)
    ensures SnapsInRange(Apply(s, a).snaps)
    ensures KnownView(s.sheetView) ==> KnownView(Apply(s, a).sheetView)
  {
  }

  /** Every snap index the screen issues, after any actions at all, is one
      of the three snap points, and the view stays one of the five names. */
  lemma {:induction false} RunKeepsSnapsInRange(s: State, acts: seq<Action>)
    requires SnapsInRange(s.snaps) && KnownView(s.sheetView)
    ensures SnapsInRange(Run(s, acts).snaps)
    ensures KnownView(Run(s, acts).sheetView)
    decreases |acts|
  {
    if |acts| > 0 {
      ApplyKeepsSnapsInRange(s, acts[0]);
      RunKeepsSnapsInRange(Apply(s, acts[0]), acts[1..]);
    }
  }

  lemma ApplyKeepsConsistent(s: State, a: Action)
    requires Consistent(s) && Offered(s, a)
    ensures Consistent(Apply(s, a))
  {
    match a
    case MarkerPress(id) =>
    case ViewableChange(items) =>
      if |items| > 0 {
        var k :| 0 <= k < |DummyData| && DummyData[k] == items[0];
        assert IsPinId(DummyData[k].id);
      }
    case _ =>
  }

  lemma {:induction false} TraceKeepsConsistent(s: State, acts: seq<Action>)
    requires Consistent(s) && Trace(s, acts)
    ensures Consistent(Run(s, acts))
    decreases |acts|
  {
    if |acts| > 0 {
      ApplyKeepsConsistent(s, acts[0]);
      TraceKeepsConsistent(Apply(s, acts[0]), acts[1..]);
    }
  }

  /** In every reachable state the sheet's initial index is 1 exactly when a
      pin is selected and 0 otherwise; both are snap points, so the sheet is
      never closed. */
  lemma InitialSheetIndexReflectsSelection(acts: seq<Action>)
    requires Trace(Initial, acts)
    ensures InitialSheetIndex(Run(Initial, acts).selectedPinId) == 1 <==> Run(Initial, acts).selectedPinId.Some?
    ensures 0 <= InitialSheetIndex(Run(Initial, acts).selectedPinId) < |SnapPoints|
  {
    TraceKeepsConsistent(Initial, acts);
    DummyDataIdsDistinct();
  }

  /** The truthiness shortcut is observable only for an id 0, which no
      record of the dataset has. */
  lemma InitialSheetIndexOfZero()
    ensures InitialSheetIndex(Some(0)) == 0
    ensures !IsPinId(0)
  {
    DummyDataIdsDistinct();
  }

  /** In every reachable state off the card view a record is selected, so
      the options or details pane is shown with its back button. */
  lemma BackOfferedOffCard(acts: seq<Action>)
    requires Trace(Initial, acts)
    requires Run(Initial, acts).sheetView != Card
    ensures SelectedPinData(Run(Initial, acts).selectedPinId).Some?
    ensures Offered(Run(Initial, acts), BackPress)
  {
    TraceKeepsConsistent(Initial, acts);
    SelectedPinDataOf(Run(Initial, acts).selectedPinId);
  }

  /** Every reachable state shows exactly one of the three panes. */
  lemma ReachableShowsOnePane(acts: seq<Action>)
    requires Trace(Initial, acts)
    ensures var p := ShownPanes(Run(Initial, acts).sheetView);
      p == Panes(true, false, false) || p == Panes(false, true, false) || p == Panes(false, false, true)
  {
    TraceKeepsConsistent(Initial, acts);
    ExactlyOnePane(Run(Initial, acts).sheetView);
  }

  /** A marker pressed while options or details are shown issues no scroll:
      the card list is not mounted. When the list then mounts again it shows
      its first card, and its viewability callback replaces the pressed
      selection by the first record's id. */
  lemma PinPressOffCardThenRemount(s: State, k: int)
    requires 0 <= k < |DummyData|
    requires s.sheetView != Card
    ensures PinPress(s, DummyData[k].id).scrolls == s.scrolls
    ensures Offered(PinPress(s, DummyData[k].id), ViewableChange([DummyData[0]]))
    ensures ViewableItemsChanged(PinPress(s, DummyData[k].id), [DummyData[0]]).selectedPinId == Some(DummyData[0].id)
  {
  }
}
