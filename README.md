# Bottom-sheet navigation of the field-technician map screen

The hand-rolled navigation screen shows equipment cabinets as markers on a map.
A three-point bottom sheet over the map has three panes:

- a horizontal list of cabinet cards,
- an options pane,
- a details pane (header data, port assignment list, or task list).

The state behind this is small:

- the selected cabinet id (`selectedPinId`, nullable);
- the active view name (`sheetView`; `card`, `options` or a name starting with `details_`);
- the commands sent to the sheet (`snapToIndex`) and to the card list (`scrollToIndex`).

This project models that state machine and proves its navigation rules.

- `pindata.dfy`, module `PinData`: the cabinet records and the constant three-record `DUMMY_DATA` table. It also has the two lookups over the table (`find` as `Find`, `findIndex` as `FindIndex`), the selected record (`SelectedPinData`) and the marker-highlight test (`MarkerActive`).
- `sheet.dfy`, module `Sheet`: the state as a value (`State`) and every transition as a function.
  - The handlers: `PinPress`, `NavigateTo` (with `navigateTo`'s default snap index 2), `Back` and `ViewableItemsChanged`.
  - The pane dispatch (`ShownPanes`), the details body (`RenderDetails`) and the sheet's initial index (`InitialSheetIndex`).
  - The screen's buttons and events as `Action`s (`Apply`), with `Offered` saying when each one is on screen.
  - Runs of actions (`Run`, `Trace`). A consistency invariant (`Consistent`) is proved to hold all along any trace.
- `app.dfy`, module `Screen`: the component as a class `App`. Its fields are the state hooks and the two command logs. Its methods are the handlers and the button call sites. Each method updates the fields step by step, as the source does, and its `ensures` ties the new state to the corresponding `Sheet` function of the old state.

Snap and scroll commands are recorded in the `snaps` and `scrolls` sequences instead of being performed.

- The sheet ref is always mounted, so every `snapToIndex` is recorded.
- The card list ref is set only while the card list is mounted. The list is mounted when the view of the current render is `card`. So `handlePinPress` issues `scrollToIndex` only when the id is in the table AND the press happens while the card view is shown.

Points of the code the model keeps as written:

- Not every non-card view snaps to the largest index. The edit icon (line 159) goes to options with 1. The options entries, the task-list shortcut and back-to-options use 2.
- The selection changes on a marker press and also in the card list's viewability callback (116-121).
- The sheet's `index` prop is `selectedPinId ? 1 : 0`. By JavaScript truthiness the id 0 counts as no selection. No record has id 0, so on reachable states the index is 1 exactly when a pin is selected (`Sheet.InitialSheetIndexReflectsSelection`).
- The edit icon sits on a card of the list. The list reports the card it shows as viewable once it is laid out. So `Offered` lets the icon be pressed only once some card's id is selected. Then every reachable state off the card view has a selected record, and its pane has a back button (`Sheet.BackOfferedOffCard`).
- A marker pressed while options or details are shown issues no scroll, because the card list is not mounted (line 111). When the list mounts again it shows its first card, and its viewability callback can replace the pressed selection by the first record's id (`Sheet.PinPressOffCardThenRemount`).

## Model

| member | source | states |
|---|---|---|
| PinData.FindIndex | CustomNavigationWithoutTypescript.tsx:110 | result is -1 iff no record has the id, else the position of the FIRST record with that id |
| PinData.Find | CustomNavigationWithoutTypescript.tsx:101 | none iff no record has the id, else a record of the table with that id |
| PinData.FindIsAtFindIndex | CustomNavigationWithoutTypescript.tsx:101-110 | `find` returns exactly the record at the position `findIndex` reports (the first match), none when it reports -1 |
| PinData.LookupOfMember | CustomNavigationWithoutTypescript.tsx:101-110 | with distinct ids, looking up the id of the k-th record gives position k and that record |
| PinData.DummyDataIdsDistinct | CustomNavigationWithoutTypescript.tsx:43-81 | the ids of the three records are pairwise distinct and non-zero |
| PinData.SelectedPinDataOf | CustomNavigationWithoutTypescript.tsx:101 | the selected record exists iff the selection is an id of the table, and then carries that id; null selects nothing |
| PinData.SelectedPinDataOfRecord | CustomNavigationWithoutTypescript.tsx:101 | selecting the id of the k-th record yields the k-th record |
| PinData.AtMostOneMarkerActive | CustomNavigationWithoutTypescript.tsx:322-331 | two highlighted markers are the same marker, and its record is the selected record |
| PinData.SomeMarkerActiveIffSelectedData | CustomNavigationWithoutTypescript.tsx:328 | some marker is highlighted iff the selection finds a record |
| PinData.DummyData | CustomNavigationWithoutTypescript.tsx:43-81 | the three records; properties in `DummyDataIdsDistinct` (ids 1, 2, 3 distinct, non-zero) |
| PinData.SelectedPinData | CustomNavigationWithoutTypescript.tsx:101 | `selectedPinData`; properties in `SelectedPinDataOf`, `SelectedPinDataOfRecord` |
| PinData.MarkerActive | CustomNavigationWithoutTypescript.tsx:328 | the highlight test; properties in `AtMostOneMarkerActive`, `SomeMarkerActiveIffSelectedData` |
| Sheet.PinPress | CustomNavigationWithoutTypescript.tsx:105-114 | `handlePinPress`; properties in `PinPressResets`, `PinPressSelectsRecord`, `PinPressUnknown`, `PinPressIdempotent`, `PinPressOffCardThenRemount` |
| Sheet.ViewableItemsChanged | CustomNavigationWithoutTypescript.tsx:116-121 | `onViewableItemsChanged`; properties in `ViewableItemsChangedSelects` |
| Sheet.NavigateTo | CustomNavigationWithoutTypescript.tsx:133-136 | `navigateTo` with default 2; properties in `NavigateToChangesOnlyView` |
| Sheet.Back | CustomNavigationWithoutTypescript.tsx:138-145 | `handleBack`; properties in `BackFromDetails`, `BackFromOptions`, `BackElsewhereIsNoop`, `RepeatedBackFromCard`, `TwoBacksFromDetails` |
| Sheet.Apply | CustomNavigationWithoutTypescript.tsx:157-326 | each button or event's handler call (159, 190, 202, 207, 212, 266, 292, 326, 389); properties in `CallSiteSnaps`, `ApplyKeepsSnapsInRange` |
| Sheet.Offered | CustomNavigationWithoutTypescript.tsx:149-395 | which buttons a render shows: markers always (322-331), the edit icon on the card list once a card is selected (159, 389), options entries in options (199-213), back in options (190) and in a details pane with a record (223, 292), the shortcut in the task list with a record (264-266); properties in `ApplyKeepsConsistent`, `TraceKeepsConsistent`, `BackOfferedOffCard` |
| Sheet.ShownPanes | CustomNavigationWithoutTypescript.tsx:379-395 | the pane dispatch; properties in `PanesByView`, `ExactlyOnePane`, `ReachableShowsOnePane` |
| Sheet.RenderDetails | CustomNavigationWithoutTypescript.tsx:218-302 | `renderDetails`; properties in `DetailsBody`, `PinPressUnknown` |
| Sheet.InitialSheetIndex | CustomNavigationWithoutTypescript.tsx:374 | the `index` prop; properties in `InitialSheetIndexReflectsSelection`, `InitialSheetIndexOfZero` |
| Sheet.Initial | CustomNavigationWithoutTypescript.tsx:87-90 | null selection, card view, no commands; properties in `InitialSheetIndexReflectsSelection`, `BackOfferedOffCard`, `ReachableShowsOnePane` |
| Sheet.ListMounted | CustomNavigationWithoutTypescript.tsx:111 | the card-list ref is set iff the card view is rendered (ref attached at 381 inside the `card` branch at 379); properties in `PinPressResets`, `PinPressSelectsRecord`, `PinPressOffCardThenRemount` |
| Sheet.StartsWith | CustomNavigationWithoutTypescript.tsx:140 | JavaScript `startsWith`, used for the `details_` prefix at 140 and 395; properties in `PanesByView`, `BackFromDetails` |
| Sheet.DetailView | CustomNavigationWithoutTypescript.tsx:199-213 | each options entry names a `details_` view that is one of the five known views |
| Sheet.PinPressResets | CustomNavigationWithoutTypescript.tsx:105-114 | pin press selects the id, resets the view to card, appends exactly one snap to 1, and scrolls only when the id is a record's and the list is mounted, to that record's position |
| Sheet.PinPressSelectsRecord | CustomNavigationWithoutTypescript.tsx:105-114 | pressing the k-th marker from any view, details included, selects the k-th record, shows the card view and scrolls to k when the list is mounted |
| Sheet.PinPressUnknown | CustomNavigationWithoutTypescript.tsx:105-114 | an unknown id finds no record, renders no details body and issues no scroll (no failure) |
| Sheet.PinPressIdempotent | CustomNavigationWithoutTypescript.tsx:105-114 | pressing the same pin twice leaves the same selection and view, with one more snap to 1 and, for a known id, one more scroll to the same index |
| Sheet.NavigateToChangesOnlyView | CustomNavigationWithoutTypescript.tsx:133-136 | navigateTo sets the view, appends exactly that snap, keeps selection and scrolls; the default snap index is 2 |
| Sheet.CallSiteSnaps | CustomNavigationWithoutTypescript.tsx:157-266 | the edit icon (159) shows options and appends snap 1; the options entries (202, 207, 212) show their details view and the shortcut (266) `details_head`, each appending 2; none changes selection or scrolls |
| Sheet.BackFromDetails | CustomNavigationWithoutTypescript.tsx:138-141 | back from any `details_` view goes to options, snaps to 2, nothing else changes |
| Sheet.BackFromOptions | CustomNavigationWithoutTypescript.tsx:142-143 | back from options goes to card, snaps to 1, nothing else changes |
| Sheet.BackElsewhereIsNoop | CustomNavigationWithoutTypescript.tsx:138-145 | back from any other view (card included) changes nothing and issues no snap |
| Sheet.RepeatedBackFromCard | CustomNavigationWithoutTypescript.tsx:138-145 | any number of back presses from card leave the state identical |
| Sheet.TwoBacksFromDetails | CustomNavigationWithoutTypescript.tsx:138-145 | from any details view one back reaches options and two reach card, with snaps 2 then 1, keeping the selection |
| Sheet.ShortcutThenBack | CustomNavigationWithoutTypescript.tsx:264-266 | after the task-list shortcut to header data, back goes to options, not to the task list, and a second back to card |
| Sheet.OptionsSnapDependsOnRoute | CustomNavigationWithoutTypescript.tsx:133-159 | entering options from card snaps to 1, returning to options from a details view snaps to 2 |
| Sheet.OptionsThenBack | CustomNavigationWithoutTypescript.tsx:138-159 | card → options → back restores the exact state, with snaps 1, 1 appended |
| Sheet.ViewableItemsChangedSelects | CustomNavigationWithoutTypescript.tsx:116-121 | empty list: no change; otherwise selection := first item's id; never changes view, snaps or scrolls; applying it twice equals once |
| Sheet.PanesByView | CustomNavigationWithoutTypescript.tsx:379-395 | card list iff view is card, options iff options, details iff the view starts with `details_`; options and details never both |
| Sheet.ExactlyOnePane | CustomNavigationWithoutTypescript.tsx:379-395 | for each of the five view names exactly one pane is shown |
| Sheet.DetailsBody | CustomNavigationWithoutTypescript.tsx:218-302 | the details pane renders nothing iff no record is selected; the task view shows the selected record's tasks |
| Sheet.ApplyKeepsSnapsInRange | CustomNavigationWithoutTypescript.tsx:98-159 | every action appends only snap indices within the three snap points and keeps the view among the five names |
| Sheet.RunKeepsSnapsInRange | CustomNavigationWithoutTypescript.tsx:98-145 | after any sequence of actions every snap index issued lies in 0..2 and the view is one of the five names |
| Sheet.ApplyKeepsConsistent | CustomNavigationWithoutTypescript.tsx:105-121 | an offered action keeps snaps and scrolls in range, the view known and the selection an id of the table |
| Sheet.TraceKeepsConsistent | CustomNavigationWithoutTypescript.tsx:105-145 | the consistency invariant holds after every trace of offered actions |
| Sheet.InitialSheetIndexReflectsSelection | CustomNavigationWithoutTypescript.tsx:372-376 | in every reachable state the sheet index is 1 iff a pin is selected, 0 otherwise, and always a snap point (never closed) |
| Sheet.InitialSheetIndexOfZero | CustomNavigationWithoutTypescript.tsx:374 | the truthiness test maps the id 0 to index 0, and no record has id 0 |
| Sheet.BackOfferedOffCard | CustomNavigationWithoutTypescript.tsx:218-294 | in every reachable state off the card view a record is selected and a back button is on screen |
| Sheet.ReachableShowsOnePane | CustomNavigationWithoutTypescript.tsx:379-395 | every reachable state shows exactly one of the three panes |
| Sheet.PinPressOffCardThenRemount | CustomNavigationWithoutTypescript.tsx:105-121 | a marker press off the card view issues no scroll; the remounted list's callback for its first card then selects the first record's id |
| Screen.App.constructor | CustomNavigationWithoutTypescript.tsx:87-90 | no selection, card view, no commands |
| Screen.App.SnapToIndex | CustomNavigationWithoutTypescript.tsx:108 | appends one snap command and changes nothing else |
| Screen.App.HandlePinPress | CustomNavigationWithoutTypescript.tsx:105-114 | new state is `PinPress` of the old: selection, card view, one snap to 1, scroll to the record's position iff known and list mounted |
| Screen.App.OnViewableItemsChanged | CustomNavigationWithoutTypescript.tsx:116-121 | new state is `ViewableItemsChanged` of the old; only the selection may change |
| Screen.App.NavigateTo | CustomNavigationWithoutTypescript.tsx:133-136 | sets the view, appends the snap (default 2), selection and scrolls unchanged |
| Screen.App.HandleBack | CustomNavigationWithoutTypescript.tsx:138-145 | new state is `Back` of the old: details → options/2, options → card/1, otherwise unchanged |
| Screen.App.OnEditPress | CustomNavigationWithoutTypescript.tsx:157-159 | goes to options with snap 1 |
| Screen.App.OnOptionPress | CustomNavigationWithoutTypescript.tsx:199-213 | goes to the entry's details view with snap 2 |
| Screen.App.OnShortcutPress | CustomNavigationWithoutTypescript.tsx:264-266 | goes to the header details view with snap 2 |
| Screen.App.SheetIndex | CustomNavigationWithoutTypescript.tsx:374 | the index prop is always a snap point, and 1 iff a pin is selected in a consistent state |
| Screen.App.CurrentPanes | CustomNavigationWithoutTypescript.tsx:379-395 | never options and details together, and exactly one pane in a consistent state |

## Left out

- The map itself is not modelled: markers' coordinates (floating point), the provider, the initial region, and the map-type toggle with its expandable options box. These are rendering by an external library.
- `lat`/`lon` of the records are dropped, including where the header-data pane displays them. The other record fields are kept.
- Presentation is not modelled. That covers the pane titles (226, 238, 254), the options context label (196), the option labels, colours and styles. The records' own `title` field is kept as data. The buttons that do nothing are not modelled either: navigate, the pin icon, zoom, settings, location and "add task". They are presentation only.
- Bottom-sheet behaviour beyond `snapToIndex` is not modelled: heights, animation, and the user dragging the sheet to another index. The same goes for the card list's paging and its 50 % viewability threshold. `scrollToIndex` is recorded with its index only; its `animated` flag is not kept.
- The card list's viewability callback is not forced to fire when the list mounts. A trace may leave it out, and may leave out the reset to the first card after a remount. The model instead requires a selected card before the edit icon can be pressed.
- React's render and hook semantics are not modelled (`useState` batching, `useCallback`, `useMemo`). Handlers are sequential updates of one state. The list-ref check reads the view of the render in which the handler runs.
- ReactNavigationWithBottomsheet.tsx is not part of this model. Its history stack belongs to a navigation library whose push/pop behaviour is not visible.
