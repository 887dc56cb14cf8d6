/** The static mock dataset of cabinets shown on the map, and the two lookups
    the screen runs over it: the selected record (`find`) and the position of
    a record in the card list (`findIndex`). Coordinates are left out. */
module PinData {

  datatype Option<T> = None | Some(value: T)

  datatype Address = Address(street: string, zip: string, city: string)

  /** One entry of a cabinet's port assignment list ("belegung"). */
  datatype Port = Port(id: int, port: string, medium: string, status: string)

  /** A cabinet record; `lat`/`lon` of the source are not modelled. */
  datatype Pin = Pin(
    id: int,
    title: string,
    status: string,
    date: string,
    address: Address,
    belegung: seq<Port>,
    tasks: seq<string>)

  /** The three records of the source's `DUMMY_DATA`, in order. */
  const DummyData: seq<Pin> := [
    Pin(1, "KVz 8203 Berlin", "Aktiv", "24.07.2025",
        Address("Alexanderplatz 1", "10178", "Berlin"),
        [Port(1, "01", "Glasfaser", "Belegt"),
         Port(2, "02", "Kupfer", "Frei"),
         Port(3, "03", "Glasfaser", "Defekt")],
        ["Gehäuse reinigen", "Filter wechseln"]),
    Pin(2, "KVz 4099 München", "Wartung", "01.08.2025",
        Address("Marienplatz 2", "80331", "München"),
        [],
        ["Austausch"]),
    Pin(3, "KVz 1022 Hamburg", "Aktiv", "15.08.2025",
        Address("Reeperbahn 5", "20359", "Hamburg"),
        [Port(1, "01", "Kupfer", "Belegt")],
        ["Prüfung"])
  ]

  /** No two records of `data` share an id. */
  predicate DistinctIds(data: seq<Pin>) {
    forall i, j :: 0 <= i < j < |data| ==> data[i].id != data[j].id
  }

  /** `id` is the id of some record of the dataset, i.e. of some map marker. */
  predicate IsPinId(id: int) {
    exists i :: 0 <= i < |DummyData| && DummyData[i].id == id
  }

  /** `data.findIndex(p => p.id === id)`: the position of the first record
      with that id, or -1 when there is none. */
  function FindIndex(data: seq<Pin>, id: int): (r: int)
    ensures -1 <= r < |data|
    ensures r == -1 <==> forall i :: 0 <= i < |data| ==> data[i].id != id
    ensures r != -1 ==> data[r].id == id && forall j :: 0 <= j < r ==> data[j].id != id
  {
    if |data| == 0 then -1
    else if data[0].id == id then 0
    else
      var k := FindIndex(data[1..], id);
      if k == -1 then -1 else k + 1
  }

  /** `data.find(p => p.id === id)`: the first record with that id, or none. */
  function Find(data: seq<Pin>, id: int): (r: Option<Pin>)
    ensures r.None? <==> forall i :: 0 <= i < |data| ==> data[i].id != id
    ensures r.Some? ==> r.value in data && r.value.id == id
  {
    if |data| == 0 then None
    else if data[0].id == id then Some(data[0])
    else Find(data[1..], id)
  }

  /** `find` returns exactly the record at the position `findIndex` reports:
      the first match, not just any match. */
  lemma {:induction false} FindIsAtFindIndex(data: seq<Pin>, id: int)
    ensures Find(data, id) == if FindIndex(data, id) == -1 then None else Some(data[FindIndex(data, id)])
  {
    if |data| > 0 && data[0].id != id {
      FindIsAtFindIndex(data[1..], id);
    }
  }

  /** With distinct ids, looking up the id of the k-th record finds that
      record at position k. */
  lemma LookupOfMember(data: seq<Pin>, k: int)
    requires DistinctIds(data)
    requires 0 <= k < |data|
    ensures FindIndex(data, data[k].id) == k
    ensures Find(data, data[k].id) == Some(data[k])
  {
    FindIsAtFindIndex(data, data[k].id);
  }

  lemma DummyDataIdsDistinct()
    ensures DistinctIds(DummyData)
    ensures forall i :: 0 <= i < |DummyData| ==> DummyData[i].id != 0
  {
  }

  /** `selectedPinData`: the record whose id is the selection; none when
      nothing is selected (`find` with `null` matches no record). */
  function SelectedPinData(selected: Option<int>): (r: Option<Pin>) {
    match selected
    case None => None
    case Some(id) => Find(DummyData, id)
  }

  /** The marker of `pin` is drawn highlighted. */
  predicate MarkerActive(selected: Option<int>, pin: Pin) {
    selected == Some(pin.id)
  }

  /** The selected record is found exactly for the ids of the dataset, and it
      is the record with that id. */
  lemma SelectedPinDataOf(selected: Option<int>)
    ensures SelectedPinData(selected).Some? <==> selected.Some? && IsPinId(selected.value)
    ensures SelectedPinData(selected).Some? ==> SelectedPinData(selected).value.id == selected.value
  {
  }

  lemma SelectedPinDataOfRecord(k: int)
    requires 0 <= k < |DummyData|
    ensures SelectedPinData(Some(DummyData[k].id)) == Some(DummyData[k])
  {
    DummyDataIdsDistinct();
    LookupOfMember(DummyData, k);
  }

  /** At most one marker is highlighted, and one is exactly when the
      selection finds a record, which is then that marker's record. */
  lemma AtMostOneMarkerActive(selected: Option<int>, i: int, j: int)
    requires 0 <= i < |DummyData| && 0 <= j < |DummyData|
    requires MarkerActive(selected, DummyData[i]) && MarkerActive(selected, DummyData[j])
    ensures i == j
    ensures SelectedPinData(selected) == Some(DummyData[i])
  {
    DummyDataIdsDistinct();
    SelectedPinDataOfRecord(i);
  }

  lemma SomeMarkerActiveIffSelectedData(selected: Option<int>)
    ensures (exists i :: 0 <= i < |DummyData| && MarkerActive(selected, DummyData[i]))
            <==> SelectedPinData(selected).Some?
  {
    if SelectedPinData(selected).Some? {
      var i := FindIndex(DummyData, selected.value);
      FindIsAtFindIndex(DummyData, selected.value);
      assert MarkerActive(selected, DummyData[i]);
    }
  }
}
