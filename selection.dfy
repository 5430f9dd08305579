/**
 * The page's `selectedObjectData`: what the info panel shows for the id the
 * scene reported as selected.
 */
module Selection {
  import opened Common
  import opened Bodies
  import opened SolarSystemData

  const BeltId: string := "asteroid_belt"
  const BeltName: string := "Asteroid Belt"

  /** The panel's record: the synthetic belt region, or a record of the table. */
  datatype SelectedData =
    | RegionRecord(id: string, name: string)
    | ObjectRecord(body: Body)
  {
    function Id(): string {
      match this
      case RegionRecord(id, _) => id
      case ObjectRecord(b) => b.id
    }
  }

  /**
   * No selection (`null`, or the empty id, which is falsy) shows nothing;
   * the belt's id shows the region record; any other id shows the first
   * table record with that id, or nothing.
   */
  function SelectedObjectData(selected: Option<string>, table: seq<Body>): (r: Option<SelectedData>)
    ensures selected.None? || selected == Some("") ==> r.None?
    ensures selected == Some(BeltId) ==> r == Some(RegionRecord(BeltId, BeltName))
    ensures r.Some? ==> selected.Some? && r.value.Id() == selected.value
    ensures r.Some? && r.value.ObjectRecord? ==> r.value.body in table
  {
    match selected
    case None => None
    case Some(id) =>
      if id == "" then None
      else if id == BeltId then Some(RegionRecord(BeltId, BeltName))
      else match Find(table, id)
        case Some(b) => Some(ObjectRecord(b))
        case None => None
  }

  /** Any other non-empty id is looked up: the first record of the table with that id, if there is one. */
  lemma LookupFindsFirst(id: string, table: seq<Body>)
    requires id != "" && id != BeltId
    ensures SelectedObjectData(Some(id), table).Some? <==> exists b :: b in table && b.id == id
    ensures forall k :: 0 <= k < |table| && table[k].id == id && (forall j :: 0 <= j < k ==> table[j].id != id) ==>
              SelectedObjectData(Some(id), table) == Some(ObjectRecord(table[k]))
  {
    forall k | 0 <= k < |table| && table[k].id == id && (forall j :: 0 <= j < k ==> table[j].id != id)
      ensures SelectedObjectData(Some(id), table) == Some(ObjectRecord(table[k]))
    {
      var r := FindIndex(table, id);
      assert r.Some?;
      assert !(r.value < k) && !(k < r.value);
    }
  }

  /** On the shipped table, selecting any entry's id shows exactly that entry. */
  lemma TableSelectionShowsEntry(k: nat)
    requires k < |Table|
    ensures SelectedObjectData(Some(Table[k].id), Table) == Some(ObjectRecord(Table[k]))
  {
    IdsDistinct();
    var ids := Ids(Table);
    assert forall j :: 0 <= j < k ==> Table[j].id != Table[k].id by {
      assert forall j :: 0 <= j < k ==> ids[j] != ids[k];
    }
    LookupFindsFirst(Table[k].id, Table);
  }
}
