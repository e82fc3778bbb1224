/**
 * One row of the admin panel's entity table
 * (system/admin-panel/src/components/entity/entityTable/EntityTableItem.tsx):
 * its checkbox state, its cells and its action buttons.
 */
module EntityTableItem {
  import opened Wrappers

  /** An entity's properties as they are rendered; a missing key is `undefined` or `null`. */
  type EntityData = map<string, string>

  /** The store's `selectedItems`: entity id to its mark. */
  type SelectedItems = map<string, bool>

  datatype TableColumn = TableColumn(property: string, width: Option<int>)

  datatype TableProps = TableProps(columns: seq<TableColumn>, entityBaseRoute: Option<string>)

  /** What the row shows. */
  datatype ItemView = ItemView(selected: bool, cells: seq<string>, editLink: Option<string>, showDelete: bool)

  /** The key `selectedItems[data.id]` reads: JavaScript turns a missing id into "undefined". */
  function IdKey(data: EntityData): string {
    if "id" in data then data["id"] else "undefined"
  }

  /** `props.data?.id` is truthy. */
  predicate HasId(data: EntityData) {
    "id" in data && data["id"] != ""
  }

  predicate IsMarked(selectedItems: SelectedItems, key: string) {
    key in selectedItems && selectedItems[key]
  }

  /**
   * The two conditionals of EntityTableItem.tsx:33-35, one after the other:
   * `s0` is the initial `false`, `s1` the value after the first `if`.
   */
  function IsSelected(allSelected: bool, selectedItems: SelectedItems, data: EntityData): (selected: bool)
    ensures selected <==> allSelected != IsMarked(selectedItems, IdKey(data))
  {
    var s0 := false;
    var s1 := if allSelected && !IsMarked(selectedItems, IdKey(data)) then true else s0;
    if !allSelected && IsMarked(selectedItems, IdKey(data)) then true else s1
  }

  /** Without "select all", a row is selected exactly when it is marked. */
  lemma SelectionIsMembership(selectedItems: SelectedItems, data: EntityData)
    ensures IsSelected(false, selectedItems, data) == IsMarked(selectedItems, IdKey(data))
  {
  }

  /** With "select all", marking one id deselects that row and no other. */
  lemma MarkExcludesOnlyThatRow(selectedItems: SelectedItems, data: EntityData, other: EntityData)
    requires IdKey(other) != IdKey(data)
    ensures !IsSelected(true, selectedItems[IdKey(data) := true], data)
    ensures IsSelected(true, selectedItems[IdKey(data) := true], other) == IsSelected(true, selectedItems, other)
  {
  }

  /** `data?.[prop.property] ?? ''`. */
  function CellText(data: EntityData, property: string): string {
    if property in data then data[property] else ""
  }

  /** One cell per column, in column order. */
  function Cells(columns: seq<TableColumn>, data: EntityData): (cells: seq<string>)
    ensures |cells| == |columns|
    ensures forall i :: 0 <= i < |columns| ==> (columns[i].property in data ==> cells[i] == data[columns[i].property])
    ensures forall i :: 0 <= i < |columns| ==> (columns[i].property !in data ==> cells[i] == "")
  {
    if columns == [] then [] else [CellText(data, columns[0].property)] + Cells(columns[1..], data)
  }

  /** The edit link: shown only with a base route and an id, and pointing at `<base>/<id>`. */
  function EditLink(props: TableProps, data: EntityData): (link: Option<string>)
    ensures link.Some? <==> props.entityBaseRoute.Some? && props.entityBaseRoute.value != "" && HasId(data)
    ensures link.Some? ==> link.value == props.entityBaseRoute.value + "/" + data["id"]
  {
    if props.entityBaseRoute.Some? && props.entityBaseRoute.value != "" && HasId(data)
    then Some(props.entityBaseRoute.value + "/" + data["id"])
    else None
  }

  /** The whole row; it fails when there is no entity to show. */
  function RenderItem(data: Option<EntityData>, props: TableProps, selectedItems: SelectedItems, allSelected: bool)
    : (r: Result<ItemView, ScriptError>)
    ensures r.Failure? <==> data.None?
    ensures r.Success? ==> r.value.selected == (allSelected != IsMarked(selectedItems, IdKey(data.value)))
    ensures r.Success? ==> |r.value.cells| == |props.columns|
    ensures r.Success? ==> forall i :: 0 <= i < |props.columns| ==>
      r.value.cells[i] == if props.columns[i].property in data.value then data.value[props.columns[i].property] else ""
    ensures r.Success? ==>
      (r.value.editLink.Some? <==> props.entityBaseRoute.Some? && props.entityBaseRoute.value != "" && HasId(data.value))
    ensures r.Success? && r.value.editLink.Some? ==> r.value.editLink.value == props.entityBaseRoute.value + "/" + data.value["id"]
    ensures r.Success? ==> (r.value.showDelete <==> HasId(data.value))
    ensures r.Success? && r.value.editLink.Some? ==> r.value.showDelete
  {
    match data
    case None => Failure(TypeError)
    case Some(d) =>
      Success(ItemView(IsSelected(allSelected, selectedItems, d), Cells(props.columns, d), EditLink(props, d), HasId(d)))
  }
}
