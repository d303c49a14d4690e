/**
 * The state of the `OrderExportTemplate` component and its event handlers:
 * the active columns, the draft selection of the "Add export fields"
 * dialog, its search query, the id of the column being dragged and the
 * entered template name. Each handler replaces these fields as the
 * component's `set...` calls do.
 */
module ExportTemplate {
  import opened Wrappers
  import opened JsValue
  import opened FieldCatalogue
  import opened ColumnSet
  import opened Csv
  import opened CsvExport
  import opened Download

  class TemplateEditor {
    var columns: seq<Column>
    var draftSelectedPaths: seq<string>
    var query: string
    var activeId: Option<string>
    var storeName: Option<string>

    /** The columns are well formed, so their ids, which drag and drop go by, are distinct. */
    predicate Valid()
      reads this
    {
      WellFormed(columns)
    }

    /** The initial state: the default columns, an empty draft and query, nothing dragged, no name entered. */
    constructor ()
      ensures columns == DefaultFields && draftSelectedPaths == [] && query == ""
      ensures activeId == None && storeName == None
      ensures Valid()
    {
      DefaultFieldsWellFormed();
      columns := DefaultFields;
      draftSelectedPaths := [];
      query := "";
      activeId := None;
      storeName := None;
    }

    /** `availableFields`: the catalogue entries whose label matches the query, in catalogue order. */
    function AvailableFields(): (r: seq<FieldOption>)
      reads this
      ensures forall i :: 0 <= i < |r| ==> r[i] in Catalogue && IncludesSearch(r[i].title, query)
      ensures query == "" ==> r == Catalogue
    {
      SearchEmptyQuery(Catalogue);
      Search(Catalogue, query)
    }

    /** `activeColumn`: the first column whose id is the dragged id. */
    function ActiveColumn(): (r: Option<Column>)
      reads this
      ensures r.Some? ==> activeId.Some? && r.value in columns && r.value.id == activeId.value
      ensures r.Some? ==> exists k :: 0 <= k < |columns| && columns[k] == r.value
                                      && forall j :: 0 <= j < k ==> columns[j].id != activeId.value
      ensures r.None? && activeId.Some? ==> forall i :: 0 <= i < |columns| ==> columns[i].id != activeId.value
    {
      if activeId.None? then None
      else
        var k := IndexOfId(columns, activeId.value);
        if k == -1 then None else Some(columns[k])
    }

    /** `onDragStart`: remember the dragged column. */
    method DragStart(id: string)
      modifies this
      ensures activeId == Some(id)
      ensures columns == old(columns) && draftSelectedPaths == old(draftSelectedPaths)
      ensures query == old(query) && storeName == old(storeName)
    {
      activeId := Some(id);
    }

    /**
     * `handleDragEnd`: clear the dragged id; without a target or onto
     * itself leave the columns alone, otherwise move the dragged column to
     * the target's index. Both ids name columns whenever the drop acts.
     */
    method DragEnd(active: string, over: Option<string>)
      requires Moves(active, over) ==> IndexOfId(columns, active) >= 0 && IndexOfId(columns, over.value) >= 0
      modifies this
      ensures activeId == None
      ensures columns == Reorder(old(columns), active, over)
      ensures draftSelectedPaths == old(draftSelectedPaths) && query == old(query) && storeName == old(storeName)
      ensures old(Valid()) ==> Valid()
    {
      if Valid() {
        ReorderWellFormed(columns, active, over);
      }
      activeId := None;
      if over.None? || active == over.value {
        return;
      }
      var oldIndex := IndexOfId(columns, active);
      var newIndex := IndexOfId(columns, over.value);
      columns := ArrayMove(columns, oldIndex, newIndex);
    }

    /** `openAddFieldModal`: the draft becomes the current column paths. */
    method OpenAddFieldModal()
      modifies this
      ensures draftSelectedPaths == Paths(columns)
      ensures columns == old(columns) && query == old(query)
      ensures activeId == old(activeId) && storeName == old(storeName)
      ensures Valid() ==> NoRepeats(draftSelectedPaths)
    {
      if Valid() {
        WellFormedPathsNoRepeats(columns);
      }
      draftSelectedPaths := Paths(columns);
    }

    /** `onChangeSelected`: the dialog replaces the draft selection. */
    method SetDraft(paths: seq<string>)
      modifies this
      ensures draftSelectedPaths == paths
      ensures columns == old(columns) && query == old(query)
      ensures activeId == old(activeId) && storeName == old(storeName)
    {
      draftSelectedPaths := paths;
    }

    /** `onSearchChange`. */
    method SetQuery(q: string)
      modifies this
      ensures query == q
      ensures columns == old(columns) && draftSelectedPaths == old(draftSelectedPaths)
      ensures activeId == old(activeId) && storeName == old(storeName)
    {
      query := q;
    }

    /** `storeName.handleChange` on the template name field. */
    method SetStoreName(value: Option<string>)
      modifies this
      ensures storeName == value
      ensures columns == old(columns) && draftSelectedPaths == old(draftSelectedPaths)
      ensures query == old(query) && activeId == old(activeId)
    {
      storeName := value;
    }

    /**
     * `handleSaveFields`: rebuild the columns from the draft, reusing the
     * column with each path, creating catalogue columns for new paths and
     * dropping unknown ones; then clear the query.
     */
    method SaveFields()
      modifies this
      ensures columns == SaveColumns(old(columns), draftSelectedPaths)
      ensures Paths(columns) == KnownPaths(old(columns), draftSelectedPaths)
      ensures query == ""
      ensures draftSelectedPaths == old(draftSelectedPaths)
      ensures activeId == old(activeId) && storeName == old(storeName)
      ensures old(Valid()) && NoRepeats(draftSelectedPaths) ==> Valid()
    {
      SavePaths(columns, draftSelectedPaths);
      if Valid() && NoRepeats(draftSelectedPaths) {
        SaveWellFormed(columns, draftSelectedPaths);
      }
      var prevMap := PathMap(columns);
      columns := Rebuild(prevMap, draftSelectedPaths);
      query := "";
    }

    /** `handleCancelFields`: discard the draft edits and clear the query. */
    method CancelFields()
      modifies this
      ensures draftSelectedPaths == Paths(columns) && query == ""
      ensures columns == old(columns)
      ensures activeId == old(activeId) && storeName == old(storeName)
      ensures Valid() ==> NoRepeats(draftSelectedPaths)
    {
      if Valid() {
        WellFormedPathsNoRepeats(columns);
      }
      draftSelectedPaths := Paths(columns);
      query := "";
    }

    /**
     * `buildCSV` over the current columns. With at least one column the file
     * reads back as the column labels, then each order's cell texts.
     */
    function Csv(orders: seq<Value>, timestamp: string, stringify: Value -> string): (r: string)
      reads this
      ensures |columns| >= 1 ==> ParseCsv(r) == Some(Records(columns, orders, timestamp, stringify))
    {
      if |columns| >= 1 then
        BuildCsvRoundTrip(columns, orders, timestamp, stringify);
        BuildCsv(columns, orders, timestamp, stringify)
      else BuildCsv(columns, orders, timestamp, stringify)
    }

    /**
     * The download file name for the entered template name: for an ISO time
     * stamp it is the template name, a dash, the date and `.csv`.
     */
    function DownloadName(iso: string): (r: string)
      reads this
      ensures |iso| >= 10 ==>
        var n := |TemplateName(storeName)|;
        |r| == n + 15 && r[..n] == TemplateName(storeName) && r[n] == '-'
        && r[n + 1..n + 11] == iso[..10] && r[n + 11..] == ".csv"
    {
      if |iso| >= 10 then
        FilenameParts(storeName, iso);
        Filename(storeName, iso)
      else Filename(storeName, iso)
    }
  }
}
