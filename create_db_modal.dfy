/**
 * The import form of renderer/components/settings/CreateDBModal.tsx: the record the
 * user fills in, the "name already used" check and the condition that enables the
 * Create button.
 */
module CreateDbModal {
  import opened Wrappers

  /** The File object chosen in the file input; its contents are not modelled. */
  datatype FileRef = FileRef(fileName: string)

  /** `DataSetType`. The row and column bounds are 1-based spreadsheet positions. */
  datatype DataSet = DataSet(
    name: string,
    file: Option<FileRef>,
    rowFrom: int,
    rowTo: int,
    columnFrom: int,
    columnTo: int,
    sheetName: string)

  /** `DBType`, one entry of the database list. */
  datatype DbInfo = DbInfo(name: string, size: string)

  /** The form's initial contents. */
  function DefaultDataSet(): (d: DataSet)
    ensures d.name == "" && d.file.None? && d.sheetName == ""
    ensures d.rowFrom == d.rowTo == d.columnFrom == d.columnTo == 1
  {
    DataSet("", None, 1, 1, 1, 1, "")
  }

  /** `databases.findIndex(db => db.name === name)`: the first match, or -1. */
  function FindIndexByName(databases: seq<DbInfo>, name: string): (i: int)
    ensures -1 <= i < |databases|
    ensures i >= 0 ==> databases[i].name == name && forall k :: 0 <= k < i ==> databases[k].name != name
    ensures i == -1 ==> forall k :: 0 <= k < |databases| ==> databases[k].name != name
  {
    if databases == [] then -1
    else if databases[0].name == name then 0
    else
      var rest := FindIndexByName(databases[1..], name);
      if rest == -1 then -1 else rest + 1
  }

  /** `isNameExist`. */
  function IsNameExist(databases: seq<DbInfo>, dataSet: DataSet): (b: bool)
    ensures b <==> exists k :: 0 <= k < |databases| && databases[k].name == dataSet.name
  {
    FindIndexByName(databases, dataSet.name) >= 0
  }

  /**
   * `isFormValid`, the truthiness of the `&&` chain: a non-empty name not yet used,
   * a chosen file, positive ordered row and column bounds and a non-empty sheet name.
   */
  function IsFormValid(databases: seq<DbInfo>, dataSet: DataSet): (b: bool)
    ensures b ==> dataSet.name != "" && !IsNameExist(databases, dataSet)
    ensures b ==> 1 <= dataSet.columnFrom <= dataSet.columnTo
    ensures b ==> 1 <= dataSet.rowFrom <= dataSet.rowTo
    ensures b ==> dataSet.file.Some? && dataSet.sheetName != ""
    ensures b <== dataSet.name != "" && !IsNameExist(databases, dataSet) && dataSet.file.Some?
                  && 1 <= dataSet.columnFrom <= dataSet.columnTo
                  && 1 <= dataSet.rowFrom <= dataSet.rowTo && dataSet.sheetName != ""
  {
    && dataSet.name != ""
    && !IsNameExist(databases, dataSet)
    && dataSet.file.Some?
    && dataSet.columnFrom >= 1
    && dataSet.columnTo >= 1
    && dataSet.columnTo >= dataSet.columnFrom
    && dataSet.rowFrom >= 1
    && dataSet.rowTo >= 1
    && dataSet.rowTo >= dataSet.rowFrom
    && dataSet.sheetName != ""
  }

  /** The form as first shown can never be submitted, whatever databases exist. */
  lemma DefaultDataSetInvalid(databases: seq<DbInfo>)
    ensures !IsFormValid(databases, DefaultDataSet())
  {
  }
}
