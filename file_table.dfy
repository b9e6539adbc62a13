/**
 * The file table: how the backend's list of source nodes becomes table rows, the
 * state the table keeps while fetching, and the small per-column rules (status
 * filter, row identity, page size, upload-progress cell, name tooltip).
 */
module FileTable {
  import opened Types

  /** A file record as the backend lists it; every optional field may be null or missing. */
  datatype SourceNode = SourceNode(
    fileName: Nullable<string>,
    fileSize: Nullable<int>,
    fileType: Nullable<string>,
    nodeCount: Nullable<int>,
    processingTime: Nullable<string>,
    relationshipCount: Nullable<int>,
    status: string,
    fileSource: Nullable<string>,
    url: Nullable<string>,
    awsAccessKeyId: Nullable<string>,
    model: Nullable<string>,
    gcsBucket: Nullable<string>,
    gcsBucketFolder: Nullable<string>,
    errorMessage: Nullable<string>,
    uploadprogress: Nullable<int>
  )

  // ---------------------------------------------------------------------------
  // One source node to one row
  // ---------------------------------------------------------------------------

  /** Only items with a defined, non-empty file name become rows. */
  predicate HasName(item: SourceNode)
  {
    item.fileName.Val? && |item.fileName.value| > 0
  }

  /** Upper-casing, for the ASCII letters. */
  function ToUpper(s: string): string
  {
    seq(|s|, i requires 0 <= i < |s| => if 'a' <= s[i] <= 'z' then (s[i] as int - 32) as char else s[i])
  }

  /** The status column's conditional chain, test by test. `storedKey` is the access key kept in
      the browser's local storage: its text, or `Null` when none is stored. Local storage never
      yields `Undefined`, so callers pass only `Val` or `Null`; it is compared with `===`. */
  function DisplayedStatus(item: SourceNode, storedKey: Nullable<string>): string
  {
    if item.fileSource == Val("s3 bucket") && storedKey == item.awsAccessKeyId then item.status
    else if item.fileSource == Val("local file") then item.status
    else if item.status == "Completed" || item.status == "Failed" then item.status
    else if item.fileSource == Val("Wikipedia") || item.fileSource == Val("youtube")
      || item.fileSource == Val("gcs bucket") then item.status
    else "N/A"
  }

  /** When the real status is shown: any of four independent reasons. */
  predicate StatusVisible(item: SourceNode, storedKey: Nullable<string>)
  {
    || item.fileSource == Val("local file")
    || (item.fileSource == Val("s3 bucket") && storedKey == item.awsAccessKeyId)
    || item.status in {"Completed", "Failed"}
    || item.fileSource in {Val("Wikipedia"), Val("youtube"), Val("gcs bucket")}
  }

  /** The source link: the placeholders 'None' and '' become ''. */
  function SourceUrl(url: Nullable<string>): Nullable<string>
  {
    if url != Val("None") && url != Val("") then url else Val("")
  }

  /** The row built for one named item. Missing numbers default to 0 and missing texts to
      'None'; the model defaults to the one chosen in the application. */
  function ToRow(item: SourceNode, storedKey: Nullable<string>, model: string): (r: CustomFile)
    requires HasName(item)
    ensures r.name == item.fileName.value && |r.name| > 0
    ensures r.size == (if item.fileSize.Val? then item.fileSize.value else 0)
    ensures r.fileType == (if item.fileType.Val? then ToUpper(item.fileType.value) else "None")
    ensures r.nodesCount == (if item.nodeCount.Val? then item.nodeCount.value else 0)
    ensures r.processing == (if item.processingTime.Val? then item.processingTime.value else "None")
    ensures r.relationshipCount == (if item.relationshipCount.Val? then item.relationshipCount.value else 0)
    ensures r.status == (if StatusVisible(item, storedKey) then item.status else "N/A")
    ensures r.model == (if item.model.Val? then item.model.value else model)
    ensures r.sourceUrl == (if item.url in {Val("None"), Val("")} then Val("") else item.url)
    ensures r.fileSource == (if item.fileSource.Val? then item.fileSource.value else "None")
    ensures r.gcsBucket == item.gcsBucket && r.gcsBucketFolder == item.gcsBucketFolder
    ensures r.errorMessage == item.errorMessage
    ensures r.uploadProgress == (if item.uploadprogress.Val? then item.uploadprogress.value else 0)
  {
    CustomFile(
      name := item.fileName.value,
      size := item.fileSize.OrElse(0),
      fileType := if item.fileType.Val? then ToUpper(item.fileType.value) else "None",
      nodesCount := item.nodeCount.OrElse(0),
      processing := item.processingTime.OrElse("None"),
      relationshipCount := item.relationshipCount.OrElse(0),
      status := DisplayedStatus(item, storedKey),
      model := item.model.OrElse(model),
      sourceUrl := SourceUrl(item.url),
      fileSource := item.fileSource.OrElse("None"),
      gcsBucket := item.gcsBucket,
      gcsBucketFolder := item.gcsBucketFolder,
      errorMessage := item.errorMessage,
      uploadProgress := item.uploadprogress.OrElse(0)
    )
  }

  // ---------------------------------------------------------------------------
  // The list of items to the list of rows
  // ---------------------------------------------------------------------------

  /** The rows for `items`, visiting them in order. */
  function Rows(items: seq<SourceNode>, storedKey: Nullable<string>, model: string): seq<CustomFile>
  {
    if items == [] then []
    else
      var last := items[|items| - 1];
      Rows(items[..|items| - 1], storedKey, model)
        + (if HasName(last) then [ToRow(last, storedKey, model)] else [])
  }

  /** The positions of the named items, in increasing order. */
  function NamedIndices(items: seq<SourceNode>): seq<nat>
  {
    if items == [] then []
    else
      NamedIndices(items[..|items| - 1])
        + (if HasName(items[|items| - 1]) then [|items| - 1] else [])
  }

  /** The named positions are increasing and are exactly the positions of named items. */
  lemma {:induction false} NamedIndicesExact(items: seq<SourceNode>)
    ensures forall k :: 0 <= k < |NamedIndices(items)| ==> NamedIndices(items)[k] < |items|
    ensures forall a, b :: 0 <= a < b < |NamedIndices(items)| ==> NamedIndices(items)[a] < NamedIndices(items)[b]
    ensures forall i :: 0 <= i < |items| ==> (HasName(items[i]) <==> i in NamedIndices(items))
  {
    if items != [] {
      var init := items[..|items| - 1];
      NamedIndicesExact(init);
      assert forall i :: 0 <= i < |init| ==> init[i] == items[i];
    }
  }

  /** One row per named item, in input order: row k is built from the k-th named item. */
  lemma {:induction false} RowsFollowNamedItems(items: seq<SourceNode>, storedKey: Nullable<string>, model: string)
    ensures |Rows(items, storedKey, model)| == |NamedIndices(items)|
    ensures forall k :: 0 <= k < |NamedIndices(items)| ==>
      && NamedIndices(items)[k] < |items|
      && HasName(items[NamedIndices(items)[k]])
      && Rows(items, storedKey, model)[k] == ToRow(items[NamedIndices(items)[k]], storedKey, model)
  {
    if items != [] {
      var n := |items| - 1;
      var init := items[..n];
      var rows, idx := Rows(items, storedKey, model), NamedIndices(items);
      var rows0, idx0 := Rows(init, storedKey, model), NamedIndices(init);
      RowsFollowNamedItems(init, storedKey, model);
      assert rows == rows0 + (if HasName(items[n]) then [ToRow(items[n], storedKey, model)] else []);
      assert idx == idx0 + (if HasName(items[n]) then [n] else []);
      forall k | 0 <= k < |idx|
        ensures idx[k] < |items| && HasName(items[idx[k]])
        ensures rows[k] == ToRow(items[idx[k]], storedKey, model)
      {
        if k < |idx0| {
          assert idx[k] == idx0[k] && rows[k] == rows0[k];
          assert init[idx0[k]] == items[idx0[k]];
        }
      }
    }
  }

  lemma RowsSnoc(items: seq<SourceNode>, i: int, storedKey: Nullable<string>, model: string)
    requires 0 <= i < |items|
    ensures Rows(items[..i + 1], storedKey, model) ==
      Rows(items[..i], storedKey, model) + (if HasName(items[i]) then [ToRow(items[i], storedKey, model)] else [])
  {
    assert items[..i + 1][..i] == items[..i];
  }

  /** The `forEach` that collects the rows of the named items. */
  method BuildRows(items: seq<SourceNode>, storedKey: Nullable<string>, model: string)
    returns (prefiles: seq<CustomFile>)
    ensures prefiles == Rows(items, storedKey, model)
  {
    prefiles := [];
    var i := 0;
    while i < |items|
      invariant 0 <= i <= |items|
      invariant prefiles == Rows(items[..i], storedKey, model)
    {
      var item := items[i];
      RowsSnoc(items, i, storedKey, model);
      if item.fileName != Undefined && item.fileName != Null && |item.fileName.value| > 0 {
        prefiles := prefiles + [ToRow(item, storedKey, model)];
      }
      i := i + 1;
    }
    assert items[..i] == items;
  }

  // ---------------------------------------------------------------------------
  // Fetching
  // ---------------------------------------------------------------------------

  /** What the source-node request produced: a rejection, a response without a body, or a body
      whose list of source nodes may itself be null or missing. */
  datatype SourceNodesResponse =
    | Rejected(message: string)
    | NoData
    | Payload(status: Nullable<string>, error: Nullable<string>, data: Nullable<seq<SourceNode>>)

  /** The message of `new Error(e)`: the text of `e`, and '' when it is undefined. */
  function ErrorText(e: Nullable<string>): string
  {
    match e
    case Val(s) => s
    case Null => "null"
    case Undefined => ""
  }

  const BackendConnectionMessage: string := "Please check backend connection"

  /** The message of the TypeError raised by reading `length` of a null or missing list. */
  function MissingListMessage(data: Nullable<seq<SourceNode>>): string
  {
    "Cannot read properties of " + (if data.Null? then "null" else "undefined") + " (reading 'length')"
  }

  /** Whether the fetch ends in the error path. */
  predicate FetchFails(res: SourceNodesResponse)
  {
    !res.Payload? || res.status == Val("Failed") || !res.data.Val?
  }

  /** The message shown when the fetch fails. */
  function FailureMessage(res: SourceNodesResponse): string
  {
    match res
    case Rejected(message) => message
    case NoData => BackendConnectionMessage
    case Payload(status, error, data) =>
      if status == Val("Failed") then ErrorText(error) else MissingListMessage(data)
  }

  class FileTableState {
    var filesData: seq<CustomFile>
    var isLoading: bool
    var connectionStatus: bool
    var errorMessage: string
    var showAlert: bool

    constructor (connectionStatus: bool, filesData: seq<CustomFile>)
      ensures this.connectionStatus == connectionStatus && this.filesData == filesData
      ensures !isLoading && errorMessage == "" && !showAlert
    {
      this.connectionStatus := connectionStatus;
      this.filesData := filesData;
      isLoading := false;
      errorMessage := "";
      showAlert := false;
    }

    /** Load the file list: rows for the named items on success; on any failure an empty list,
        a lost connection and an alert with the failure's message. */
    method FetchFiles(res: SourceNodesResponse, storedKey: Nullable<string>, model: string)
      modifies this
      ensures !isLoading
      ensures !FetchFails(res) ==>
        && filesData == Rows(res.data.value, storedKey, model)
        && connectionStatus == old(connectionStatus)
        && errorMessage == old(errorMessage) && showAlert == old(showAlert)
      ensures FetchFails(res) ==>
        && filesData == [] && !connectionStatus
        && errorMessage == FailureMessage(res) && showAlert
    {
      isLoading := true;
      var failed: Option<string> := None;
      match res {
        case Rejected(message) =>
          failed := Some(message);
        case NoData =>
          failed := Some(BackendConnectionMessage);
        case Payload(status, error, data) =>
          if status != Val("Failed") {
            if data.Val? {
              var prefiles: seq<CustomFile> := [];
              if |data.value| != 0 {
                prefiles := BuildRows(data.value, storedKey, model);
              }
              isLoading := false;
              filesData := prefiles;
            } else {
              failed := Some(MissingListMessage(data));
            }
          } else {
            failed := Some(ErrorText(error));
          }
      }
      if failed.Some? {
        errorMessage := failed.value;
        isLoading := false;
        connectionStatus := false;
        filesData := [];
        showAlert := true;
      }
      isLoading := false;
    }

    /** The effect run when the connection status changes: fetch while connected, otherwise
        empty the list. */
    method ConnectionChanged(res: SourceNodesResponse, storedKey: Nullable<string>, model: string)
      modifies this
      ensures !old(connectionStatus) ==>
        && filesData == [] && connectionStatus == old(connectionStatus)
        && isLoading == old(isLoading) && errorMessage == old(errorMessage) && showAlert == old(showAlert)
      ensures old(connectionStatus) ==> !isLoading
      ensures old(connectionStatus) && !FetchFails(res) ==>
        && filesData == Rows(res.data.value, storedKey, model) && connectionStatus
        && errorMessage == old(errorMessage) && showAlert == old(showAlert)
      ensures old(connectionStatus) && FetchFails(res) ==>
        && filesData == [] && !connectionStatus
        && errorMessage == FailureMessage(res) && showAlert
    {
      if connectionStatus {
        FetchFiles(res, storedKey, model);
      } else {
        filesData := [];
      }
    }
  }

  // ---------------------------------------------------------------------------
  // Column rules
  // ---------------------------------------------------------------------------

  /** The status filter: with the box ticked only 'New' rows pass; otherwise a row passes when
      its status is a non-empty (truthy) string. */
  function StatusFilter(row: CustomFile, filterValue: bool): bool
  {
    if filterValue then row.status == "New" else row.status != ""
  }

  /** Ticking "Show files with status New" only ever hides rows: a New row is shown either way. */
  lemma StatusFilterNarrows(row: CustomFile)
    ensures StatusFilter(row, true) ==> StatusFilter(row, false)
  {
  }

  /** A row's identity in the table: name and source joined by a comma. */
  function RowId(row: CustomFile): string
  {
    row.name + "," + row.fileSource
  }

  /** The text before the first comma and the text after it, if there is a comma. */
  function SplitAtComma(s: string): Option<(string, string)>
  {
    if s == [] then None
    else if s[0] == ',' then Some(([], s[1..]))
    else
      match SplitAtComma(s[1..])
      case None => None
      case Some((before, after)) => Some(([s[0]] + before, after))
  }

  lemma {:induction false} SplitAfterName(name: string, rest: string)
    requires ',' !in name
    ensures SplitAtComma(name + "," + rest) == Some((name, rest))
  {
    if name != [] {
      assert (name + "," + rest)[1..] == name[1..] + "," + rest;
      SplitAfterName(name[1..], rest);
      assert [name[0]] + name[1..] == name;
    } else {
      assert name + "," + rest == "," + rest;
    }
  }

  /** When names carry no comma the row id determines the name and the source. */
  lemma RowIdRoundTrip(row: CustomFile)
    requires ',' !in row.name
    ensures SplitAtComma(RowId(row)) == Some((row.name, row.fileSource))
  {
    SplitAfterName(row.name, row.fileSource);
  }

  /** Two rows with comma-free names share an id only when name and source both agree. */
  lemma RowIdInjective(a: CustomFile, b: CustomFile)
    requires ',' !in a.name && ',' !in b.name
    ensures RowId(a) == RowId(b) <==> a.name == b.name && a.fileSource == b.fileSource
  {
    RowIdRoundTrip(a);
    RowIdRoundTrip(b);
  }

  /** Rows per page for a window of the given outer height: the largest whole number of
      45-pixel rows that fit below the 402 pixels of surrounding layout. */
  function PageSize(outerHeight: int): (r: int)
    ensures 45 * r <= outerHeight - 402 < 45 * (r + 1)
  {
    (outerHeight - 402) / 45
  }

  /** What the upload-progress column shows. */
  datatype ProgressCell = Uploaded | ProgressBar(percent: int) | NotAvailable

  function UploadCell(progress: int, status: string): (c: ProgressCell)
    ensures c.ProgressBar? <==> progress != 100 && status == "Uploading"
    ensures c.ProgressBar? ==> c.percent == progress
    ensures c.NotAvailable? <==> progress != 100 && status == "Failed"
    ensures c.Uploaded? <==> progress == 100 || status !in {"Uploading", "Failed"}
  {
    if progress == 100 || status == "New" then Uploaded
    else if status == "Uploading" then ProgressBar(progress)
    else if status == "Failed" then NotAvailable
    else Uploaded
  }

  /** The name cell's tooltip: the source link for S3 and YouTube files, the name otherwise. */
  function NameTooltip(row: CustomFile): (t: Nullable<string>)
    ensures row.fileSource in {"s3 bucket", "youtube"} ==> t == row.sourceUrl
    ensures row.fileSource !in {"s3 bucket", "youtube"} ==> t == Val(row.name)
  {
    if row.fileSource == "s3 bucket" then row.sourceUrl
    else if row.fileSource == "youtube" then row.sourceUrl
    else Val(row.name)
  }
}
