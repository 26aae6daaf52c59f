/**
 * The meta4 cache kept by `DatabaseManager` in SQLite. The `meta4_files`
 * table is a sequence of rows in rowid order with `book_id` unique among
 * non-NULL ids; an `INSERT OR REPLACE` deletes the row holding the same
 * `book_id` and appends the new one. The `meta4_status` table is an append-only log whose newest
 * row is the current status. Timestamps (`datetime.now().isoformat()`) are
 * passed in as `now`.
 */
module Database {
  import opened Wrappers
  import opened Strings
  import opened Files

  /**
   * The dictionary handed to an upsert. Where the source reads a key with
   * `.get(key)`, absent and `None` read alike and the field is an `Option`;
   * the keys it reads otherwise tell the two apart.
   */
  datatype Meta4Data = Meta4Data(
    bookId: Key<string>,
    fileName: Option<string>,
    fileSize: Key<int>,
    md5Hash: Option<string>,
    sha1Hash: Option<string>,
    sha256Hash: Option<string>,
    mirrors: Key<seq<string>>,
    meta4Url: Option<string>)

  /** A row of `meta4_files`; `None` is SQL NULL, which `book_id` may hold too. */
  datatype FileRow = FileRow(
    bookId: Option<string>,
    fileName: Option<string>,
    fileSize: Option<int>,
    md5Hash: Option<string>,
    sha1Hash: Option<string>,
    sha256Hash: Option<string>,
    mirrors: Option<string>,
    lastUpdated: Option<string>,
    meta4Url: Option<string>,
    bookDate: Option<string>)

  /** The dictionary `get_meta4_info` returns for a row. */
  datatype Meta4Info = Meta4Info(
    fileName: Option<string>,
    fileSize: Option<int>,
    md5Hash: Option<string>,
    sha1Hash: Option<string>,
    sha256Hash: Option<string>,
    mirrors: seq<string>,
    lastUpdated: Option<string>,
    meta4Url: Option<string>)

  /** One element of `get_all_meta4_info`: the same dictionary with its `book_id`. */
  datatype Meta4Listing = Meta4Listing(bookId: Option<string>, info: Meta4Info)

  /** A row of `meta4_status`. */
  datatype StatusRow = StatusRow(totalFiles: int, processedFiles: int, lastUpdated: Option<string>, isComplete: bool)

  /** What `get_meta4_download_status` answers when the log is empty. */
  const NoStatus := StatusRow(0, 0, None, false)

  // ---------------------------------------------------------------------------
  // The mirror list column

  /** `"|".join(mirrors)`. */
  function EncodeMirrors(ms: seq<string>): string {
    Join(ms, '|')
  }

  /** `col.split("|") if col else []`: NULL and the empty text both read as no mirrors. */
  function DecodeMirrors(col: Option<string>): (ms: seq<string>)
    ensures col.None? || col.value == "" ==> ms == []
    ensures col.Some? && col.value != "" ==> |ms| >= 1 && Join(ms, '|') == col.value
    ensures forall k :: 0 <= k < |ms| ==> '|' !in ms[k]
  {
    if col.None? || col.value == "" then []
    else
      JoinSplit(col.value, '|');
      Split(col.value, '|')
  }

  /** A mirror list round-trips when no mirror contains `|` and it is not the single empty mirror. */
  lemma MirrorsRoundTrip(ms: seq<string>)
    requires forall k :: 0 <= k < |ms| ==> '|' !in ms[k]
    requires ms != [""]
    ensures DecodeMirrors(Some(EncodeMirrors(ms))) == ms
  {
    JoinEmpty(ms, '|');
    if ms != [] {
      SplitJoin(ms, '|');
    }
  }

  /** The list holding one empty mirror is stored as `""` and read back as no mirrors. */
  lemma EmptyMirrorCollapses()
    ensures EncodeMirrors([""]) == ""
    ensures DecodeMirrors(Some(EncodeMirrors([""]))) == []
  {
  }

  // ---------------------------------------------------------------------------
  // Rows

  /** `"|".join(data.get("mirrors", []))`, or `None` when the key holds `None` and the join raises. */
  function MirrorsColumn(d: Meta4Data): (col: Option<string>)
    ensures col.None? <==> d.mirrors.Null?
    ensures d.mirrors.Absent? ==> col == Some("")
  {
    match d.mirrors
    case Absent => Some(EncodeMirrors([]))
    case Null => None
    case Given(ms) => Some(EncodeMirrors(ms))
  }

  /** `data.get("file_size", 0)`: 0 when the key is absent, NULL when it holds `None`. */
  function SizeColumn(d: Meta4Data): (size: Option<int>)
    ensures d.fileSize.Absent? ==> size == Some(0)
    ensures d.fileSize.Null? ==> size.None?
    ensures d.fileSize.Given? ==> size == Some(d.fileSize.value)
  {
    match d.fileSize
    case Absent => Some(0)
    case Null => None
    case Given(n) => Some(n)
  }

  /**
   * The row an upsert writes once the mirrors are joined: `book_date`,
   * missing from the column list, is NULL.
   */
  function RowOf(id: Option<string>, d: Meta4Data, now: string): FileRow
    requires !d.mirrors.Null?
  {
    FileRow(id, d.fileName, SizeColumn(d), d.md5Hash, d.sha1Hash, d.sha256Hash,
            MirrorsColumn(d), Some(now), d.meta4Url, None)
  }

  /** The dictionary built from a selected row. */
  function InfoOf(row: FileRow): Meta4Info {
    Meta4Info(row.fileName, row.fileSize, row.md5Hash, row.sha1Hash, row.sha256Hash,
              DecodeMirrors(row.mirrors), row.lastUpdated, row.meta4Url)
  }

  /** The `UNIQUE` constraint on `book_id`, which SQLite does not apply to NULLs. */
  predicate UniqueIds(rows: seq<FileRow>) {
    forall i, j :: 0 <= i < j < |rows| && rows[i].bookId.Some? ==> rows[i].bookId != rows[j].bookId
  }

  /** `SELECT … WHERE book_id = ?` followed by `fetchone()`: the first matching row; NULL matches no id. */
  function LookupRow(rows: seq<FileRow>, id: string): (r: Option<FileRow>)
    ensures r.Some? <==> exists i :: 0 <= i < |rows| && rows[i].bookId == Some(id)
    ensures r.Some? ==> r.value.bookId == Some(id) && r.value in rows
  {
    if rows == [] then None
    else if rows[0].bookId == Some(id) then Some(rows[0])
    else
      var r := LookupRow(rows[1..], id);
      assert forall i :: 1 <= i < |rows| ==> rows[i] == rows[1..][i - 1];
      r
  }

  /** With unique ids, looking up a row's id finds that row. */
  lemma {:induction false} LookupUnique(rows: seq<FileRow>, i: nat)
    requires UniqueIds(rows)
    requires i < |rows| && rows[i].bookId.Some?
    ensures LookupRow(rows, rows[i].bookId.value) == Some(rows[i])
  {
    if i > 0 {
      assert rows[1..][i - 1] == rows[i];
      LookupUnique(rows[1..], i - 1);
    }
  }

  /** The rows left after the `REPLACE` conflict resolution deletes those with `id`, in their order. */
  function Without(rows: seq<FileRow>, id: string): (r: seq<FileRow>)
    ensures forall row :: row in r <==> row in rows && row.bookId != Some(id)
  {
    if rows == [] then []
    else if rows[0].bookId == Some(id) then Without(rows[1..], id)
    else [rows[0]] + Without(rows[1..], id)
  }

  /** `INSERT OR REPLACE` of a whole row; a NULL `book_id` conflicts with no row. */
  function Upsert(rows: seq<FileRow>, row: FileRow): seq<FileRow> {
    if row.bookId.Some? then Without(rows, row.bookId.value) + [row] else rows + [row]
  }

  lemma {:induction false} WithoutKeepsUnique(rows: seq<FileRow>, id: string)
    requires UniqueIds(rows)
    ensures UniqueIds(Without(rows, id))
  {
    if rows != [] {
      WithoutKeepsUnique(rows[1..], id);
      if rows[0].bookId != Some(id) && rows[0].bookId.Some? {
        var rest := Without(rows[1..], id);
        forall j | 0 <= j < |rest|
          ensures rest[j].bookId != rows[0].bookId
        {
          assert rest[j] in rows[1..];
        }
      }
    }
  }

  lemma {:induction false} LookupWithout(rows: seq<FileRow>, id: string, other: string)
    ensures LookupRow(Without(rows, id), other) == if other == id then None else LookupRow(rows, other)
  {
    if rows != [] {
      LookupWithout(rows[1..], id, other);
    }
  }

  lemma {:induction false} LookupAppend(rows: seq<FileRow>, row: FileRow, id: string)
    ensures LookupRow(rows + [row], id) ==
      if LookupRow(rows, id).Some? then LookupRow(rows, id)
      else if row.bookId == Some(id) then Some(row) else None
  {
    if rows != [] {
      assert (rows + [row])[1..] == rows[1..] + [row];
      LookupAppend(rows[1..], row, id);
    }
  }

  /** An upsert keeps `book_id` unique. */
  lemma UpsertKeepsUnique(rows: seq<FileRow>, row: FileRow)
    requires UniqueIds(rows)
    ensures UniqueIds(Upsert(rows, row))
  {
    if row.bookId.Some? {
      WithoutKeepsUnique(rows, row.bookId.value);
      var w := Without(rows, row.bookId.value);
      forall i | 0 <= i < |w|
        ensures w[i].bookId != row.bookId
      {
        assert w[i] in w;
      }
    }
  }

  /**
   * After an upsert its id finds the new row, and every other id finds what
   * it found before; a row with a NULL `book_id` changes no lookup.
   */
  lemma UpsertThenLookup(rows: seq<FileRow>, row: FileRow, id: string)
    ensures LookupRow(Upsert(rows, row), id) == if row.bookId == Some(id) then Some(row) else LookupRow(rows, id)
  {
    if row.bookId.Some? {
      LookupAppend(Without(rows, row.bookId.value), row, id);
      LookupWithout(rows, row.bookId.value, id);
    } else {
      LookupAppend(rows, row, id);
    }
  }

  /** `needs_update` on a table: false only for an existing row whose non-empty `book_date` equals `d`. */
  predicate Stale(rows: seq<FileRow>, id: string, d: string) {
    var r := LookupRow(rows, id);
    r.None? || r.value.bookDate.None? || r.value.bookDate.value == "" || r.value.bookDate.value != d
  }

  /** `needs_update(id, d)` is false exactly when the row for `id` carries the non-empty date `d`. */
  lemma FreshExactly(rows: seq<FileRow>, id: string, d: string)
    requires UniqueIds(rows)
    ensures !Stale(rows, id, d) <==>
      d != "" && exists i :: 0 <= i < |rows| && rows[i].bookId == Some(id) && rows[i].bookDate == Some(d)
  {
    if exists i :: 0 <= i < |rows| && rows[i].bookId == Some(id) {
      var i :| 0 <= i < |rows| && rows[i].bookId == Some(id);
      LookupUnique(rows, i);
      assert forall j :: 0 <= j < |rows| && rows[j].bookId == Some(id) ==> j == i;
    }
  }

  /** Upserts never write `book_date`, so right after one every date still needs an update. */
  lemma UpsertLeavesBookDateNull(rows: seq<FileRow>, id: string, data: Meta4Data, now: string, d: string)
    requires !data.mirrors.Null?
    ensures Stale(Upsert(rows, RowOf(Some(id), data, now)), id, d)
  {
    UpsertThenLookup(rows, RowOf(Some(id), data, now), id);
  }

  // ---------------------------------------------------------------------------
  // Batches

  /**
   * An entry a batch cannot write: joining its mirrors raises a `TypeError`
   * when the key holds `None`, and `data["book_id"]` a `KeyError` when that
   * key is absent.
   */
  predicate Raises(d: Meta4Data) {
    d.mirrors.Null? || d.bookId.Absent?
  }

  /** `data["book_id"]` of an entry that has the key: NULL when it holds `None`. */
  function IdOf(d: Meta4Data): (id: Option<string>)
    ensures id.Some? <==> d.bookId.Given?
    ensures id.Some? ==> id.value == d.bookId.value
  {
    if d.bookId.Given? then Some(d.bookId.value) else None
  }

  /**
   * The batch transaction: the upserts in list order, or `None` when an
   * entry raises (which rolls the whole batch back).
   */
  function ApplyAll(rows: seq<FileRow>, updates: seq<Meta4Data>, now: string): Option<seq<FileRow>>
    decreases |updates|
  {
    if updates == [] then Some(rows)
    else if Raises(updates[0]) then None
    else ApplyAll(Upsert(rows, RowOf(IdOf(updates[0]), updates[0], now)), updates[1..], now)
  }

  /**
   * An entry whose `book_id` holds `None` is written: it appends a row with a
   * NULL `book_id`, which replaces no row, and the batch still commits.
   */
  lemma NullIdAppends(rows: seq<FileRow>, d: Meta4Data, now: string)
    requires d.bookId.Null? && !d.mirrors.Null?
    ensures ApplyAll(rows, [d], now) == Some(rows + [RowOf(None, d, now)])
    ensures RowOf(None, d, now).bookId.None?
  {
    assert [d][1..] == [];
  }

  /** A batch is rolled back exactly when one of its entries raises. */
  lemma {:induction false} BatchAllOrNothing(rows: seq<FileRow>, updates: seq<Meta4Data>, now: string)
    ensures ApplyAll(rows, updates, now).None? <==> exists k :: 0 <= k < |updates| && Raises(updates[k])
    decreases |updates|
  {
    if updates != [] && !Raises(updates[0]) {
      var next := Upsert(rows, RowOf(IdOf(updates[0]), updates[0], now));
      BatchAllOrNothing(next, updates[1..], now);
      assert forall k :: 1 <= k < |updates| ==> updates[k] == updates[1..][k - 1];
    }
  }

  /** A committed batch keeps `book_id` unique. */
  lemma {:induction false} BatchKeepsUnique(rows: seq<FileRow>, updates: seq<Meta4Data>, now: string)
    requires UniqueIds(rows)
    requires ApplyAll(rows, updates, now).Some?
    ensures UniqueIds(ApplyAll(rows, updates, now).value)
    decreases |updates|
  {
    if updates != [] {
      var next := Upsert(rows, RowOf(IdOf(updates[0]), updates[0], now));
      UpsertKeepsUnique(rows, RowOf(IdOf(updates[0]), updates[0], now));
      BatchKeepsUnique(next, updates[1..], now);
    }
  }

  /** An id no entry of a committed batch names keeps its row. */
  lemma {:induction false} BatchUntouched(rows: seq<FileRow>, updates: seq<Meta4Data>, now: string, id: string)
    requires ApplyAll(rows, updates, now).Some?
    requires forall k :: 0 <= k < |updates| ==> updates[k].bookId != Given(id)
    ensures LookupRow(ApplyAll(rows, updates, now).value, id) == LookupRow(rows, id)
    decreases |updates|
  {
    if updates != [] {
      var row := RowOf(IdOf(updates[0]), updates[0], now);
      UpsertThenLookup(rows, row, id);
      assert forall k :: 0 <= k < |updates[1..]| ==> updates[1..][k] == updates[k + 1];
      BatchUntouched(Upsert(rows, row), updates[1..], now, id);
    }
  }

  /** In a committed batch the last entry for an id decides its row. */
  lemma {:induction false} BatchLastWriteWins(rows: seq<FileRow>, updates: seq<Meta4Data>, now: string, j: nat, id: string)
    requires ApplyAll(rows, updates, now).Some?
    requires j < |updates| && updates[j].bookId == Given(id) && !updates[j].mirrors.Null?
    requires forall k :: j < k < |updates| ==> updates[k].bookId != Given(id)
    ensures LookupRow(ApplyAll(rows, updates, now).value, id) == Some(RowOf(Some(id), updates[j], now))
    decreases |updates|
  {
    var row := RowOf(IdOf(updates[0]), updates[0], now);
    assert forall k :: 0 <= k < |updates[1..]| ==> updates[1..][k] == updates[k + 1];
    if j == 0 {
      UpsertThenLookup(rows, row, id);
      BatchUntouched(Upsert(rows, row), updates[1..], now, id);
    } else {
      BatchLastWriteWins(Upsert(rows, row), updates[1..], now, j - 1, id);
    }
  }

  // ---------------------------------------------------------------------------
  // The manager

  class DatabaseManager {
    const dbPath: string
    var files: seq<FileRow>
    var status: seq<StatusRow>

    ghost predicate Valid()
      reads this
    {
      UniqueIds(files)
    }

    /** `DatabaseManager(data_dir)` on a database that already holds `existing` and `log`. */
    constructor (dataDir: string, existing: seq<FileRow>, log: seq<StatusRow>)
      requires UniqueIds(existing)
      ensures Valid()
      ensures dbPath == PathJoin(dataDir, "meta4_cache.db")
      ensures files == existing && status == log
    {
      dbPath := PathJoin(dataDir, "meta4_cache.db");
      files := existing;
      status := log;
    }

    /**
     * `update_meta4_info(book_id, data)`: replace the whole row for
     * `book_id`; mirrors holding `None` raise before the connection opens,
     * and the handler swallows the error.
     */
    method UpdateMeta4Info(bookId: string, data: Meta4Data, now: string)
      requires Valid()
      modifies this`files
      ensures Valid()
      ensures data.mirrors.Null? ==> files == old(files)
      ensures !data.mirrors.Null? ==>
        && files == Upsert(old(files), RowOf(Some(bookId), data, now))
        && GetMeta4Info(bookId) == Some(InfoOf(RowOf(Some(bookId), data, now)))
        && forall d :: NeedsUpdate(bookId, d)
      ensures forall other :: other != bookId ==> GetMeta4Info(other) == old(GetMeta4Info(other))
    {
      if data.mirrors.Null? {
        return;
      }
      var row := RowOf(Some(bookId), data, now);
      UpsertKeepsUnique(files, row);
      files := Upsert(files, row);
      forall other
        ensures LookupRow(files, other) == if other == bookId then Some(row) else LookupRow(old(files), other)
      {
        UpsertThenLookup(old(files), row, other);
      }
    }

    /**
     * `batch_update_meta4_info(updates)`: the upserts in order inside one
     * transaction, committed at the end or rolled back on the first entry
     * that raises.
     */
    method BatchUpdateMeta4Info(updates: seq<Meta4Data>, now: string)
      requires Valid()
      modifies this`files
      ensures Valid()
      ensures files == ApplyAll(old(files), updates, now).GetOr(old(files))
    {
      var working := files;
      var i := 0;
      while i < |updates|
        invariant 0 <= i <= |updates|
        invariant ApplyAll(working, updates[i..], now) == ApplyAll(files, updates, now)
        invariant UniqueIds(working)
        invariant files == old(files)
      {
        var data := updates[i];
        if Raises(data) {
          assert ApplyAll(working, updates[i..], now).None?;
          return;
        }
        UpsertKeepsUnique(working, RowOf(IdOf(data), data, now));
        assert updates[i..][1..] == updates[i + 1..];
        working := Upsert(working, RowOf(IdOf(data), data, now));
        i := i + 1;
      }
      assert updates[i..] == [];
      files := working;
    }

    /** `get_meta4_info(book_id)`: the row's fields, or `None` when no row has that id. */
    function GetMeta4Info(bookId: string): (r: Option<Meta4Info>)
      reads this
      ensures r.None? <==> forall i :: 0 <= i < |files| ==> files[i].bookId != Some(bookId)
      ensures r.Some? ==> exists i :: 0 <= i < |files| && files[i].bookId == Some(bookId) && r.value == InfoOf(files[i])
    {
      match LookupRow(files, bookId)
      case None => None
      case Some(row) => Some(InfoOf(row))
    }

    /** `get_all_meta4_info()`: one record per row, in table order. */
    function GetAllMeta4Info(): (all: seq<Meta4Listing>)
      reads this
      ensures |all| == |files|
      ensures forall i :: 0 <= i < |all| ==> all[i] == Meta4Listing(files[i].bookId, InfoOf(files[i]))
    {
      seq(|files|, i requires 0 <= i < |files| reads this => Meta4Listing(files[i].bookId, InfoOf(files[i])))
    }

    /** `get_meta4_download_status()`: the newest status row, or all zeros when there is none. */
    function GetMeta4DownloadStatus(): (s: StatusRow)
      reads this
      ensures status == [] ==> s == NoStatus
      ensures status != [] ==> s == status[|status| - 1]
    {
      if status == [] then NoStatus else status[|status| - 1]
    }

    /** `update_meta4_download_status(total, processed, is_complete)`: append a row stamped `now`. */
    method UpdateMeta4DownloadStatus(total: int, processed: int, isComplete: bool, now: string)
      modifies this`status
      ensures status == old(status) + [StatusRow(total, processed, Some(now), isComplete)]
      ensures GetMeta4DownloadStatus() == StatusRow(total, processed, Some(now), isComplete)
    {
      status := status + [StatusRow(total, processed, Some(now), isComplete)];
    }

    /**
     * `needs_update(book_id, new_date)`: with `book_id` unique, false exactly
     * when the row for `book_id` holds the non-empty `book_date` `new_date`.
     */
    function NeedsUpdate(bookId: string, newDate: string): (b: bool)
      reads this
      ensures UniqueIds(files) ==>
        (!b <==> newDate != "" && exists i :: 0 <= i < |files| && files[i].bookId == Some(bookId) && files[i].bookDate == Some(newDate))
    {
      if UniqueIds(files) then
        FreshExactly(files, bookId, newDate);
        Stale(files, bookId, newDate)
      else Stale(files, bookId, newDate)
    }

    /**
     * `cleanup_old_entries(days)`: the `?` placeholder sits inside the SQL
     * string literal, so executing the statement raises and the handler
     * swallows the error; neither table changes.
     */
    method CleanupOldEntries(days: int)
      ensures files == old(files) && status == old(status)
    {
    }
  }

  /** Every stored `book_id` appears exactly once in the listing, and nothing else does; NULL ids may repeat. */
  lemma ListingOnePerBook(rows: seq<FileRow>, all: seq<Meta4Listing>, id: string)
    requires UniqueIds(rows)
    requires |all| == |rows|
    requires forall i :: 0 <= i < |all| ==> all[i] == Meta4Listing(rows[i].bookId, InfoOf(rows[i]))
    ensures (exists i :: 0 <= i < |all| && all[i].bookId == Some(id)) <==> LookupRow(rows, id).Some?
    ensures forall i, j :: 0 <= i < j < |all| && all[i].bookId.Some? ==> all[i].bookId != all[j].bookId
  {
  }
}
