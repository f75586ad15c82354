/**
  CSV ingestion (server/routes/upload.js): the multer file filter, the two
  upload endpoints that turn the rows of an export into a stored collection,
  and the read-back endpoint.

  The CSV text itself is not modelled: an upload carries the rows csv-parser
  emits and whether its stream ended in an `error` event.
 */
module Upload {
  import opened JsValues
  import opened Store

  /** The two upload endpoints. */
  datatype Source = Goodreads | StoryGraph

  datatype CsvStream = CsvStream(rows: seq<Row>, failed: bool)

  /** The multipart `file` part as multer reports it. */
  datatype UploadedFile = UploadedFile(mimetype: string, originalName: string, csv: CsvStream)

  /** What an upload leaves behind: the response and both directories. */
  datatype Ingested = Ingested(response: Response, files: map<string, Json>, uploads: set<string>)

  /** multer's `fileFilter`. */
  predicate FileAccepted(mimetype: string, originalName: string) {
    mimetype == "text/csv" || EndsWith(originalName, ".csv")
  }

  /** A file passes the filter exactly when it is declared CSV or is named `<anything>.csv`. */
  lemma FileAcceptedIff(mimetype: string, originalName: string)
    ensures FileAccepted(mimetype, originalName)
        <==> mimetype == "text/csv" || exists stem :: originalName == stem + ".csv"
  {
    EndsWithIsSuffix(originalName, ".csv");
  }

  // ---- StoryGraph normalisation ----

  const CanonicalKeys: set<string> := {"Title", "Author", "My Rating", "Date Read", "Exclusive Shelf"}

  /** The two StoryGraph columns a canonical key falls back on, in order. */
  function Fallbacks(k: string): (string, string) {
    if k == "Title" then ("Title", "title")
    else if k == "Author" then ("Author", "author")
    else if k == "My Rating" then ("Star Rating", "rating")
    else if k == "Date Read" then ("Read Date", "date_read")
    else ("Read Status", "shelf")
  }

  /** `row[first] || row[second]` for a canonical key. */
  function Computed(row: Row, k: string): Option<string> {
    OrText(Cell(row, Fallbacks(k).0), Cell(row, Fallbacks(k).1))
  }

  /** `{ 'Title': ..., 'Author': ..., 'My Rating': ..., 'Date Read': ..., 'Exclusive Shelf': ..., ...row }`. */
  function NormalizeStoryGraph(row: Row): (r: Row)
    ensures forall k :: k in row ==> k in r && r[k] == row[k]
    ensures forall k :: k in r ==> k in row || k in CanonicalKeys
    ensures forall k :: k in CanonicalKeys && k !in row ==> Cell(r, k) == Computed(row, k)
  {
    var canonical := map k | k in CanonicalKeys && Computed(row, k).Some? :: Computed(row, k).value;
    canonical + row
  }

  /** A column outside the canonical keys reads the same after normalisation. */
  lemma OtherColumnKept(row: Row, x: string)
    requires x !in CanonicalKeys
    ensures Cell(NormalizeStoryGraph(row), x) == Cell(row, x)
  {
  }

  /** A canonical key normalisation could not fill stays unfillable: neither of its columns appeared. */
  lemma UnfilledStaysUnfilled(row: Row, k: string)
    requires k in CanonicalKeys && k !in NormalizeStoryGraph(row)
    ensures Computed(NormalizeStoryGraph(row), k) == None
  {
    assert Computed(row, k) == None;
    if k == "Title" {
      OtherColumnKept(row, "title");
    } else if k == "Author" {
      OtherColumnKept(row, "author");
    } else if k == "My Rating" {
      OtherColumnKept(row, "Star Rating");
      OtherColumnKept(row, "rating");
    } else if k == "Date Read" {
      OtherColumnKept(row, "Read Date");
      OtherColumnKept(row, "date_read");
    } else {
      OtherColumnKept(row, "Read Status");
      OtherColumnKept(row, "shelf");
    }
  }

  /** Normalising a normalised row changes nothing: a stored row can be ingested again as is. */
  lemma NormalizeIdempotent(row: Row)
    ensures NormalizeStoryGraph(NormalizeStoryGraph(row)) == NormalizeStoryGraph(row)
  {
    var r := NormalizeStoryGraph(row);
    var rr := NormalizeStoryGraph(r);
    forall k | k in CanonicalKeys && k !in r
      ensures Computed(r, k) == None
    {
      UnfilledStaysUnfilled(row, k);
    }
    assert rr.Keys == r.Keys;
  }

  // ---- ingestion ----

  /** What one row becomes in the stored collection. */
  function StoredRow(source: Source, row: Row): Json {
    match source
    case Goodreads => RowJson(row)
    case StoryGraph => RowJson(NormalizeStoryGraph(row))
  }

  function StoredRows(source: Source, rows: seq<Row>): seq<Json> {
    seq(|rows|, i requires 0 <= i < |rows| => StoredRow(source, rows[i]))
  }

  /** The `books` array the `data` handler pushes into, one element per row, in order. */
  method CollectRows(source: Source, rows: seq<Row>) returns (books: seq<Json>)
    ensures |books| == |rows|
    ensures forall i :: 0 <= i < |rows| ==> books[i] == StoredRow(source, rows[i])
  {
    books := [];
    for i := 0 to |rows|
      invariant |books| == i
      invariant forall j :: 0 <= j < i ==> books[j] == StoredRow(source, rows[j])
    {
      books := books + [StoredRow(source, rows[i])];
    }
  }

  /** multer's disk file name, `${Date.now()}-${file.originalname}`. */
  function TempName(stamp: nat, originalName: string): string {
    NatToDecimal(stamp) + "-" + originalName
  }

  /** `user_${Date.now()}`. */
  function NewUserId(stamp: nat): string {
    "user_" + NatToDecimal(stamp)
  }

  function SuccessMessage(source: Source): string {
    match source
    case Goodreads => "Books imported successfully"
    case StoryGraph => "Books imported successfully from StoryGraph"
  }

  function UploadSuccess(source: Source, userId: string, count: nat): Json {
    JObj(map[
      "success" := JBool(true),
      "userId" := JStr(userId),
      "bookCount" := JNum(count as real),
      "message" := JStr(SuccessMessage(source))])
  }

  /** multer's rejection, reported by the application's error middleware. */
  const RejectedUpload := Response(500, JObj(map[
    "error" := JStr("Something went wrong!"),
    "message" := JStr("Only CSV files are allowed")]))

  /**
    POST `/goodreads` and `/storygraph`, file filter included. `fileStamp` and
    `idStamp` are the two `Date.now()` readings.
   */
  function UploadOutcome(files: map<string, Json>, uploads: set<string>, source: Source,
                         file: Option<UploadedFile>, fileStamp: nat, idStamp: nat): (o: Ingested)
    ensures file.None? ==>
      o == Ingested(Response(400, ErrorBody("No file uploaded")), files, uploads)
    ensures file.Some? && !FileAccepted(file.value.mimetype, file.value.originalName) ==>
      o == Ingested(RejectedUpload, files, uploads)
    ensures file.Some? && FileAccepted(file.value.mimetype, file.value.originalName) && file.value.csv.failed ==>
      o == Ingested(Response(500, ErrorBody("Failed to parse CSV file")), files,
                    uploads + {TempName(fileStamp, file.value.originalName)})
    ensures o.response.status == 200 <==>
      file.Some? && FileAccepted(file.value.mimetype, file.value.originalName) && !file.value.csv.failed
    ensures o.response.status == 200 ==>
      var rows := file.value.csv.rows;
      && o.files == files[BooksKey(NewUserId(idStamp)) := JArr(StoredRows(source, rows))]
      && o.uploads == uploads - {TempName(fileStamp, file.value.originalName)}
      && o.response.body == UploadSuccess(source, NewUserId(idStamp), |rows|)
  {
    match file
    case None => Ingested(Response(400, ErrorBody("No file uploaded")), files, uploads)
    case Some(f) =>
      if !FileAccepted(f.mimetype, f.originalName) then Ingested(RejectedUpload, files, uploads)
      else
        var temp := TempName(fileStamp, f.originalName);
        if f.csv.failed then
          Ingested(Response(500, ErrorBody("Failed to parse CSV file")), files, uploads + {temp})
        else
          var userId := NewUserId(idStamp);
          Ingested(Response(200, UploadSuccess(source, userId, |f.csv.rows|)),
                   files[BooksKey(userId) := JArr(StoredRows(source, f.csv.rows))],
                   (uploads + {temp}) - {temp})
  }

  /** The upload route as the server runs it: multer, the row events, the write and the unlink. */
  method HandleUpload(dir: DataDir, source: Source, file: Option<UploadedFile>, fileStamp: nat, idStamp: nat)
      returns (res: Response)
    modifies dir
    ensures Ingested(res, dir.files, dir.uploads)
         == UploadOutcome(old(dir.files), old(dir.uploads), source, file, fileStamp, idStamp)
  {
    if file.None? {
      return Response(400, ErrorBody("No file uploaded"));
    }
    var f := file.value;
    if !FileAccepted(f.mimetype, f.originalName) {
      return RejectedUpload;
    }
    var temp := TempName(fileStamp, f.originalName);
    dir.uploads := dir.uploads + {temp};
    var books := CollectRows(source, f.csv.rows);
    if f.csv.failed {
      return Response(500, ErrorBody("Failed to parse CSV file"));
    }
    var userId := NewUserId(idStamp);
    assert books == StoredRows(source, f.csv.rows);
    dir.WriteFile(BooksKey(userId), JArr(books));
    dir.Unlink(temp);
    res := Response(200, UploadSuccess(source, userId, |books|));
  }

  /** GET `/user/:userId`. */
  function GetUserBooks(files: map<string, Json>, userId: string): (res: Response)
    ensures BooksKey(userId) !in files <==> res == Response(404, ErrorBody("User data not found"))
    ensures BooksKey(userId) in files ==>
      res.status == 200 && Field(res.body, "books") == Some(files[BooksKey(userId)])
    ensures BooksKey(userId) in files ==> res == Response(200, JObj(map["books" := files[BooksKey(userId)]]))
  {
    if BooksKey(userId) !in files then Response(404, ErrorBody("User data not found"))
    else Response(200, JObj(map["books" := files[BooksKey(userId)]]))
  }

  /** Reading a collection back right after uploading it returns exactly what was stored. */
  lemma UploadThenRead(files: map<string, Json>, uploads: set<string>, source: Source,
                       file: Option<UploadedFile>, fileStamp: nat, idStamp: nat)
    requires UploadOutcome(files, uploads, source, file, fileStamp, idStamp).response.status == 200
    ensures GetUserBooks(UploadOutcome(files, uploads, source, file, fileStamp, idStamp).files, NewUserId(idStamp))
         == Response(200, JObj(map["books" := JArr(StoredRows(source, file.value.csv.rows))]))
  {
  }

  /**
    A Goodreads collection is the rows themselves, unfiltered and in order: each
    stored element reads back as exactly its row.
   */
  lemma GoodreadsStoredUnchanged(rows: seq<Row>)
    ensures |StoredRows(Goodreads, rows)| == |rows|
    ensures forall i :: 0 <= i < |rows| ==> DecodeRow(StoredRows(Goodreads, rows)[i]) == Some(rows[i])
  {
    forall i | 0 <= i < |rows| ensures DecodeRow(StoredRows(Goodreads, rows)[i]) == Some(rows[i]) {
      DecodeRowJson(rows[i]);
    }
  }

  /** A StoryGraph row is stored with every one of its own columns and values. */
  lemma StoryGraphKeepsColumns(rows: seq<Row>, i: nat, k: string)
    requires i < |rows| && k in rows[i]
    ensures Field(StoredRows(StoryGraph, rows)[i], k) == Some(JStr(rows[i][k]))
  {
    FieldOfRowJson(NormalizeStoryGraph(rows[i]), k);
  }

  /**
    Ids come from the clock alone: two uploads in the same millisecond get the
    same id, and the second collection replaces the first.
   */
  lemma SameMillisecondUploadsCollide(files: map<string, Json>, uploads: set<string>,
                                      s1: Source, f1: Option<UploadedFile>, t1: nat,
                                      s2: Source, f2: Option<UploadedFile>, t2: nat, idStamp: nat)
    requires UploadOutcome(files, uploads, s1, f1, t1, idStamp).response.status == 200
    requires
      var first := UploadOutcome(files, uploads, s1, f1, t1, idStamp);
      UploadOutcome(first.files, first.uploads, s2, f2, t2, idStamp).response.status == 200
    ensures
      var first := UploadOutcome(files, uploads, s1, f1, t1, idStamp);
      var second := UploadOutcome(first.files, first.uploads, s2, f2, t2, idStamp);
      GetUserBooks(second.files, NewUserId(idStamp))
        == Response(200, JObj(map["books" := JArr(StoredRows(s2, f2.value.csv.rows))]))
  {
  }
}
