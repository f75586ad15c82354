/**
  The preload script (scripts/generatePreloadedData.js): it reads the bundled
  Goodreads export, keeps the books on the read shelf as nine-column records,
  saves them in a wrapper object, then generates and saves the Reading DNA
  profile and the connection graph.

  The two generators come from a service module that is not part of this
  model; they are parameters here.
 */
module PreloadScript {
  import opened JsValues
  import opened Seqs
  import opened Store
  import Upload

  /** `row['Exclusive Shelf'] === 'read'`. */
  predicate OnReadShelf(row: Row) {
    Cell(row, "Exclusive Shelf") == Some("read")
  }

  /** `v || d` for a cell and a literal default. */
  function Fallback(v: Option<string>, d: string): (r: string)
    ensures v.Some? && v.value != "" ==> r == v.value
    ensures v.None? || v.value == "" ==> r == d
  {
    if v.Some? && v.value != "" then v.value else d
  }

  const RecordKeys: set<string> := {"Title", "Author", "My Rating", "Date Read", "Average Rating",
                                    "Number of Pages", "Year Published", "Read Count", "Exclusive Shelf"}

  /**
    The record pushed for a read row. `Title` and `Author` are copied without a
    default, so a row lacking one of them yields a record lacking it.
   */
  function PreloadRecord(row: Row): (r: Row)
    ensures forall k :: k in r <==> k in RecordKeys && (k == "Title" || k == "Author" ==> k in row)
    ensures "Title" in row ==> r["Title"] == row["Title"]
    ensures "Author" in row ==> r["Author"] == row["Author"]
    ensures r["My Rating"] == Fallback(Cell(row, "My Rating"), "0")
    ensures r["Date Read"] == Fallback(Cell(row, "Date Read"), "")
    ensures r["Average Rating"] == Fallback(Cell(row, "Average Rating"), "0")
    ensures r["Number of Pages"] == Fallback(Cell(row, "Number of Pages"), "0")
    ensures r["Year Published"]
         == Fallback(OrText(Cell(row, "Original Publication Year"), Cell(row, "Year Published")), "")
    ensures r["Read Count"] == Fallback(Cell(row, "Read Count"), "1")
    ensures r["Exclusive Shelf"] == "read"
  {
    var defaults := map[
      "My Rating" := Fallback(Cell(row, "My Rating"), "0"),
      "Date Read" := Fallback(Cell(row, "Date Read"), ""),
      "Average Rating" := Fallback(Cell(row, "Average Rating"), "0"),
      "Number of Pages" := Fallback(Cell(row, "Number of Pages"), "0"),
      "Year Published" := Fallback(OrText(Cell(row, "Original Publication Year"), Cell(row, "Year Published")), ""),
      "Read Count" := Fallback(Cell(row, "Read Count"), "1"),
      "Exclusive Shelf" := "read"];
    var withTitle := if "Title" in row then defaults["Title" := row["Title"]] else defaults;
    if "Author" in row then withTitle["Author" := row["Author"]] else withTitle
  }

  /** The list `parseGoodreadsCSV` resolves with: one record per read row, in file order. */
  function ParsedBooks(rows: seq<Row>): seq<Row> {
    Map(Filter(rows, OnReadShelf), PreloadRecord)
  }

  lemma ParsedBooksSnoc(rows: seq<Row>, row: Row)
    ensures ParsedBooks(rows + [row])
         == ParsedBooks(rows) + (if OnReadShelf(row) then [PreloadRecord(row)] else [])
  {
    FilterSnoc(rows, row, OnReadShelf);
  }

  /** The `data` handler of `parseGoodreadsCSV`, pushing a record for each read row. */
  method ParseGoodreadsRows(rows: seq<Row>) returns (books: seq<Row>)
    ensures books == ParsedBooks(rows)
  {
    books := [];
    for i := 0 to |rows|
      invariant books == ParsedBooks(rows[..i])
    {
      assert rows[..i + 1] == rows[..i] + [rows[i]];
      ParsedBooksSnoc(rows[..i], rows[i]);
      if OnReadShelf(rows[i]) {
        books := books + [PreloadRecord(rows[i])];
      }
    }
    assert rows[..|rows|] == rows;
  }

  /** Every record is on the read shelf and has no column beyond the nine. */
  lemma ParsedBooksAreReadRecords(rows: seq<Row>)
    ensures forall i :: 0 <= i < |ParsedBooks(rows)| ==>
      ParsedBooks(rows)[i]["Exclusive Shelf"] == "read" && ParsedBooks(rows)[i].Keys <= RecordKeys
    ensures |ParsedBooks(rows)| <= |rows|
  {
    FilterSound(rows, OnReadShelf);
  }

  /** Records follow file order: splitting the file splits the list at the same place. */
  lemma ParsedBooksConcat(a: seq<Row>, b: seq<Row>)
    ensures ParsedBooks(a + b) == ParsedBooks(a) + ParsedBooks(b)
  {
    FilterConcat(a, b, OnReadShelf);
    MapConcat(Filter(a, OnReadShelf), Filter(b, OnReadShelf), PreloadRecord);
  }

  /**
    Every read row is represented in the list, every record comes from a read
    row, and the list is empty exactly when no row is on the read shelf.
   */
  lemma ParsedBooksFromReadRows(rows: seq<Row>, row: Row)
    ensures row in rows && OnReadShelf(row) ==> PreloadRecord(row) in ParsedBooks(rows)
    ensures forall r :: r in ParsedBooks(rows) ==> exists src :: src in rows && OnReadShelf(src) && r == PreloadRecord(src)
    ensures ParsedBooks(rows) == [] <==> forall i :: 0 <= i < |rows| ==> !OnReadShelf(rows[i])
  {
    var kept := Filter(rows, OnReadShelf);
    FilterMembers(rows, OnReadShelf);
    MapMembers(kept, PreloadRecord);
    FilterEmpty(rows, OnReadShelf);
    if row in rows && OnReadShelf(row) {
      assert row in kept;
    }
    forall r | r in ParsedBooks(rows)
      ensures exists src :: src in rows && OnReadShelf(src) && r == PreloadRecord(src)
    {
      var src :| src in kept && r == PreloadRecord(src);
      assert src in rows && OnReadShelf(src);
    }
    assert |ParsedBooks(rows)| == |kept|;
  }

  /** `saveBooksData`'s `userData`, the shape of `preloaded-books.json`. */
  function BooksWrapper(books: seq<Row>, uploadDate: string): (w: Json)
    ensures w.JObj? && w.fields.Keys == {"userId", "books", "uploadDate"}
    ensures Field(w, "userId") == Some(JStr("default-user"))
    ensures Field(w, "books") == Some(JArr(RowsJson(books)))
    ensures Field(w, "uploadDate") == Some(JStr(uploadDate))
  {
    JObj(map["userId" := JStr("default-user"), "books" := JArr(RowsJson(books)), "uploadDate" := JStr(uploadDate)])
  }

  /** `saveBooksData`: `uploadDate` is the ISO time the script was run at. */
  method SaveBooksData(dir: DataDir, books: seq<Row>, uploadDate: string)
    modifies dir`files
    ensures dir.files == old(dir.files)[PreloadedBooks := BooksWrapper(books, uploadDate)]
  {
    dir.WriteFile(PreloadedBooks, BooksWrapper(books, uploadDate));
  }

  /**
    `connections.k ? connections.k.length : 0` in the summary line. A missing
    or falsy `k` is reported as 0; a `k` without a length prints as undefined
    (None); a null result throws.
   */
  function ReportedCount(connections: Json, k: string): (r: Result<Option<Json>>)
    ensures r.Err? <==> connections.JNull?
    ensures r.Ok? && !Truthy(Field(connections, k)) ==> r.value == Some(JNum(0.0))
    ensures r.Ok? && Field(connections, k).Some? && Field(connections, k).value.JArr? ==>
      r.value == Some(JNum(|Field(connections, k).value.items| as real))
  {
    if connections.JNull? then Err("Cannot read properties of null (reading '" + k + "')")
    else
      var v := Field(connections, k);
      if Truthy(v) then Ok(LengthOf(v.value)) else Ok(Some(JNum(0.0)))
  }

  datatype Summary = Summary(bookCount: nat, nodes: Option<Json>, links: Option<Json>)

  /** How the script ends: the summary it prints, or `process.exit(1)`. */
  datatype RunStatus = Completed(summary: Summary) | Exited

  datatype RunOutcome = RunOutcome(status: RunStatus, files: map<string, Json>)

  /**
    The four steps of `main`, each writing its file before the next one runs, so
    a failing step leaves the files of the earlier steps behind.
   */
  function PreloadRun(files: map<string, Json>, csv: Upload.CsvStream, uploadDate: string,
                      genDna: Json -> Result<Json>, genConnections: Json -> Result<Json>): (o: RunOutcome)
    ensures csv.failed ==> o == RunOutcome(Exited, files)
    ensures !csv.failed ==>
      var books := ParsedBooks(csv.rows);
      var input := JArr(RowsJson(books));
      var saved := files[PreloadedBooks := BooksWrapper(books, uploadDate)];
      && (genDna(input).Err? ==> o == RunOutcome(Exited, saved))
      && (genDna(input).Ok? && genConnections(input).Err? ==>
            o == RunOutcome(Exited, saved[PreloadedReadingDna := genDna(input).value]))
      && (genDna(input).Ok? && genConnections(input).Ok? ==>
            o.files == saved[PreloadedReadingDna := genDna(input).value]
                            [PreloadedConnections := genConnections(input).value])
    ensures o.status.Completed? <==>
      !csv.failed
      && var input := JArr(RowsJson(ParsedBooks(csv.rows)));
      genDna(input).Ok? && genConnections(input).Ok? && !genConnections(input).value.JNull?
    ensures o.status.Completed? ==> o.status.summary.bookCount == |ParsedBooks(csv.rows)|
    ensures o.status.Completed? ==>
      var graph := genConnections(JArr(RowsJson(ParsedBooks(csv.rows)))).value;
      && ReportedCount(graph, "nodes") == Ok(o.status.summary.nodes)
      && ReportedCount(graph, "links") == Ok(o.status.summary.links)
  {
    if csv.failed then RunOutcome(Exited, files)
    else
      var books := ParsedBooks(csv.rows);
      var input := JArr(RowsJson(books));
      var saved := files[PreloadedBooks := BooksWrapper(books, uploadDate)];
      match genDna(input)
      case Err(_) => RunOutcome(Exited, saved)
      case Ok(dna) =>
        var withDna := saved[PreloadedReadingDna := dna];
        match genConnections(input)
        case Err(_) => RunOutcome(Exited, withDna)
        case Ok(connections) =>
          var all := withDna[PreloadedConnections := connections];
          var nodes := ReportedCount(connections, "nodes");
          var links := ReportedCount(connections, "links");
          if nodes.Err? || links.Err? then RunOutcome(Exited, all)
          else RunOutcome(Completed(Summary(|books|, nodes.value, links.value)), all)
  }

  /** `main`, with the read stream's rows, the clock and both generators as inputs. */
  method Run(dir: DataDir, csv: Upload.CsvStream, uploadDate: string,
             genDna: Json -> Result<Json>, genConnections: Json -> Result<Json>) returns (status: RunStatus)
    modifies dir`files
    ensures RunOutcome(status, dir.files) == PreloadRun(old(dir.files), csv, uploadDate, genDna, genConnections)
  {
    if csv.failed {
      return Exited;
    }
    var books := ParseGoodreadsRows(csv.rows);
    SaveBooksData(dir, books, uploadDate);
    var input := JArr(RowsJson(books));
    var dna := genDna(input);
    if dna.Err? {
      return Exited;
    }
    dir.WriteFile(PreloadedReadingDna, dna.value);
    var connections := genConnections(input);
    if connections.Err? {
      return Exited;
    }
    dir.WriteFile(PreloadedConnections, connections.value);
    var nodes := ReportedCount(connections.value, "nodes");
    var links := ReportedCount(connections.value, "links");
    if nodes.Err? || links.Err? {
      return Exited;
    }
    status := Completed(Summary(|books|, nodes.value, links.value));
  }

  /** Whatever the generators do, a run that gets past parsing leaves the books file as the wrapper. */
  lemma BooksFileWrittenFirst(files: map<string, Json>, csv: Upload.CsvStream, uploadDate: string,
                              genDna: Json -> Result<Json>, genConnections: Json -> Result<Json>)
    requires !csv.failed
    ensures var o := PreloadRun(files, csv, uploadDate, genDna, genConnections);
      PreloadedBooks in o.files && o.files[PreloadedBooks] == BooksWrapper(ParsedBooks(csv.rows), uploadDate)
  {
    KeysOfPreloadedDiffer();
  }

  lemma KeysOfPreloadedDiffer()
    ensures PreloadedBooks != PreloadedReadingDna && PreloadedBooks != PreloadedConnections
    ensures PreloadedReadingDna != PreloadedConnections
  {
    assert |PreloadedBooks| == 20 && |PreloadedReadingDna| == 26 && |PreloadedConnections| == 31;
  }
}
