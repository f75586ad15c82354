/**
  The preloaded-data routes (server/routes/preloaded.js): three getters that
  serve the files the preload script writes, and the title autocomplete.
 */
module Preloaded {
  import opened JsValues
  import opened Seqs
  import opened Store

  // ---- the three getters ----

  datatype Kind = Books | ReadingDna | BookConnections

  function FileOf(kind: Kind): string {
    match kind
    case Books => PreloadedBooks
    case ReadingDna => PreloadedReadingDna
    case BookConnections => PreloadedConnections
  }

  function MissingMessage(kind: Kind): string {
    match kind
    case Books => "Preloaded books data not found"
    case ReadingDna => "Preloaded Reading DNA not found"
    case BookConnections => "Preloaded book connections not found"
  }

  /** GET `/books`, `/reading-dna` and `/book-connections`: the file as it is, or 404. */
  function GetPreloaded(files: map<string, Json>, kind: Kind): (res: Response)
    ensures FileOf(kind) !in files ==> res == Response(404, ErrorBody(MissingMessage(kind)))
    ensures FileOf(kind) in files ==> res == Response(200, files[FileOf(kind)])
  {
    if FileOf(kind) !in files then Response(404, ErrorBody(MissingMessage(kind)))
    else Response(200, files[FileOf(kind)])
  }

  // ---- search ----

  /** `req.query.q?.toLowerCase() || ''`. */
  function QueryOf(q: Option<string>): (query: string)
    ensures q.None? ==> query == ""
    ensures q.Some? ==> query == Lower(q.value)
  {
    if q.Some? then Lower(q.value) else ""
  }

  /**
    `(book.Title || book.title || '').toLowerCase()`: fails on a null book and
    on a truthy title that is not a string.
   */
  function SearchTitle(book: Json): (r: Result<string>)
    ensures book.JNull? ==> r.Err?
    ensures Truthy(Field(book, "Title")) && Field(book, "Title").value.JStr? ==>
      r == Ok(Lower(Field(book, "Title").value.s))
    ensures Truthy(Field(book, "Title")) && !Field(book, "Title").value.JStr? ==> r.Err?
    ensures !Truthy(Field(book, "Title")) && Truthy(Field(book, "title")) && Field(book, "title").value.JStr? ==>
      r == Ok(Lower(Field(book, "title").value.s))
    ensures !Truthy(Field(book, "Title")) && Truthy(Field(book, "title")) && !Field(book, "title").value.JStr? ==>
      r.Err?
    ensures !Truthy(Field(book, "Title")) && !Truthy(Field(book, "title")) && !book.JNull? ==> r == Ok("")
  {
    if book.JNull? then Err("Cannot read properties of null (reading 'Title')")
    else
      match Or(Or(Field(book, "Title"), Field(book, "title")), Some(JStr("")))
      case Some(JStr(t)) => Ok(Lower(t))
      case _ => Err("toLowerCase is not a function")
  }

  predicate Matches(query: string, book: Json) {
    SearchTitle(book).Ok? && Contains(SearchTitle(book).value, query)
  }

  function Matcher(query: string): Json -> bool {
    book => Matches(query, book)
  }

  /** `({ title: book.Title || book.title, author: book.Author || book.author })`. */
  function SearchResult(book: Json): (r: Json)
    ensures Field(r, "title") == Or(Field(book, "Title"), Field(book, "title"))
    ensures Field(r, "author") == Or(Field(book, "Author"), Field(book, "author"))
    ensures r.JObj? && r.fields.Keys <= {"title", "author"}
  {
    JObj(Put(Put(map[], "title", Or(Field(book, "Title"), Field(book, "title"))),
             "author", Or(Field(book, "Author"), Field(book, "author"))))
  }

  const SearchLimit := 10

  /**
    The filter, slice and map chain over a parsed array. The filter visits every
    element before the slice, so one element it cannot read fails the whole
    search, wherever that element is.
   */
  function SearchItems(books: seq<Json>, query: string): (r: Option<seq<Json>>)
    ensures r.Some? <==> forall i :: 0 <= i < |books| ==> SearchTitle(books[i]).Ok?
  {
    if forall i :: 0 <= i < |books| ==> SearchTitle(books[i]).Ok? then
      var hits := Take(Filter(books, Matcher(query)), SearchLimit);
      Some(seq(|hits|, i requires 0 <= i < |hits| => SearchResult(hits[i])))
    else None
  }

  const SearchFailed := Response(500, ErrorBody("Failed to search books"))

  /** The search once the data file has been parsed into `data`. */
  function SearchParsed(data: Json, query: string): Response {
    if !data.JArr? then SearchFailed
    else
      match SearchItems(data.items, query)
      case None => SearchFailed
      case Some(results) => Response(200, JArr(results))
  }

  /** GET `/search?q=`, as written: the parsed file itself is filtered. */
  function Search(files: map<string, Json>, q: Option<string>): (res: Response)
    ensures |QueryOf(q)| < 2 ==> res == Response(200, JArr([]))
    ensures |QueryOf(q)| >= 2 && PreloadedBooks !in files ==>
      res == Response(404, ErrorBody("Preloaded books data not found"))
    ensures |QueryOf(q)| >= 2 && PreloadedBooks in files && !files[PreloadedBooks].JArr? ==> res == SearchFailed
    ensures |QueryOf(q)| >= 2 && PreloadedBooks in files && files[PreloadedBooks].JArr? ==>
      var found := SearchItems(files[PreloadedBooks].items, QueryOf(q));
      && (found.Some? ==> res == Response(200, JArr(found.value)))
      && (found.None? ==> res == SearchFailed)
  {
    var query := QueryOf(q);
    if |query| < 2 then Response(200, JArr([]))
    else if PreloadedBooks !in files then Response(404, ErrorBody("Preloaded books data not found"))
    else SearchParsed(files[PreloadedBooks], query)
  }

  /** A short query never looks at the data directory at all. */
  lemma ShortQueryIgnoresFiles(files1: map<string, Json>, files2: map<string, Json>, q: Option<string>)
    requires |QueryOf(q)| < 2
    ensures Search(files1, q) == Search(files2, q)
  {
  }

  /**
    A successful search returns at most ten results; they are the first matches
    in file order, and each comes from a book whose lowercased title contains the
    query anywhere.
   */
  lemma SearchResultsAreFirstMatches(books: seq<Json>, query: string)
    requires SearchItems(books, query).Some?
    ensures var results := SearchItems(books, query).value;
      var hits := Filter(books, Matcher(query));
      && |results| == Min(SearchLimit, |hits|)
      && forall i :: 0 <= i < |results| ==>
           results[i] == SearchResult(hits[i]) && hits[i] in books
           && Contains(SearchTitle(hits[i]).value, query)
  {
    var hits := Filter(books, Matcher(query));
    FilterSound(books, Matcher(query));
    FilterMembers(books, Matcher(query));
    forall i | 0 <= i < |hits| ensures hits[i] in books && Matches(query, hits[i]) {
      assert Matcher(query)(hits[i]);
      assert hits[i] in hits;
    }
  }

  /** Every book whose title matches is found, unless ten earlier books matched first. */
  lemma SearchFindsEveryMatch(books: seq<Json>, query: string, book: Json)
    requires SearchItems(books, query).Some?
    requires book in books && Matches(query, book)
    requires |Filter(books, Matcher(query))| <= SearchLimit
    ensures SearchResult(book) in SearchItems(books, query).value
  {
    FilterMembers(books, Matcher(query));
    var hits := Filter(books, Matcher(query));
    assert Matcher(query)(book);
    var j :| 0 <= j < |hits| && hits[j] == book;
    assert SearchItems(books, query).value[j] == SearchResult(book);
  }

  /**
    The preload script stores an object, not an array; the search as written
    then answers 500 to every query of two characters or more.
   */
  lemma SearchFailsOnWrapper(files: map<string, Json>, q: Option<string>, wrapper: map<string, Json>)
    requires |QueryOf(q)| >= 2
    ensures Search(files[PreloadedBooks := JObj(wrapper)], q) == SearchFailed
  {
  }

  /** The search with `data.books || data`, the unwrap the recommendations route applies to the same file. */
  function SearchUnwrapped(files: map<string, Json>, q: Option<string>): (res: Response)
    ensures |QueryOf(q)| < 2 ==> res == Response(200, JArr([]))
    ensures |QueryOf(q)| >= 2 && PreloadedBooks !in files ==>
      res == Response(404, ErrorBody("Preloaded books data not found"))
  {
    var query := QueryOf(q);
    if |query| < 2 then Response(200, JArr([]))
    else if PreloadedBooks !in files then Response(404, ErrorBody("Preloaded books data not found"))
    else
      var data := files[PreloadedBooks];
      SearchParsed(Or(Field(data, "books"), Some(data)).value, query)
  }

  /**
    The corrected search serves a wrapper exactly as the written one serves the
    bare array inside it, and serves a bare array as the written one does.
   */
  lemma SearchUnwrappedServesBothShapes(files: map<string, Json>, q: Option<string>,
                                        books: seq<Json>, wrapper: map<string, Json>)
    requires "books" in wrapper && wrapper["books"] == JArr(books)
    ensures SearchUnwrapped(files[PreloadedBooks := JObj(wrapper)], q)
         == Search(files[PreloadedBooks := JArr(books)], q)
    ensures SearchUnwrapped(files[PreloadedBooks := JArr(books)], q)
         == Search(files[PreloadedBooks := JArr(books)], q)
  {
  }

  /** Rows stored as JSON always have string titles, so searching them never fails. */
  lemma RowsAreSearchable(rows: seq<Row>, query: string)
    ensures SearchItems(RowsJson(rows), query).Some?
  {
    forall i | 0 <= i < |rows| ensures SearchTitle(RowsJson(rows)[i]).Ok? {
      FieldOfRowJson(rows[i], "Title");
      FieldOfRowJson(rows[i], "title");
    }
  }
}
