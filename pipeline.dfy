/**
  Facts that span modules: what the stored collections look like to the
  generation gateway, how a recommendations answer travels from the model to
  the panel, and how the evaluator form and the evaluation route fit together.
 */
module Pipeline {
  import opened JsValues
  import opened Seqs
  import opened Store
  import Gateway
  import Upload
  import PreloadScript
  import Preloaded
  import RecommendationsRoute
  import RecommendationsView
  import BookEvaluatorView
  import EvaluationRoute

  /**
    A StoryGraph row marked read, without a column of its own named
    `Exclusive Shelf`, is stored on the read shelf and so reaches every
    generation context.
   */
  lemma StoryGraphReadRowIsRead(row: Row)
    requires "Exclusive Shelf" !in row && Cell(row, "Read Status") == Some("read")
    ensures Gateway.IsRead(Upload.StoredRow(Upload.StoryGraph, row))
  {
    FieldOfRowJson(Upload.NormalizeStoryGraph(row), "Exclusive Shelf");
  }

  /** Rows whose `Exclusive Shelf` is `read` all pass the gateway's read filter. */
  lemma ReadRowsPass(records: seq<Row>)
    requires forall i :: 0 <= i < |records| ==> Cell(records[i], "Exclusive Shelf") == Some("read")
    ensures Gateway.ReadBooks(JArr(RowsJson(records))) == Ok(RowsJson(records))
  {
    var books := RowsJson(records);
    forall i | 0 <= i < |books| ensures Gateway.IsRead(books[i]) && books[i] != JNull {
      FieldOfRowJson(records[i], "Exclusive Shelf");
    }
    FilterAll(books, Gateway.IsRead);
  }

  /** Every record of the preload script passes the gateway's read filter: no record is dropped. */
  lemma PreloadedBooksAllRead(rows: seq<Row>)
    ensures var books := RowsJson(PreloadScript.ParsedBooks(rows));
      Gateway.ReadBooks(JArr(books)) == Ok(books)
  {
    var records := PreloadScript.ParsedBooks(rows);
    PreloadScript.ParsedBooksAreReadRecords(rows);
    forall i | 0 <= i < |records| ensures Cell(records[i], "Exclusive Shelf") == Some("read") {
    }
    ReadRowsPass(records);
  }

  /** The recommendations route hands the generator the record list inside the script's wrapper. */
  lemma WrapperReachesRecommendations(books: seq<Row>, uploadDate: string)
    ensures RecommendationsRoute.BooksInput(PreloadScript.BooksWrapper(books, uploadDate))
         == Ok(JArr(RowsJson(books)))
  {
  }

  /**
    The search as written fails on the file the script writes, while the
    corrected search answers it as the written one answers the bare record list.
   */
  lemma SearchOnScriptOutput(files: map<string, Json>, books: seq<Row>, uploadDate: string, q: Option<string>)
    requires |Preloaded.QueryOf(q)| >= 2
    ensures Preloaded.Search(files[PreloadedBooks := PreloadScript.BooksWrapper(books, uploadDate)], q)
         == Preloaded.SearchFailed
    ensures Preloaded.SearchUnwrapped(files[PreloadedBooks := PreloadScript.BooksWrapper(books, uploadDate)], q)
         == Preloaded.Search(files[PreloadedBooks := JArr(RowsJson(books))], q)
    ensures Preloaded.SearchUnwrapped(files[PreloadedBooks := PreloadScript.BooksWrapper(books, uploadDate)], q)
         .status == 200
  {
    var w := PreloadScript.BooksWrapper(books, uploadDate);
    Preloaded.SearchFailsOnWrapper(files, q, w.fields);
    Preloaded.SearchUnwrappedServesBothShapes(files, q, RowsJson(books), w.fields);
    Preloaded.RowsAreSearchable(books, Preloaded.QueryOf(q));
  }

  /**
    Whether the model answers with a bare list or with `{recommendations: [...]}`,
    the gateway's unwrap followed by the panel's unwrap gives that same list.
    The recommendations route calls the generator of a service module that is
    not part of this model; this lemma covers the gateway's generator only.
   */
  lemma RecommendationsReachPanel(xs: seq<Json>)
    ensures var wrapped := JObj(map["recommendations" := JArr(xs)]);
      && RecommendationsView.Unwrap(Some(Gateway.UnwrapRecommendations(wrapped))) == Ok(JArr(xs))
      && RecommendationsView.Unwrap(Some(Gateway.UnwrapRecommendations(JArr(xs)))) == Ok(JArr(xs))
  {
    Gateway.UnwrapBothShapes(xs);
  }

  /**
    A title the form sends always passes the route's title check, and the
    author the route uses is the typed one or 'Unknown Author' when none was typed.
   */
  lemma FormRequestsPassTitleCheck(bookTitle: string, bookAuthor: string)
    requires BookEvaluatorView.HandleEvaluate(bookTitle, bookAuthor).Sent?
    ensures var s := BookEvaluatorView.HandleEvaluate(bookTitle, bookAuthor);
      && PresentText(Some(s.bookTitle))
      && EvaluationRoute.AuthorOrDefault(s.bookAuthor)
           == if bookAuthor == "" then EvaluationRoute.UnknownAuthor else bookAuthor
  {
  }
}
