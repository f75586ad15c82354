/**
  The evaluation route (server/routes/evaluation.js): checks the request, reads
  the reader's books and profile, asks for an evaluation of one book and merges
  it into the answer. It reads the data directory and never writes it.

  The evaluator comes from a service module that is not part of this model; it
  is a parameter here.
 */
module EvaluationRoute {
  import opened JsValues
  import opened Store

  /** `evaluateBook(bookTitle, bookAuthor, readingDNA, books)` of the unseen service module. */
  type Evaluator = (string, string, Json, Json) -> Result<Json>

  const UnknownAuthor := "Unknown Author"

  /** `bookAuthor || 'Unknown Author'`. */
  function AuthorOrDefault(bookAuthor: Option<string>): (a: string)
    ensures PresentText(bookAuthor) ==> a == bookAuthor.value
    ensures !PresentText(bookAuthor) ==> a == UnknownAuthor
  {
    if PresentText(bookAuthor) then bookAuthor.value else UnknownAuthor
  }

  /** `{ bookTitle, bookAuthor, ...evaluation }`: the evaluation's own fields win. */
  function Merged(bookTitle: string, bookAuthor: string, evaluation: Json): Json {
    JObj(map["bookTitle" := JStr(bookTitle), "bookAuthor" := JStr(bookAuthor)] + Spread(evaluation))
  }

  /** POST `/evaluate`. */
  function Evaluate(files: map<string, Json>, evaluate: Evaluator, userId: Option<string>,
                    bookTitle: Option<string>, bookAuthor: Option<string>): (res: Response)
    ensures !PresentText(userId) || !PresentText(bookTitle) ==>
      res == Response(400, ErrorBody("User ID and book title are required"))
    ensures PresentText(userId) && PresentText(bookTitle) && BooksKey(userId.value) !in files ==>
      res == Response(404, ErrorBody("User data not found"))
    ensures PresentText(userId) && PresentText(bookTitle) && BooksKey(userId.value) in files
            && DnaKey(userId.value) !in files ==>
      res == Response(404, ErrorBody("Reading DNA not found. Please generate it first."))
    ensures res.status == 200 ==>
      && PresentText(userId) && PresentText(bookTitle)
      && BooksKey(userId.value) in files && DnaKey(userId.value) in files
      && var made := evaluate(bookTitle.value, AuthorOrDefault(bookAuthor),
                              files[DnaKey(userId.value)], files[BooksKey(userId.value)]);
      && made.Ok?
      && res.body == JObj(map["success" := JBool(true),
                              "evaluation" := Merged(bookTitle.value, AuthorOrDefault(bookAuthor), made.value)])
    ensures PresentText(userId) && PresentText(bookTitle)
            && BooksKey(userId.value) in files && DnaKey(userId.value) in files ==>
      var made := evaluate(bookTitle.value, AuthorOrDefault(bookAuthor),
                           files[DnaKey(userId.value)], files[BooksKey(userId.value)]);
      && (made.Ok? ==>
            res == Response(200, JObj(map["success" := JBool(true),
                                          "evaluation" := Merged(bookTitle.value, AuthorOrDefault(bookAuthor),
                                                                 made.value)])))
      && (made.Err? ==> res == Response(500, ErrorBody(made.message)))
  {
    if !PresentText(userId) || !PresentText(bookTitle) then
      Response(400, ErrorBody("User ID and book title are required"))
    else
      var uid := userId.value;
      if BooksKey(uid) !in files then Response(404, ErrorBody("User data not found"))
      else if DnaKey(uid) !in files then Response(404, ErrorBody("Reading DNA not found. Please generate it first."))
      else
        var author := AuthorOrDefault(bookAuthor);
        match evaluate(bookTitle.value, author, files[DnaKey(uid)], files[BooksKey(uid)])
        case Err(message) => Response(500, ErrorBody(message))
        case Ok(evaluation) =>
          Response(200, JObj(map["success" := JBool(true),
                                 "evaluation" := Merged(bookTitle.value, author, evaluation)]))
  }

  /**
    The answered `bookTitle` and `bookAuthor` are the request's (with the author
    defaulted), unless the evaluation carries a field of the same name, which
    then replaces it; every field of an evaluation object is kept.
   */
  lemma MergedFields(bookTitle: string, bookAuthor: string, evaluation: Json)
    ensures var m := Merged(bookTitle, bookAuthor, evaluation);
      && Field(m, "bookTitle") == (if evaluation.JObj? && "bookTitle" in evaluation.fields
                                   then Some(evaluation.fields["bookTitle"]) else Some(JStr(bookTitle)))
      && Field(m, "bookAuthor") == (if evaluation.JObj? && "bookAuthor" in evaluation.fields
                                    then Some(evaluation.fields["bookAuthor"]) else Some(JStr(bookAuthor)))
      && (evaluation.JObj? ==> forall k :: k in evaluation.fields ==> Field(m, k) == Some(evaluation.fields[k]))
  {
    if !evaluation.JObj? {
      assert "bookTitle"[0] == 'b' && "bookAuthor"[0] == 'b';
    }
  }

  /** A missing or empty author reaches the evaluator and the answer as 'Unknown Author'. */
  lemma MissingAuthorDefaults(files: map<string, Json>, evaluate: Evaluator, userId: Option<string>,
                              bookTitle: Option<string>)
    ensures Evaluate(files, evaluate, userId, bookTitle, None) == Evaluate(files, evaluate, userId, bookTitle, Some(""))
    ensures Evaluate(files, evaluate, userId, bookTitle, None)
         == Evaluate(files, evaluate, userId, bookTitle, Some(UnknownAuthor))
  {
  }
}
