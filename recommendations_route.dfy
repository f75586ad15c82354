/**
  The recommendations routes (server/routes/recommendations.js). Generation
  prefers the preloaded dataset over the reader's own files, choosing the
  books source and the profile source independently, and always stores the
  result under the requesting reader's id.

  The generator comes from a service module that is not part of this model; it
  is a parameter here.
 */
module RecommendationsRoute {
  import opened JsValues
  import opened Store

  /** `generateRecommendations(books, readingDNA)` of the unseen service module. */
  type Generator = (Json, Json) -> Result<Json>

  /** The books file the handler reads: the preloaded one when it exists. */
  function BooksSource(files: map<string, Json>, userId: string): string {
    if PreloadedBooks in files then PreloadedBooks else BooksKey(userId)
  }

  /** The profile file the handler reads, chosen by the same rule, independently. */
  function DnaSource(files: map<string, Json>, userId: string): string {
    if PreloadedReadingDna in files then PreloadedReadingDna else DnaKey(userId)
  }

  /**
    `booksData.books || booksData`: the list inside the preload wrapper, or the
    parsed file itself; reading `.books` of a null file throws.
   */
  function BooksInput(booksData: Json): (r: Result<Json>)
    ensures r.Err? <==> booksData.JNull?
    ensures Truthy(Field(booksData, "books")) ==> r == Ok(booksData.fields["books"])
    ensures !booksData.JNull? && !Truthy(Field(booksData, "books")) ==> r == Ok(booksData)
  {
    if booksData.JNull? then Err("Cannot read properties of null (reading 'books')")
    else Ok(Or(Field(booksData, "books"), Some(booksData)).value)
  }

  /** The wrapper the preload script writes and a bare uploaded array give the generator the same list. */
  lemma BooksInputBothShapes(items: seq<Json>, wrapper: map<string, Json>)
    requires "books" in wrapper && wrapper["books"] == JArr(items)
    ensures BooksInput(JObj(wrapper)) == Ok(JArr(items))
    ensures BooksInput(JArr(items)) == Ok(JArr(items))
  {
  }

  function Success(recommendations: Json): Json {
    JObj(map["success" := JBool(true), "recommendations" := recommendations])
  }

  /** POST `/generate`. */
  function GenerateOutcome(files: map<string, Json>, gen: Generator, userId: Option<string>): (o: Outcome)
    ensures !PresentText(userId) ==> o == Outcome(Response(400, ErrorBody("User ID is required")), files)
    ensures PresentText(userId) && BooksSource(files, userId.value) !in files ==>
      o == Outcome(Response(404, ErrorBody("User data not found")), files)
    ensures PresentText(userId) && BooksSource(files, userId.value) in files
            && DnaSource(files, userId.value) !in files ==>
      o == Outcome(Response(404, ErrorBody("Reading DNA not found. Please generate it first.")), files)
    ensures o.response.status != 200 ==> o.files == files
    ensures o.response.status == 200 ==>
      && PresentText(userId)
      && var uid := userId.value;
      && BooksSource(files, uid) in files && DnaSource(files, uid) in files
      && var input := BooksInput(files[BooksSource(files, uid)]);
      && input.Ok?
      && var made := gen(input.value, files[DnaSource(files, uid)]);
      && made.Ok?
      && o.files == files[RecommendationsKey(uid) := made.value]
      && o.response.body == Success(made.value)
    ensures PresentText(userId) && BooksSource(files, userId.value) in files
            && DnaSource(files, userId.value) in files ==>
      var uid := userId.value;
      var input := BooksInput(files[BooksSource(files, uid)]);
      && (input.Err? ==> o == Outcome(Response(500, ErrorBody(input.message)), files))
      && (input.Ok? ==>
            var made := gen(input.value, files[DnaSource(files, uid)]);
            && (made.Err? ==> o == Outcome(Response(500, ErrorBody(made.message)), files))
            && (made.Ok? ==>
                  o == Outcome(Response(200, Success(made.value)), files[RecommendationsKey(uid) := made.value])))
  {
    if !PresentText(userId) then Outcome(Response(400, ErrorBody("User ID is required")), files)
    else
      var uid := userId.value;
      var booksPath := BooksSource(files, uid);
      var dnaPath := DnaSource(files, uid);
      if booksPath !in files then Outcome(Response(404, ErrorBody("User data not found")), files)
      else if dnaPath !in files then
        Outcome(Response(404, ErrorBody("Reading DNA not found. Please generate it first.")), files)
      else
        match BooksInput(files[booksPath])
        case Err(message) => Outcome(Response(500, ErrorBody(message)), files)
        case Ok(books) =>
          match gen(books, files[dnaPath])
          case Err(message) => Outcome(Response(500, ErrorBody(message)), files)
          case Ok(recommendations) =>
            Outcome(Response(200, Success(recommendations)), files[RecommendationsKey(uid) := recommendations])
  }

  /** The handler with its `let booksPath` and `let dnaPath` fallbacks. */
  method Generate(dir: DataDir, gen: Generator, userId: Option<string>) returns (res: Response)
    modifies dir`files
    ensures Outcome(res, dir.files) == GenerateOutcome(old(dir.files), gen, userId)
  {
    if !PresentText(userId) {
      return Response(400, ErrorBody("User ID is required"));
    }
    var uid := userId.value;
    var booksPath := PreloadedBooks;
    var dnaPath := PreloadedReadingDna;
    if booksPath !in dir.files {
      booksPath := BooksKey(uid);
    }
    if dnaPath !in dir.files {
      dnaPath := DnaKey(uid);
    }
    if booksPath !in dir.files {
      return Response(404, ErrorBody("User data not found"));
    }
    if dnaPath !in dir.files {
      return Response(404, ErrorBody("Reading DNA not found. Please generate it first."));
    }
    var booksData := dir.files[booksPath];
    var readingDna := dir.files[dnaPath];
    var books := BooksInput(booksData);
    if books.Err? {
      return Response(500, ErrorBody(books.message));
    }
    var made := gen(books.value, readingDna);
    if made.Err? {
      return Response(500, ErrorBody(made.message));
    }
    dir.WriteFile(RecommendationsKey(uid), made.value);
    res := Response(200, Success(made.value));
  }

  /** GET `/:userId`. */
  function Get(files: map<string, Json>, userId: string): (res: Response)
    ensures RecommendationsKey(userId) !in files
        <==> res == Response(404, ErrorBody("Recommendations not found. Please generate them first."))
    ensures RecommendationsKey(userId) in files ==>
      res.status == 200 && Field(res.body, "recommendations") == Some(files[RecommendationsKey(userId)])
    ensures RecommendationsKey(userId) in files ==>
      res == Response(200, JObj(map["recommendations" := files[RecommendationsKey(userId)]]))
  {
    if RecommendationsKey(userId) !in files then
      Response(404, ErrorBody("Recommendations not found. Please generate them first."))
    else Response(200, JObj(map["recommendations" := files[RecommendationsKey(userId)]]))
  }

  /** After a generate, the GET returns the same recommendations the generate answered with. */
  lemma GenerateThenGet(files: map<string, Json>, gen: Generator, userId: Option<string>)
    requires GenerateOutcome(files, gen, userId).response.status == 200
    ensures var o := GenerateOutcome(files, gen, userId);
      Get(o.files, userId.value) == Response(200, JObj(map["recommendations" :=
        o.response.body.fields["recommendations"]]))
  {
  }

  /**
    With a preloaded dataset present, the reader's own books and profile are
    never read: replacing them changes nothing in the answer, and the result is
    still stored under the reader's id.
   */
  lemma PreloadedTakesPrecedence(files: map<string, Json>, gen: Generator, userId: string,
                                 ownBooks: Json, ownDna: Json)
    requires PreloadedBooks in files && PreloadedReadingDna in files
    ensures var changed := files[BooksKey(userId) := ownBooks][DnaKey(userId) := ownDna];
      GenerateOutcome(changed, gen, Some(userId)).response == GenerateOutcome(files, gen, Some(userId)).response
    ensures GenerateOutcome(files, gen, Some(userId)).response.status == 200 ==>
      RecommendationsKey(userId) in GenerateOutcome(files, gen, Some(userId)).files
  {
    KeysDistinct(userId, userId);
  }
}
