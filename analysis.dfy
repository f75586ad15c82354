/**
  The analysis routes (server/routes/analysis.js): generate a reader's Reading
  DNA profile or connection graph from their uploaded books, store it, and
  serve it back. The two artifacts are handled by the same steps with
  different generators, file names and response fields.
 */
module Analysis {
  import opened JsValues
  import opened Store
  import Gateway

  datatype Artifact = ReadingDna | BookConnections

  function ArtifactKey(kind: Artifact, userId: string): string {
    match kind
    case ReadingDna => DnaKey(userId)
    case BookConnections => ConnectionsKey(userId)
  }

  /** The response field that carries the artifact. */
  function FieldName(kind: Artifact): string {
    match kind
    case ReadingDna => "readingDNA"
    case BookConnections => "connections"
  }

  function NotGeneratedMessage(kind: Artifact): string {
    match kind
    case ReadingDna => "Reading DNA not found. Please generate it first."
    case BookConnections => "Book connections not found. Please generate them first."
  }

  function Generate(kind: Artifact, llm: Gateway.Llm, books: Json): Result<Json> {
    match kind
    case ReadingDna => Gateway.GenerateReadingDna(llm, books)
    case BookConnections => Gateway.GenerateBookConnections(llm, books)
  }

  /**
    POST `/reading-dna` and `/book-connections`: the id check, then the books
    file check, then generation; the artifact is written only once generation
    has succeeded.
   */
  function PostOutcome(files: map<string, Json>, kind: Artifact, llm: Gateway.Llm, userId: Option<string>): (o: Outcome)
    ensures !PresentText(userId) ==> o == Outcome(Response(400, ErrorBody("User ID is required")), files)
    ensures PresentText(userId) && BooksKey(userId.value) !in files ==>
      o == Outcome(Response(404, ErrorBody("User data not found")), files)
    ensures o.response.status == 200 ==>
      && PresentText(userId) && BooksKey(userId.value) in files
      && var made := Generate(kind, llm, files[BooksKey(userId.value)]);
      && made.Ok?
      && o.files == files[ArtifactKey(kind, userId.value) := made.value]
      && o.response.body == JObj(map["success" := JBool(true), FieldName(kind) := made.value])
    ensures o.response.status != 200 ==> o.files == files
    ensures PresentText(userId) && BooksKey(userId.value) in files ==>
      (o.response.status == 500 <==> Generate(kind, llm, files[BooksKey(userId.value)]).Err?)
    ensures PresentText(userId) && BooksKey(userId.value) in files ==>
      var made := Generate(kind, llm, files[BooksKey(userId.value)]);
      && (made.Ok? ==>
            o == Outcome(Response(200, JObj(map["success" := JBool(true), FieldName(kind) := made.value])),
                         files[ArtifactKey(kind, userId.value) := made.value]))
      && (made.Err? ==> o == Outcome(Response(500, ErrorBody(made.message)), files))
  {
    if !PresentText(userId) then Outcome(Response(400, ErrorBody("User ID is required")), files)
    else
      var uid := userId.value;
      if BooksKey(uid) !in files then Outcome(Response(404, ErrorBody("User data not found")), files)
      else
        match Generate(kind, llm, files[BooksKey(uid)])
        case Err(message) => Outcome(Response(500, ErrorBody(message)), files)
        case Ok(artifact) =>
          Outcome(Response(200, JObj(map["success" := JBool(true), FieldName(kind) := artifact])),
                  files[ArtifactKey(kind, uid) := artifact])
  }

  /** The POST handler against the data directory. */
  method Post(dir: DataDir, kind: Artifact, llm: Gateway.Llm, userId: Option<string>) returns (res: Response)
    modifies dir`files
    ensures Outcome(res, dir.files) == PostOutcome(old(dir.files), kind, llm, userId)
  {
    if !PresentText(userId) {
      return Response(400, ErrorBody("User ID is required"));
    }
    var uid := userId.value;
    if BooksKey(uid) !in dir.files {
      return Response(404, ErrorBody("User data not found"));
    }
    var books := dir.files[BooksKey(uid)];
    var made := Generate(kind, llm, books);
    if made.Err? {
      return Response(500, ErrorBody(made.message));
    }
    dir.WriteFile(ArtifactKey(kind, uid), made.value);
    res := Response(200, JObj(map["success" := JBool(true), FieldName(kind) := made.value]));
  }

  /** GET `/reading-dna/:userId` and `/book-connections/:userId`. */
  function Get(files: map<string, Json>, kind: Artifact, userId: string): (res: Response)
    ensures ArtifactKey(kind, userId) !in files <==> res == Response(404, ErrorBody(NotGeneratedMessage(kind)))
    ensures ArtifactKey(kind, userId) in files ==>
      res.status == 200 && Field(res.body, FieldName(kind)) == Some(files[ArtifactKey(kind, userId)])
    ensures ArtifactKey(kind, userId) in files ==>
      res == Response(200, JObj(map[FieldName(kind) := files[ArtifactKey(kind, userId)]]))
  {
    if ArtifactKey(kind, userId) !in files then Response(404, ErrorBody(NotGeneratedMessage(kind)))
    else Response(200, JObj(map[FieldName(kind) := files[ArtifactKey(kind, userId)]]))
  }

  /** After a successful POST, the GET for the same reader returns exactly what the POST answered with. */
  lemma PostThenGet(files: map<string, Json>, kind: Artifact, llm: Gateway.Llm, userId: Option<string>)
    requires PostOutcome(files, kind, llm, userId).response.status == 200
    ensures var o := PostOutcome(files, kind, llm, userId);
      Field(Get(o.files, kind, userId.value).body, FieldName(kind)) == Field(o.response.body, FieldName(kind))
      && Get(o.files, kind, userId.value).status == 200
  {
  }

  /** Regenerating replaces the stored artifact: the GET returns the newest one. */
  lemma LastWriteWins(files: map<string, Json>, kind: Artifact, llm1: Gateway.Llm, llm2: Gateway.Llm,
                      userId: Option<string>)
    requires PostOutcome(files, kind, llm1, userId).response.status == 200
    requires PostOutcome(PostOutcome(files, kind, llm1, userId).files, kind, llm2, userId).response.status == 200
    ensures var second := PostOutcome(PostOutcome(files, kind, llm1, userId).files, kind, llm2, userId);
      Get(second.files, kind, userId.value)
        == Response(200, JObj(map[FieldName(kind) := Generate(kind, llm2, files[BooksKey(userId.value)]).value]))
  {
    var first := PostOutcome(files, kind, llm1, userId);
    KeysDistinct(userId.value, userId.value);
    assert first.files[BooksKey(userId.value)] == files[BooksKey(userId.value)];
  }

  /**
    A POST touches no file but its own artifact: every reader's books and
    recommendations, every other reader's profile and graph, the reader's
    artifact of the other kind and the preloaded files are as they were.
   */
  lemma PostKeepsOtherFiles(files: map<string, Json>, kind: Artifact, llm: Gateway.Llm,
                            userId: Option<string>, other: string)
    ensures var o := PostOutcome(files, kind, llm, userId);
      forall k :: k in {BooksKey(other), RecommendationsKey(other), PreloadedBooks, PreloadedReadingDna,
                        PreloadedConnections} ==>
        (k in o.files <==> k in files) && (k in files ==> o.files[k] == files[k])
    ensures var o := PostOutcome(files, kind, llm, userId);
      !(PresentText(userId) && other == userId.value) ==>
        forall k :: k in {DnaKey(other), ConnectionsKey(other)} ==>
          (k in o.files <==> k in files) && (k in files ==> o.files[k] == files[k])
    ensures var o := PostOutcome(files, kind, llm, userId);
      PresentText(userId) ==>
        forall kind2 :: kind2 != kind ==>
          var k := ArtifactKey(kind2, userId.value);
          (k in o.files <==> k in files) && (k in files ==> o.files[k] == files[k])
  {
    if PresentText(userId) {
      KeysDistinct(other, userId.value);
      KeysDistinct(userId.value, other);
      KeysDistinct(userId.value, userId.value);
      KeysInjective(other, userId.value);
    }
  }

  /** Only the reader's own books are consulted: a preloaded books file changes nothing. */
  lemma PostIgnoresPreloaded(files: map<string, Json>, kind: Artifact, llm: Gateway.Llm,
                             userId: Option<string>, preloaded: Json)
    ensures PostOutcome(files[PreloadedBooks := preloaded], kind, llm, userId).response
         == PostOutcome(files, kind, llm, userId).response
  {
    if PresentText(userId) {
      KeysDistinct(userId.value, userId.value);
    }
  }
}
