/**
  The generation gateway (server/services/openaiService.js): four operations
  that each cut a bounded slice out of the reader's books, build a prompt from
  it, ask the chat-completion service for a JSON answer and parse it.

  The service call together with `JSON.parse` of its first choice is the
  uninterpreted function `Llm`, which answers None when either one throws. A
  prompt is modelled by the structured data it embeds; its wording is not.
 */
module Gateway {
  import opened JsValues
  import opened Seqs

  datatype Prompt =
    | ProfilePrompt(books: seq<Json>)
    | RecommendationsPrompt(readingDna: Json, recentBooks: seq<Json>)
    | EvaluationPrompt(bookTitle: Json, bookAuthor: Json, readingDna: Json)
    | ConnectionsPrompt(books: seq<Json>)

  /** One `openai.chat.completions.create` call with a JSON response format. */
  datatype Request = Request(model: string, temperature: real, prompt: Prompt)

  type Llm = Request -> Option<Json>

  const Model := "gpt-4"

  const ProfileFailure := "Failed to generate Reading DNA profile"
  const RecommendationsFailure := "Failed to generate recommendations"
  const EvaluationFailure := "Failed to evaluate book"
  const ConnectionsFailure := "Failed to generate book connections"

  const ProfileCap: nat := 100
  const RecommendationCap: nat := 30
  const ConnectionCap: nat := 50

  /** `book.shelf === 'read' || book['Exclusive Shelf'] === 'read'` on a non-null book. */
  predicate IsRead(book: Json) {
    Field(book, "shelf") == Some(JStr("read")) || Field(book, "Exclusive Shelf") == Some(JStr("read"))
  }

  /**
    `books.filter(isRead)`. It runs before each generator's `try`, so the
    TypeError it throws on a non-array or on a null element escapes as is.
   */
  function ReadBooks(books: Json): (r: Result<seq<Json>>)
    ensures r.Ok? <==> books.JArr? && JNull !in books.items
    ensures r.Ok? ==> forall b :: b in r.value <==> b in books.items && IsRead(b)
    ensures r.Ok? ==> forall i :: 0 <= i < |r.value| ==> IsRead(r.value[i])
    ensures r.Ok? ==> r.value == Filter(books.items, IsRead)
  {
    if books == JNull then Err("Cannot read properties of null (reading 'filter')")
    else if !books.JArr? then Err("books.filter is not a function")
    else if JNull in books.items then Err("Cannot read properties of null (reading 'shelf')")
    else
      FilterMembers(books.items, IsRead);
      FilterSound(books.items, IsRead);
      Ok(Filter(books.items, IsRead))
  }

  /** `book[upper] || book[lower]`. */
  function Pick(book: Json, upper: string, lower: string): Option<Json> {
    Or(Field(book, upper), Field(book, lower))
  }

  /** One entry of the profile prompt. */
  function ProfileEntry(book: Json): Json {
    var m := Put(map[], "title", Pick(book, "Title", "title"));
    var m := Put(m, "author", Pick(book, "Author", "author"));
    var m := Put(m, "rating", Pick(book, "My Rating", "rating"));
    JObj(Put(m, "dateRead", Pick(book, "Date Read", "dateRead")))
  }

  /** One entry of the recommendation and connection prompts. */
  function TitleAuthor(book: Json): Json {
    JObj(Put(Put(map[], "title", Pick(book, "Title", "title")), "author", Pick(book, "Author", "author")))
  }

  /** Each profile field is the capitalised column when truthy, otherwise the lower-case one. */
  lemma ProfileEntryFields(book: Json)
    ensures Field(ProfileEntry(book), "title") == Or(Field(book, "Title"), Field(book, "title"))
    ensures Field(ProfileEntry(book), "author") == Or(Field(book, "Author"), Field(book, "author"))
    ensures Field(ProfileEntry(book), "rating") == Or(Field(book, "My Rating"), Field(book, "rating"))
    ensures Field(ProfileEntry(book), "dateRead") == Or(Field(book, "Date Read"), Field(book, "dateRead"))
    ensures ProfileEntry(book).fields.Keys <= {"title", "author", "rating", "dateRead"}
  {
  }

  lemma TitleAuthorFields(book: Json)
    ensures Field(TitleAuthor(book), "title") == Or(Field(book, "Title"), Field(book, "title"))
    ensures Field(TitleAuthor(book), "author") == Or(Field(book, "Author"), Field(book, "author"))
    ensures TitleAuthor(book).fields.Keys <= {"title", "author"}
  {
  }

  /** `readBooks.slice(0, 100).map(...)`: the first read books, in stored order. */
  function ProfileContext(items: seq<Json>): (ctx: seq<Json>)
    ensures |ctx| == Min(ProfileCap, |Filter(items, IsRead)|)
    ensures forall i :: 0 <= i < |ctx| ==> ctx[i] == ProfileEntry(Filter(items, IsRead)[i])
  {
    var kept := Take(Filter(items, IsRead), ProfileCap);
    seq(|kept|, i requires 0 <= i < |kept| => ProfileEntry(kept[i]))
  }

  /** `readBooks.slice(0, 30).map(...)`: sliced after filtering. */
  function RecommendationContext(items: seq<Json>): (ctx: seq<Json>)
    ensures |ctx| == Min(RecommendationCap, |Filter(items, IsRead)|)
    ensures forall i :: 0 <= i < |ctx| ==> ctx[i] == TitleAuthor(Filter(items, IsRead)[i])
  {
    var kept := Take(Filter(items, IsRead), RecommendationCap);
    seq(|kept|, i requires 0 <= i < |kept| => TitleAuthor(kept[i]))
  }

  /** `books.filter(...).slice(0, 50)` mapped to title and author. */
  function ConnectionContext(items: seq<Json>): (ctx: seq<Json>)
    ensures |ctx| == Min(ConnectionCap, |Filter(items, IsRead)|)
    ensures forall i :: 0 <= i < |ctx| ==> ctx[i] == TitleAuthor(Filter(items, IsRead)[i])
  {
    var kept := Take(Filter(items, IsRead), ConnectionCap);
    seq(|kept|, i requires 0 <= i < |kept| => TitleAuthor(kept[i]))
  }

  function ProfileRequest(items: seq<Json>): Request {
    Request(Model, 0.7, ProfilePrompt(ProfileContext(items)))
  }

  function RecommendationsRequest(items: seq<Json>, readingDna: Json): Request {
    Request(Model, 0.8, RecommendationsPrompt(readingDna, RecommendationContext(items)))
  }

  function EvaluationRequest(bookTitle: Json, bookAuthor: Json, readingDna: Json): Request {
    Request(Model, 0.7, EvaluationPrompt(bookTitle, bookAuthor, readingDna))
  }

  function ConnectionsRequest(items: seq<Json>): Request {
    Request(Model, 0.6, ConnectionsPrompt(ConnectionContext(items)))
  }

  /** `generateReadingDNA(books)`. */
  function GenerateReadingDna(llm: Llm, books: Json): (r: Result<Json>)
    ensures ReadBooks(books).Err? ==> r == Err(ReadBooks(books).message)
    ensures r.Ok? ==> books.JArr? && llm(ProfileRequest(books.items)) == Some(r.value)
    ensures ReadBooks(books).Ok? && r.Err? ==>
      r.message == ProfileFailure && llm(ProfileRequest(books.items)).None?
  {
    match ReadBooks(books)
    case Err(m) => Err(m)
    case Ok(_) =>
      match llm(ProfileRequest(books.items))
      case Some(parsed) => Ok(parsed)
      case None => Err(ProfileFailure)
  }

  /** `result.recommendations || result`. */
  function UnwrapRecommendations(parsed: Json): (r: Json)
    ensures Truthy(Field(parsed, "recommendations")) ==> r == parsed.fields["recommendations"]
    ensures !Truthy(Field(parsed, "recommendations")) ==> r == parsed
  {
    Or(Field(parsed, "recommendations"), Some(parsed)).value
  }

  /** A wrapped list and the bare list unwrap to the same list, whether empty or not. */
  lemma UnwrapBothShapes(xs: seq<Json>)
    ensures UnwrapRecommendations(JObj(map["recommendations" := JArr(xs)])) == JArr(xs)
    ensures UnwrapRecommendations(JArr(xs)) == JArr(xs)
    ensures UnwrapRecommendations(UnwrapRecommendations(JArr(xs))) == JArr(xs)
  {
  }

  /**
    `generateRecommendations(books, readingDNA)`. Reading `.recommendations`
    of a parsed `null` throws inside the `try`, so it fails like the call.
   */
  function GenerateRecommendations(llm: Llm, books: Json, readingDna: Json): (r: Result<Json>)
    ensures ReadBooks(books).Err? ==> r == Err(ReadBooks(books).message)
    ensures r.Ok? ==> books.JArr? && exists parsed ::
      llm(RecommendationsRequest(books.items, readingDna)) == Some(parsed) && parsed != JNull
      && r.value == UnwrapRecommendations(parsed)
    ensures ReadBooks(books).Ok? && r.Err? ==> r.message == RecommendationsFailure
    ensures ReadBooks(books).Ok? ==>
      (r.Err? <==> llm(RecommendationsRequest(books.items, readingDna)) in {None, Some(JNull)})
  {
    match ReadBooks(books)
    case Err(m) => Err(m)
    case Ok(_) =>
      match llm(RecommendationsRequest(books.items, readingDna))
      case Some(parsed) =>
        if parsed == JNull then Err(RecommendationsFailure) else Ok(UnwrapRecommendations(parsed))
      case None => Err(RecommendationsFailure)
  }

  /** `evaluateBook(bookTitle, bookAuthor, readingDNA, userBooks)`. */
  function EvaluateBook(llm: Llm, bookTitle: Json, bookAuthor: Json, readingDna: Json, userBooks: Json): (r: Result<Json>)
    ensures r.Ok? ==> llm(EvaluationRequest(bookTitle, bookAuthor, readingDna)) == Some(r.value)
    ensures r.Err? ==>
      r.message == EvaluationFailure && llm(EvaluationRequest(bookTitle, bookAuthor, readingDna)).None?
  {
    match llm(EvaluationRequest(bookTitle, bookAuthor, readingDna))
    case Some(parsed) => Ok(parsed)
    case None => Err(EvaluationFailure)
  }

  /** The evaluation never looks at the reader's books. */
  lemma EvaluateIgnoresUserBooks(llm: Llm, bookTitle: Json, bookAuthor: Json, readingDna: Json, books1: Json, books2: Json)
    ensures EvaluateBook(llm, bookTitle, bookAuthor, readingDna, books1)
         == EvaluateBook(llm, bookTitle, bookAuthor, readingDna, books2)
  {
  }

  /** `generateBookConnections(books)`. */
  function GenerateBookConnections(llm: Llm, books: Json): (r: Result<Json>)
    ensures ReadBooks(books).Err? ==> r == Err(ReadBooks(books).message)
    ensures r.Ok? ==> books.JArr? && llm(ConnectionsRequest(books.items)) == Some(r.value)
    ensures ReadBooks(books).Ok? && r.Err? ==>
      r.message == ConnectionsFailure && llm(ConnectionsRequest(books.items)).None?
  {
    match ReadBooks(books)
    case Err(m) => Err(m)
    case Ok(_) =>
      match llm(ConnectionsRequest(books.items))
      case Some(parsed) => Ok(parsed)
      case None => Err(ConnectionsFailure)
  }

  /**
    Which books reach a prompt depends only on the read books, in order: books
    that are not read can be added anywhere without changing any context.
   */
  lemma ContextsIgnoreUnreadBooks(a: seq<Json>, b: seq<Json>, unread: seq<Json>)
    requires forall i :: 0 <= i < |unread| ==> !IsRead(unread[i])
    ensures ProfileContext(a + unread + b) == ProfileContext(a + b)
    ensures RecommendationContext(a + unread + b) == RecommendationContext(a + b)
    ensures ConnectionContext(a + unread + b) == ConnectionContext(a + b)
  {
    ReadFilterIgnoresUnread(a, b, unread);
  }

  /** The read filter keeps the stored order: filtering a split list gives the concatenated results. */
  lemma ReadBooksConcat(a: seq<Json>, b: seq<Json>)
    requires JNull !in a && JNull !in b
    ensures ReadBooks(JArr(a + b)) == Ok(ReadBooks(JArr(a)).value + ReadBooks(JArr(b)).value)
  {
    FilterConcat(a, b, IsRead);
  }

  lemma ReadFilterIgnoresUnread(a: seq<Json>, b: seq<Json>, unread: seq<Json>)
    requires forall i :: 0 <= i < |unread| ==> !IsRead(unread[i])
    ensures Filter(a + unread + b, IsRead) == Filter(a + b, IsRead)
  {
    FilterConcat(a + unread, b, IsRead);
    FilterConcat(a, unread, IsRead);
    FilterConcat(a, b, IsRead);
    FilterNone(unread);
    assert Filter(a + unread, IsRead) == Filter(a, IsRead);
  }

  lemma {:induction false} FilterNone(s: seq<Json>)
    requires forall i :: 0 <= i < |s| ==> !IsRead(s[i])
    ensures Filter(s, IsRead) == []
    decreases |s|
  {
    if s != [] {
      FilterNone(s[..|s| - 1]);
    }
  }
}
