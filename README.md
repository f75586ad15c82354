# Reading DNA: a verified model of the data-shaping core

Reading DNA imports a reader's Goodreads or StoryGraph export. It asks a language model for a
"Reading DNA" profile, recommendations, a connection graph between the books, and evaluations of
single titles. This project models the sequential logic around those calls, in Dafny. The parts are:

- **Ingestion.** The upload file filter, StoryGraph row normalisation, storing a collection, and
  reading it back.
- **Preload script.** The read-shelf filter, the nine-column record, the wrapper file, and the order
  of the script's steps.
- **Generation gateway.** The read filter, the context slices of 100, 30 and 50 books, the
  title/author projections, the recommendations envelope, and the fixed failure messages.
- **Routes.** The analysis, recommendations, evaluation and preloaded-data routes, as operations on
  the `data/` directory.
- **Client helpers.** The recommendations unwrap, the connection list and node colours of the graph
  panel, and the evaluator's title check and score colours.

How the system is represented:

- **JSON.** Values are a `Json` datatype. A CSV row is a `map<string, string>`. A property whose
  value is `undefined` is an absent key, which is what `JSON.stringify` writes.
- **JavaScript semantics.** `a || b`, truthiness, property reads, object spread, `.length`, `trim`,
  `includes` and `endsWith` are written out in `JsValues`.
- **The data directory.** It is the class `Store.DataDir`, with a map of JSON files and a set of
  temporary uploads. Every writing handler is a method whose new state and response equal a pure
  outcome function. The properties are lemmas about those functions.
- **Inputs from outside.**
  - The model call together with `JSON.parse` is an uninterpreted function `Gateway.Llm`. Its answer
    None stands for a throw.
  - Clock readings are numeric parameters.
  - The generators of the service module that `recommendations.js`, `evaluation.js` and the preload
    script import are function parameters.

## Model

| member | source | states |
|---|---|---|
| `Store.DataDir.WriteFile` | server/routes/upload.js:57 | writing a file replaces exactly that file |
| `Store.DataDir.Unlink` | server/routes/upload.js:60 | removing a temporary upload removes exactly that one |
| `Store.KeysDistinct` | server/routes/analysis.js:21-33 | books, DNA, connections and recommendations file names never coincide, for any two user ids, and none of them is a preloaded file name |
| `Store.KeysInjective` | server/routes/analysis.js:32 | a profile or graph file name determines the reader it belongs to |
| `Upload.FileAcceptedIff` | server/routes/upload.js:26-30 | the filter predicate `FileAccepted` holds iff the mimetype is `text/csv` or the name is some stem followed by `.csv` |
| `Upload.NormalizeStoryGraph` | server/routes/upload.js:96-103 | every original column survives with its value; only the five canonical keys are added; a canonical key the row lacks is its first fallback column if non-empty, else the second |
| `Upload.NormalizeIdempotent` | server/routes/upload.js:96-103 | normalising a normalised row changes nothing |
| `Upload.CollectRows` | server/routes/upload.js:44-51 | the pushed list has one stored row per parsed row, in order |
| `Upload.UploadOutcome` | server/routes/upload.js:38-131 | no file gives 400 and writes nothing; a rejected file gives the middleware's 500 and writes nothing; a stream error gives 500 and leaves the temporary file; success writes `<id>_books.json` with `id = user_<stamp>`, removes the temporary file, and reports the row count; 200 iff a CSV file parsed |
| `Upload.HandleUpload` | server/routes/upload.js:38-131 | the handler's response and new directory state are those of `UploadOutcome` |
| `Upload.GetUserBooks` | server/routes/upload.js:137-152 | 404 `User data not found` iff no books file; otherwise 200 with exactly `{books: <stored value>}` |
| `Upload.UploadThenRead` | server/routes/upload.js:140-147 | after a successful upload, the read returns exactly the stored list |
| `Upload.GoodreadsStoredUnchanged` | server/routes/upload.js:44-57 | a Goodreads collection has one element per row, in order, and each reads back as its row |
| `Upload.StoryGraphKeepsColumns` | server/routes/upload.js:96-111 | every column of a StoryGraph row is stored with its original value |
| `Upload.SameMillisecondUploadsCollide` | server/routes/upload.js:54-57 | two uploads with the same clock reading share an id; the second collection replaces the first |
| `PreloadScript.PreloadRecord` | scripts/generatePreloadedData.js:18-28 | a record has exactly the nine keys, with `Title`/`Author` only when the row has them; the defaults `0`, empty, `0`, `0`, `1` apply to missing or empty cells; `Year Published` prefers `Original Publication Year`; the shelf is `read` |
| `PreloadScript.ParseGoodreadsRows` | scripts/generatePreloadedData.js:8-37 | the pushed list is one record per row on the read shelf, in file order |
| `PreloadScript.ParsedBooksAreReadRecords` | scripts/generatePreloadedData.js:15-28 | every record is on the read shelf, has no other columns, and there are at most as many records as rows |
| `PreloadScript.ParsedBooksConcat` | scripts/generatePreloadedData.js:15-18 | records keep file order: parsing a split file gives the concatenated lists |
| `PreloadScript.ParsedBooksFromReadRows` | scripts/generatePreloadedData.js:15-18 | every read row has its record; every record comes from a read row; the list is empty iff no row is read |
| `PreloadScript.BooksWrapper` | scripts/generatePreloadedData.js:94-98 | the wrapper has exactly `userId = default-user`, `books` = the parsed list, and `uploadDate` |
| `PreloadScript.SaveBooksData` | scripts/generatePreloadedData.js:89-103 | writes the wrapper to `preloaded-books.json` and nothing else |
| `PreloadScript.ReportedCount` | scripts/generatePreloadedData.js:139 | a missing or falsy `nodes`/`links` is reported as 0, an array as its length; a null result throws |
| `PreloadScript.PreloadRun` | scripts/generatePreloadedData.js:106-152 | steps run in order and exit at the first failure, keeping the files written so far; the run completes iff parsing and both generators succeed and the graph is not null; the summary's book count is the number of records, and its `nodes` and `links` are the graph's counts as the summary line reports them |
| `PreloadScript.Run` | scripts/generatePreloadedData.js:106-152 | the script's final files and status are those of `PreloadRun` |
| `PreloadScript.BooksFileWrittenFirst` | scripts/generatePreloadedData.js:113-127 | once parsing succeeds, the books wrapper is on disk whatever the generators do |
| `Gateway.ReadBooks` | server/services/openaiService.js:11-13 | succeeds iff the books are an array without null; the result is the in-order filter of the books whose `shelf` or `Exclusive Shelf` is `read`, so it holds exactly those books |
| `Gateway.ReadBooksConcat` | server/services/openaiService.js:11-13 | the read filter keeps stored order: a split list filters to the concatenation of the two parts' results |
| `Gateway.ProfileEntryFields` | server/services/openaiService.js:15-20 | the profile entry's title, author, rating and dateRead are the capitalised column when truthy, else the lower-case one |
| `Gateway.TitleAuthorFields` | server/services/openaiService.js:68-71 | title and author are the capitalised column when truthy, else the lower-case one |
| `Gateway.ProfileContext` | server/services/openaiService.js:15-20 | exactly min(100, read books) entries, the first read books in stored order |
| `Gateway.RecommendationContext` | server/services/openaiService.js:64-71 | min(30, read books) entries, sliced after filtering |
| `Gateway.ConnectionContext` | server/services/openaiService.js:164-171 | min(50, read books) entries, sliced after filtering |
| `Gateway.GenerateReadingDna` | server/services/openaiService.js:10-58 | a filter error escapes unchanged; success is the parsed answer to the profile request; a failed call gives the fixed message |
| `Gateway.UnwrapRecommendations` | server/services/openaiService.js:110-111 | `recommendations` when truthy, otherwise the parsed value |
| `Gateway.UnwrapBothShapes` | server/services/openaiService.js:110-111 | a wrapped list and the bare list unwrap to the same list, and unwrapping is then stable |
| `Gateway.GenerateRecommendations` | server/services/openaiService.js:63-116 | fails with the fixed message iff the call fails or parses to null; otherwise the unwrapped answer |
| `Gateway.EvaluateBook` | server/services/openaiService.js:121-158 | the parsed answer to the evaluation request, or the fixed message |
| `Gateway.EvaluateIgnoresUserBooks` | server/services/openaiService.js:121-143 | the result does not depend on the user's books |
| `Gateway.GenerateBookConnections` | server/services/openaiService.js:163-207 | a filter error escapes unchanged; success is the parsed answer to the connections request; a failed call gives the fixed message |
| `Gateway.ContextsIgnoreUnreadBooks` | server/services/openaiService.js:11-20 | unread books inserted anywhere change none of the three contexts |
| `Gateway.ReadFilterIgnoresUnread` | server/services/openaiService.js:64-66 | the read filter is unchanged by unread books inserted anywhere |
| `Preloaded.GetPreloaded` | server/routes/preloaded.js:9-61 | each getter returns 404 with its own message when its file is missing, otherwise the file unchanged |
| `Preloaded.QueryOf` | server/routes/preloaded.js:68 | a missing `q` is empty; otherwise it is lowercased |
| `Preloaded.SearchTitle` | server/routes/preloaded.js:85 | a null book fails; a truthy string `Title` is lowercased; otherwise a truthy string `title` is lowercased; a truthy operand that is not a string fails; a book with neither title has the empty title |
| `Preloaded.SearchResult` | server/routes/preloaded.js:89-92 | each result is `{title: Title or title, author: Author or author}` and nothing else |
| `Preloaded.SearchItems` | server/routes/preloaded.js:83-92 | the chain succeeds iff every book's title can be read |
| `Preloaded.Search` | server/routes/preloaded.js:66-99 | a query under 2 characters gives `[]`; a missing file gives 404; a parsed file that is not an array gives 500; an array gives 200 with the filter, slice and map chain's results, or 500 when one of its books cannot be read |
| `Preloaded.ShortQueryIgnoresFiles` | server/routes/preloaded.js:70-72 | a short query gives the same answer whatever the data directory holds |
| `Preloaded.SearchResultsAreFirstMatches` | server/routes/preloaded.js:83-92 | min(10, matches) results, the first matches in file order, each a book whose lowercased title contains the query |
| `Preloaded.SearchFindsEveryMatch` | server/routes/preloaded.js:84-88 | with at most 10 matches, every matching book is in the results |
| `Preloaded.SearchFailsOnWrapper` | server/routes/preloaded.js:80-98 | on an object-shaped file, every query of 2 or more characters gets 500 |
| `Preloaded.SearchUnwrapped` | server/routes/preloaded.js:66-84 | the corrected search keeps the short-query and missing-file answers |
| `Preloaded.SearchUnwrappedServesBothShapes` | server/routes/preloaded.js:80-84 | the corrected search answers a wrapper as the written one answers the array inside it, and answers a bare array unchanged |
| `Preloaded.RowsAreSearchable` | server/routes/preloaded.js:85 | stored rows never make the search fail |
| `Analysis.PostOutcome` | server/routes/analysis.js:12-101 | a missing id gives 400, then a missing books file gives 404, both without writing; past those checks, a successful generation gives 200 with `success` and the artifact and writes the artifact file, and a failed one gives 500 with its message and writes nothing |
| `Analysis.Post` | server/routes/analysis.js:12-101 | the handler's response and new directory are those of `PostOutcome` |
| `Analysis.Get` | server/routes/analysis.js:49-122 | 404 with the artifact's message iff nothing was generated; otherwise 200 with exactly `{<field>: <stored artifact>}` |
| `Analysis.PostThenGet` | server/routes/analysis.js:33-59 | after a successful POST, the GET returns the value the POST answered with |
| `Analysis.LastWriteWins` | server/routes/analysis.js:32-33 | after two POSTs, the GET returns the second result |
| `Analysis.PostKeepsOtherFiles` | server/routes/analysis.js:32-33 | a POST leaves every books file, every recommendations file, the preloaded files, every other reader's profile and graph, and the reader's artifact of the other kind unchanged |
| `Analysis.PostIgnoresPreloaded` | server/routes/analysis.js:21-24 | a preloaded books file does not change the answer: only the user's own books are used |
| `RecommendationsRoute.BooksInput` | server/routes/recommendations.js:44 | `books` when truthy, else the file itself; a null file throws |
| `RecommendationsRoute.BooksInputBothShapes` | server/routes/recommendations.js:43-44 | the wrapper and the bare array give the same list |
| `RecommendationsRoute.GenerateOutcome` | server/routes/recommendations.js:12-61 | 400 for a missing id; 404 when the chosen books source is missing, checked before the DNA source; past those checks, a null books file or a failed generation gives 500 with its message and writes nothing, and a successful one gives 200 and writes the result under the requesting id |
| `RecommendationsRoute.Generate` | server/routes/recommendations.js:12-61 | the handler with its reassigned paths ends with exactly the response and directory of `GenerateOutcome` |
| `RecommendationsRoute.Get` | server/routes/recommendations.js:67-82 | 404 iff nothing was generated; otherwise 200 with exactly `{recommendations: <saved value>}` |
| `RecommendationsRoute.GenerateThenGet` | server/routes/recommendations.js:50-77 | after a generate, the GET returns the generated recommendations |
| `RecommendationsRoute.PreloadedTakesPrecedence` | server/routes/recommendations.js:20-30 | with preloaded books and DNA present, the user's own files do not affect the answer, and the result is still saved under the user's id |
| `EvaluationRoute.AuthorOrDefault` | server/routes/evaluation.js:36 | a missing or empty author becomes `Unknown Author` |
| `EvaluationRoute.Evaluate` | server/routes/evaluation.js:12-50 | 400 when id or title is missing, then books 404, then DNA 404; past those checks the evaluator gets the title, the defaulted author, the DNA and the books; its success gives 200 with `success` and the merged evaluation, and its failure gives 500 with its message |
| `EvaluationRoute.MergedFields` | server/routes/evaluation.js:38-45 | in the merged answer `Merged`, `bookTitle` and `bookAuthor` come from the request unless the evaluation has the same field, which wins; every evaluation field is kept |
| `EvaluationRoute.MissingAuthorDefaults` | server/routes/evaluation.js:36-42 | a missing author, an empty author and `Unknown Author` give the same answer |
| `RecommendationsView.Unwrap` | client/src/components/Recommendations.js:21-23 | an array is used as is; an object gives its truthy `recommendations` or `[]`; undefined or null throws |
| `RecommendationsView.CheckExisting` | client/src/components/Recommendations.js:18-29 | a good answer installs the unwrapped list; any failure leaves the panel unchanged |
| `RecommendationsView.ErrorText` | client/src/components/Recommendations.js:43 | the server's `error` field when it is truthy, otherwise the fallback message; either way the shown error is truthy |
| `RecommendationsView.AfterGenerate` | client/src/components/Recommendations.js:31-47 | a good answer installs the list and clears the error; a failure keeps the list and sets the error |
| `RecommendationsView.CallSitesAgree` | client/src/components/Recommendations.js:21-39 | both call sites install the same list for the same answer |
| `RecommendationsView.GeneratePromptOnEmpty` | client/src/components/Recommendations.js:58 | the prompt test `ShowsGenerate`: a list is shown iff it is non-empty; an object without `recommendations` shows the prompt |
| `BookConnectionsView.MatchesById` | client/src/components/BookConnections.js:108-114 | an endpoint matches iff its id, as a string or as a node's id, is the selected one |
| `BookConnectionsView.ListedIffIncident` | client/src/components/BookConnections.js:108-114 | the filter `Incident` lists a link iff its source or target is the selected node |
| `BookConnectionsView.ItemsKeepOrder` | client/src/components/BookConnections.js:108-115 | the list `ConnectionItems` keeps the order of `connections.links` |
| `BookConnectionsView.OtherEndIsTheOtherBook` | client/src/components/BookConnections.js:116-119 | the shown book `OtherEnd` is an endpoint of the link, and is the selected node iff the link is a self-loop |
| `BookConnectionsView.NodeColor` | client/src/components/BookConnections.js:80-89 | a group whose lowercased name is in the six-entry table gets its colour; any other or missing group gets `#999` |
| `BookConnectionsView.NodeColorIgnoresCase` | client/src/components/BookConnections.js:89 | the colour does not depend on the case of the group |
| `BookEvaluatorView.HandleEvaluate` | client/src/components/BookEvaluator.js:14-31 | refused with `Please enter a book title` iff the title is all whitespace; otherwise sent as typed, with an empty author sent as undefined |
| `BookEvaluatorView.MatchScoreColor` | client/src/components/BookEvaluator.js:41-45 | for a numeric score: `#00C49F` iff at least 8, `#FFBB28` iff 6 to below 8, `#FF8042` iff below 6; a score that compares false to both bounds gets `#FF8042` |
| `BookEvaluatorView.BandsMonotone` | client/src/components/BookEvaluator.js:41-45 | raising a score never moves it to a lower band |
| `Pipeline.StoryGraphReadRowIsRead` | server/routes/upload.js:96-103 | a StoryGraph row marked read, without its own `Exclusive Shelf`, passes the gateway's read filter |
| `Pipeline.PreloadedBooksAllRead` | scripts/generatePreloadedData.js:17-28 | the gateway's read filter keeps every preloaded record |
| `Pipeline.WrapperReachesRecommendations` | server/routes/recommendations.js:44 | the recommendations route gets the record list out of the script's wrapper |
| `Pipeline.SearchOnScriptOutput` | server/routes/preloaded.js:80-84 | on the script's output, the written search gives 500 and the corrected one answers 200 |
| `Pipeline.RecommendationsReachPanel` | client/src/components/Recommendations.js:21-23 | the gateway's unwrap followed by the panel's unwrap gives the same list for both answer shapes of the model |
| `Pipeline.FormRequestsPassTitleCheck` | client/src/components/BookEvaluator.js:17-31 | every title the form sends passes the route's title check, and the author arrives as typed or as `Unknown Author` |

## Left out

- The chat-completion client, its request options beyond model and temperature, and all prompt
  wording. A prompt is modelled by the data it embeds.
- `server/services/aiService.js` is not part of this model. Its three generators are parameters of
  the recommendations route, the evaluation route and the preload script, so nothing is proved about
  their results.
- CSV parsing (`csv-parser`), multer's disk storage, and directory creation. An upload is the list of
  rows the parser emitted and whether the stream failed.
- `Date.now()` and `new Date().toISOString()`. They are parameters. Nothing the code does makes ids
  unique, so no uniqueness is claimed.
- Malformed JSON on disk. Files hold parsed values, so the 500 branches that catch a failed
  `JSON.parse` of a stored file are not modelled.
- Request fields that are not strings, such as a numeric `userId` or a repeated `q`. Body and query
  fields are an optional string.
- `toLowerCase` is modelled on ASCII letters only.
- Strings are sequences of Unicode scalar values, not of UTF-16 code units. `length`, `slice` and `includes` differ from the model on text outside the Basic Multilingual Plane. For example, the query `😀` has length 2 in JavaScript and is searched, while the model counts one character and answers `[]`.
- BookEvaluatorView.MatchScoreColor: takes a numeric score or none. A score given as a numeric string, such as `"9"`, is coerced by JavaScript and coloured by its value, which the model does not capture.
- Pipeline.RecommendationsReachPanel: composes the gateway's unwrap with the panel's. The recommendations route's own generator belongs to the service module that is not part of this model, so the route is assumed to hand on a list unwrapped the way the gateway's is.
- BookConnectionsView.NodeColor: takes a string group or none. A group that is not a string makes `toLowerCase` throw in the source, which the model does not capture.
- Lookups that reach `Object.prototype`, such as a group named `constructor` in the colour table, are
  not modelled.
- Object key order and the pretty-printing of stored JSON.
- `path.join` normalisation: ids containing path separators are not modelled, and a file name is the
  id followed by its suffix.
- Node ids that are not strings, and missing link endpoints, in the graph panel.
- The rate limiter and server bootstrap, the React rendering, loading flags, the parent callbacks
  (`onRecommendationsGenerated`), and axios itself.
- Concurrency: two simultaneous requests for the same id are not modelled.
- Logging and `process.exit`.
- PreloadScript.PreloadRun: does not model the error text `main` prints before exiting, only that it
  exits.
- BookEvaluatorView.HandleEvaluate: the `userId` sent with the request is not part of the modelled
  submission.

## Findings

| source | as written | input that shows it | evidently intended | confidence | as-written member | corrected member |
|---|---|---|---|---|---|---|
| server/routes/preloaded.js:80-84 | `/search` calls `.filter` on the parsed `preloaded-books.json` | the file the preload script writes, `{userId, books, uploadDate}` (scripts/generatePreloadedData.js:94-98), and `q=ab`: the filter throws and the route answers 500 `Failed to search books` | read `books.books \|\| books` first, as server/routes/recommendations.js:44 does for the same file | not executed | `Preloaded.SearchFailsOnWrapper` | `Preloaded.SearchUnwrapped` |
