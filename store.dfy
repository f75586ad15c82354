/**
  The server's `data/` directory, in which every route keeps its artifacts as
  one JSON file per (user, kind) pair plus the shared preloaded files, and the
  HTTP response every handler ends in.
 */
module Store {
  import opened JsValues

  /** `res.status(status).json(body)`. */
  datatype Response = Response(status: int, body: Json)

  /** What a writing handler leaves behind: its response and the new directory. */
  datatype Outcome = Outcome(response: Response, files: map<string, Json>)

  /** The data directory. `fs.existsSync` is membership, `JSON.parse(fs.readFileSync)` lookup. */
  class DataDir {
    /** The JSON files directly under `data`, by file name. */
    var files: map<string, Json>
    /** The temporary files multer writes under `data/uploads`, one per upload. */
    var uploads: set<string>

    constructor (files: map<string, Json>, uploads: set<string>)
      ensures this.files == files && this.uploads == uploads
    {
      this.files := files;
      this.uploads := uploads;
    }

    /** `fs.writeFileSync(name, JSON.stringify(content))`: replaces whatever was there. */
    method WriteFile(name: string, content: Json)
      modifies this`files
      ensures files == old(files)[name := content]
    {
      files := files[name := content];
    }

    /** `fs.unlinkSync` of a temporary upload. */
    method Unlink(name: string)
      modifies this`uploads
      ensures uploads == old(uploads) - {name}
    {
      uploads := uploads - {name};
    }
  }

  const PreloadedBooks := "preloaded-books.json"
  const PreloadedReadingDna := "preloaded-reading-dna.json"
  const PreloadedConnections := "preloaded-book-connections.json"

  function BooksKey(userId: string): string { userId + "_books.json" }
  function DnaKey(userId: string): string { userId + "_dna.json" }
  function ConnectionsKey(userId: string): string { userId + "_connections.json" }
  function RecommendationsKey(userId: string): string { userId + "_recommendations.json" }

  /** Two file names whose endings differ k characters from the end are different names. */
  lemma SuffixesDiffer(u: string, a: string, v: string, b: string, k: nat)
    requires 1 <= k <= |a| && k <= |b|
    requires a[|a| - k] != b[|b| - k]
    ensures u + a != v + b
  {
    if |u + a| == |v + b| {
      var n := |u + a|;
      assert (u + a)[n - k] == a[|a| - k];
      assert (v + b)[n - k] == b[|b| - k];
    }
  }

  /** A file name of one kind determines the reader it belongs to. */
  lemma KeysInjective(u: string, v: string)
    ensures DnaKey(u) == DnaKey(v) ==> u == v
    ensures ConnectionsKey(u) == ConnectionsKey(v) ==> u == v
  {
    if DnaKey(u) == DnaKey(v) {
      assert u == DnaKey(u)[..|u|] && v == DnaKey(v)[..|v|];
    }
    if ConnectionsKey(u) == ConnectionsKey(v) {
      assert u == ConnectionsKey(u)[..|u|] && v == ConnectionsKey(v)[..|v|];
    }
  }

  /**
    The per-user file names of different kinds never coincide, whatever the two
    ids are, and none of them is a preloaded file: writing one artifact can
    never overwrite another kind, or the shared dataset.
   */
  lemma KeysDistinct(u: string, v: string)
    ensures BooksKey(u) != DnaKey(v) && BooksKey(u) != ConnectionsKey(v)
    ensures BooksKey(u) != RecommendationsKey(v)
    ensures DnaKey(u) != ConnectionsKey(v) && DnaKey(u) != RecommendationsKey(v)
    ensures ConnectionsKey(u) != RecommendationsKey(v)
    ensures BooksKey(u) != PreloadedBooks && DnaKey(u) != PreloadedReadingDna
    ensures RecommendationsKey(u) !in {PreloadedBooks, PreloadedReadingDna, PreloadedConnections}
    ensures DnaKey(u) !in {PreloadedBooks, PreloadedReadingDna, PreloadedConnections}
    ensures ConnectionsKey(u) !in {PreloadedBooks, PreloadedReadingDna, PreloadedConnections}
    ensures BooksKey(u) !in {PreloadedBooks, PreloadedReadingDna, PreloadedConnections}
  {
    SuffixesDiffer(u, "_books.json", v, "_dna.json", 6);
    SuffixesDiffer(u, "_books.json", v, "_connections.json", 7);
    SuffixesDiffer(u, "_books.json", v, "_recommendations.json", 7);
    SuffixesDiffer(u, "_dna.json", v, "_connections.json", 6);
    SuffixesDiffer(u, "_dna.json", v, "_recommendations.json", 6);
    SuffixesDiffer(u, "_connections.json", v, "_recommendations.json", 11);
    SuffixesDiffer(u, "_books.json", "", PreloadedBooks, 11);
    SuffixesDiffer(u, "_books.json", "", PreloadedReadingDna, 6);
    SuffixesDiffer(u, "_books.json", "", PreloadedConnections, 7);
    SuffixesDiffer(u, "_dna.json", "", PreloadedBooks, 6);
    SuffixesDiffer(u, "_dna.json", "", PreloadedReadingDna, 9);
    SuffixesDiffer(u, "_dna.json", "", PreloadedConnections, 6);
    SuffixesDiffer(u, "_connections.json", "", PreloadedBooks, 7);
    SuffixesDiffer(u, "_connections.json", "", PreloadedReadingDna, 6);
    SuffixesDiffer(u, "_connections.json", "", PreloadedConnections, 17);
    SuffixesDiffer(u, "_recommendations.json", "", PreloadedBooks, 7);
    SuffixesDiffer(u, "_recommendations.json", "", PreloadedReadingDna, 6);
    SuffixesDiffer(u, "_recommendations.json", "", PreloadedConnections, 11);
  }
}
