/** src/ingestion.py: load every `*.pdf` of a data directory, split the pages
    into chunks, and give each chunk without one a positional `chunk_id`.
    The PDF loader and the text splitter are opaque functions passed in. */
module Ingestion {
  import opened Common

  /** The data directory `ingest()` reads when called without an argument. */
  const DefaultDataDir := "./data"

  const ChunkIdKey := "chunk_id"
  const SourceKey := "source"
  const UnknownSource := "unknown"

  /** The settings `split_documents` hands to the splitter. */
  datatype Splitter = Splitter(chunkSize: nat, chunkOverlap: nat, separators: seq<string>)

  const DefaultSplitter := Splitter(1000, 200, ["\n\n", "\n", ". ", " ", ""])

  /** What the filesystem says about the data path: whether it exists, and the
      names its listing yields in order (none for a plain file). */
  datatype DataDir = DataDir(found: bool, entries: seq<string>)

  /** Matches the pattern `*.pdf`: the name ends in ".pdf". */
  predicate IsPdf(name: string)
  {
    |name| >= 4 && name[|name| - 4..] == ".pdf"
  }

  /** `data_path.glob("*.pdf")`: the matching entries, in listing order. */
  function PdfFiles(entries: seq<string>): (r: seq<string>)
    ensures |r| <= |entries|
    ensures forall f :: f in r ==> f in entries && IsPdf(f)
    ensures forall f :: f in entries && IsPdf(f) ==> f in r
  {
    if entries == [] then []
    else (if IsPdf(entries[0]) then [entries[0]] else []) + PdfFiles(entries[1..])
  }

  /** Every file's pages, in file order: what the `extend` loop accumulates. */
  function LoadAll(load: string -> seq<Doc>, files: seq<string>): (r: seq<Doc>)
    ensures files == [] ==> r == []
    ensures forall j :: 0 <= j < |files| ==> |load(files[j])| <= |r|
    ensures files != [] ==> r[|r| - |load(files[|files| - 1])|..] == load(files[|files| - 1])
  {
    if files == [] then []
    else LoadAll(load, files[..|files| - 1]) + load(files[|files| - 1])
  }

  /** Loading two runs of files one after the other is concatenation. */
  lemma {:induction false} LoadAllConcat(load: string -> seq<Doc>, a: seq<string>, b: seq<string>)
    ensures LoadAll(load, a + b) == LoadAll(load, a) + LoadAll(load, b)
    decreases |b|
  {
    if b != [] {
      var n := |b| - 1;
      assert (a + b)[..|a + b| - 1] == a + b[..n];
      LoadAllConcat(load, a, b[..n]);
    } else {
      assert a + b == a;
    }
  }

  /** Each file contributes its own pages once, in place. */
  lemma LoadAllOne(load: string -> seq<Doc>, f: string)
    ensures LoadAll(load, [f]) == load(f)
  {
    assert [f][..0] == [];
  }

  /** A listing without a PDF, including the empty listing of a plain file,
      loads nothing. */
  lemma NoPdfsLoadsNothing(load: string -> seq<Doc>, entries: seq<string>)
    requires forall f :: f in entries ==> !IsPdf(f)
    ensures PdfFiles(entries) == [] && LoadAll(load, PdfFiles(entries)) == []
  {
  }

  /** `load_pdfs`: a missing directory raises before anything is loaded;
      otherwise the loader runs once per PDF, in listing order (`calls`), and
      the pages are concatenated in that order. */
  method LoadPdfs(dataDir: string, dir: DataDir, load: string -> seq<Doc>)
    returns (r: Result<seq<Doc>, Exception>, ghost calls: seq<string>)
    ensures !dir.found ==> r == Failure(FileNotFoundError("Data directory not found: " + dataDir))
    ensures dir.found ==> r == Success(LoadAll(load, PdfFiles(dir.entries)))
    ensures calls == if dir.found then PdfFiles(dir.entries) else []
  {
    if !dir.found {
      return Failure(FileNotFoundError("Data directory not found: " + dataDir)), [];
    }
    var pdfFiles := PdfFiles(dir.entries);
    var documents: seq<Doc> := [];
    calls := [];
    for i := 0 to |pdfFiles|
      invariant documents == LoadAll(load, pdfFiles[..i])
      invariant calls == pdfFiles[..i]
    {
      assert pdfFiles[..i + 1][..i] == pdfFiles[..i];
      documents := documents + load(pdfFiles[i]);
      calls := calls + [pdfFiles[i]];
    }
    assert pdfFiles[..|pdfFiles|] == pdfFiles;
    return Success(documents), calls;
  }

  /** `metadata.get(key, default)`. */
  function Get(m: Metadata, key: string, default: string): string
  {
    if key in m then m[key] else default
  }

  /** The id `ingest` generates for the chunk at position `i`. */
  function GeneratedId(m: Metadata, i: nat): (r: string)
    ensures var src := Get(m, SourceKey, UnknownSource);
      && |r| > |src| + 1
      && r[..|src|] == src && r[|src|] == '_'
      && '_' !in r[|src| + 1..]
      && DigitsValue(r[|src| + 1..]) == i
  {
    var src := Get(m, SourceKey, UnknownSource);
    NatToStringReadsBack(i);
    var r := src + "_" + NatToString(i);
    assert r[|src| + 1..] == NatToString(i);
    assert '_' !in NatToString(i);
    src + "_" + NatToString(i)
  }

  /** The chunk at position `i` after the loop body has run on it. */
  function WithChunkId(d: Doc, i: nat): (r: Doc)
    ensures ChunkIdKey in r.metadata && r.pageContent == d.pageContent
    ensures ChunkIdKey in d.metadata ==> r == d
    ensures r.metadata.Keys == d.metadata.Keys + {ChunkIdKey}
    ensures forall k :: k in d.metadata && k != ChunkIdKey ==> r.metadata[k] == d.metadata[k]
  {
    if ChunkIdKey in d.metadata then d
    else d.(metadata := d.metadata[ChunkIdKey := GeneratedId(d.metadata, i)])
  }

  /** The chunk list after the whole loop of `ingest`. */
  function WithChunkIds(chunks: seq<Doc>): (r: seq<Doc>)
    ensures |r| == |chunks|
    ensures forall i :: 0 <= i < |r| ==> ChunkIdKey in r[i].metadata && r[i].pageContent == chunks[i].pageContent
    ensures forall i :: 0 <= i < |r| && ChunkIdKey in chunks[i].metadata ==> r[i] == chunks[i]
  {
    seq(|chunks|, i requires 0 <= i < |chunks| => WithChunkId(chunks[i], i))
  }

  /** What the id loop promises: same chunks in the same order, every chunk
      has an id, an existing id is kept untouched, a missing one becomes
      source (or "unknown") + "_" + position, and nothing else in the
      metadata or the page text changes. */
  lemma ChunkIdsAssigned(chunks: seq<Doc>, i: nat)
    requires i < |chunks|
    ensures |WithChunkIds(chunks)| == |chunks|
    ensures var c, d := WithChunkIds(chunks)[i], chunks[i];
      && ChunkIdKey in c.metadata
      && c.pageContent == d.pageContent
      && (ChunkIdKey in d.metadata ==> c == d)
      && (ChunkIdKey !in d.metadata ==> c.metadata[ChunkIdKey] == Get(d.metadata, SourceKey, UnknownSource) + "_" + NatToString(i))
      && c.metadata.Keys == d.metadata.Keys + {ChunkIdKey}
      && (forall k :: k in d.metadata && k != ChunkIdKey ==> c.metadata[k] == d.metadata[k])
  {
  }

  /** Running the loop again changes nothing: every chunk now has an id. */
  lemma WithChunkIdsIdempotent(chunks: seq<Doc>)
    ensures WithChunkIds(WithChunkIds(chunks)) == WithChunkIds(chunks)
  {
  }

  /** Two names ending in "_" + a suffix without '_' have the same suffix. */
  lemma SuffixAfterLastUnderscore(a: string, x: string, b: string, y: string)
    requires a + "_" + x == b + "_" + y
    requires '_' !in x && '_' !in y
    ensures x == y
  {
    var s := a + "_" + x;
    if |x| < |y| {
      UnderscoreInLongerSuffix(a, x, b, y);
      assert false;
    } else if |y| < |x| {
      UnderscoreInLongerSuffix(b, y, a, x);
      assert false;
    }
    assert x == s[|s| - |x|..] == y;
  }

  /** The separator of the shorter split lands inside the longer suffix. */
  lemma UnderscoreInLongerSuffix(a: string, x: string, b: string, y: string)
    requires a + "_" + x == b + "_" + y && |x| < |y|
    ensures y[|y| - |x| - 1] == '_'
  {
    var s := a + "_" + x;
    assert s[|a|] == '_';
    assert s[|a|] == (b + "_" + y)[|a|];
  }

  /** Ids generated in one run are pairwise distinct, whatever the sources:
      the part after the last '_' is the position, and positions print
      differently. */
  lemma GeneratedIdsDistinct(chunks: seq<Doc>, i: nat, j: nat)
    requires i < |chunks| && j < |chunks| && i != j
    requires ChunkIdKey !in chunks[i].metadata && ChunkIdKey !in chunks[j].metadata
    ensures WithChunkIds(chunks)[i].metadata[ChunkIdKey] != WithChunkIds(chunks)[j].metadata[ChunkIdKey]
  {
    var mi, mj := chunks[i].metadata, chunks[j].metadata;
    if GeneratedId(mi, i) == GeneratedId(mj, j) {
      SuffixAfterLastUnderscore(Get(mi, SourceKey, UnknownSource), NatToString(i),
                                Get(mj, SourceKey, UnknownSource), NatToString(j));
      NatToStringInjective(i, j);
    }
  }

  /** The `for i, chunk in enumerate(chunks)` loop, writing each chunk's
      metadata in place. */
  method AssignChunkIds(chunks: array<Doc>)
    modifies chunks
    ensures chunks[..] == WithChunkIds(old(chunks[..]))
  {
    ghost var before := chunks[..];
    for i := 0 to chunks.Length
      invariant forall j :: 0 <= j < i ==> chunks[j] == WithChunkId(before[j], j)
      invariant forall j :: i <= j < chunks.Length ==> chunks[j] == before[j]
    {
      ghost var want := WithChunkId(chunks[i], i);
      if ChunkIdKey !in chunks[i].metadata {
        chunks[i] := chunks[i].(metadata := chunks[i].metadata[ChunkIdKey := GeneratedId(chunks[i].metadata, i)]);
      }
      assert chunks[i] == want;
    }
    ChunkArrayIsWithChunkIds(chunks[..], before);
  }

  /** A list whose every chunk is its id-assigned original is the loop's result. */
  lemma ChunkArrayIsWithChunkIds(now: seq<Doc>, before: seq<Doc>)
    requires |now| == |before|
    requires forall j :: 0 <= j < |now| ==> now[j] == WithChunkId(before[j], j)
    ensures now == WithChunkIds(before)
  {
  }

  /** `ingest`: load, split with the default splitter, then number the chunks.
      A missing directory surfaces as the loader's FileNotFoundError. */
  method Ingest(dataDir: string, dir: DataDir, load: string -> seq<Doc>, split: (seq<Doc>, Splitter) -> seq<Doc>)
    returns (r: Result<seq<Doc>, Exception>)
    ensures !dir.found ==> r == Failure(FileNotFoundError("Data directory not found: " + dataDir))
    ensures dir.found ==> r == Success(WithChunkIds(split(LoadAll(load, PdfFiles(dir.entries)), DefaultSplitter)))
  {
    var documents, _ := LoadPdfs(dataDir, dir, load);
    if documents.Failure? {
      return Failure(documents.error);
    }
    var split := split(documents.value, DefaultSplitter);
    var chunks := new Doc[|split|](i requires 0 <= i < |split| => split[i]);
    assert chunks[..] == split;
    AssignChunkIds(chunks);
    return Success(chunks[..]);
  }
}
