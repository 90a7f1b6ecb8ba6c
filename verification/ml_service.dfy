/** The PDF question-answering service (backend/app/ml_service.py): the retrieval
    context handed to the model, the source list returned with an answer, which files
    are indexed, the build errors and the lazily created retriever. The vector store,
    the PDF loader and splitter, and the language model are parameters. */
module MlService {
  import opened Wrappers
  import opened Text

  /** A retrieved chunk: its text and the `file_name` and `source` metadata, `None`
      when the key is missing or holds `None`. */
  datatype Doc = Doc(content: string, fileName: Option<string>, source: Option<string>)

  /** Python truthiness of an optional string: present and non-empty. */
  predicate Truthy(v: Option<string>) {
    v.Some? && v.value != ""
  }

  /** `file_name or source or "unknown"`. */
  function SourceLabel(d: Doc): (r: string)
    ensures Truthy(d.fileName) ==> r == d.fileName.value
    ensures !Truthy(d.fileName) && Truthy(d.source) ==> r == d.source.value
    ensures !Truthy(d.fileName) && !Truthy(d.source) ==> r == "unknown"
    ensures r != ""
  {
    if Truthy(d.fileName) then d.fileName.value
    else if Truthy(d.source) then d.source.value
    else "unknown"
  }

  const SourcePrefix: string := "[SOURCE: "
  const PartSeparator: string := "\n\n"

  /** One part of the context: a header line naming the source, then the chunk text. */
  function FormatPart(d: Doc): (r: string)
    ensures StartsWith(r, SourcePrefix)
    ensures |r| == |SourcePrefix| + |SourceLabel(d)| + 2 + |d.content|
    ensures r[|SourcePrefix|..|SourcePrefix| + |SourceLabel(d)|] == SourceLabel(d)
    ensures EndsWith(r, d.content)
  {
    SourcePrefix + SourceLabel(d) + "]\n" + d.content
  }

  function FormatParts(docs: seq<Doc>): (r: seq<string>)
    ensures |r| == |docs|
    ensures forall i :: 0 <= i < |docs| ==> r[i] == FormatPart(docs[i])
  {
    seq(|docs|, i requires 0 <= i < |docs| => FormatPart(docs[i]))
  }

  /** `_format_docs`: the parts joined by blank lines, in retrieval order. */
  function FormatDocs(docs: seq<Doc>): string {
    Join(PartSeparator, FormatParts(docs))
  }

  /** No documents give an empty context; each further document adds a blank line
      and its own part at the end, so the parts appear in retrieval order. */
  lemma FormatDocsShape(docs: seq<Doc>, d: Doc)
    ensures FormatDocs([]) == ""
    ensures FormatDocs([d]) == FormatPart(d)
    ensures |docs| > 0 ==> FormatDocs(docs + [d]) == FormatDocs(docs) + PartSeparator + FormatPart(d)
  {
    assert FormatParts([d]) == [FormatPart(d)];
    if |docs| > 0 {
      assert FormatParts(docs + [d]) == FormatParts(docs) + [FormatPart(d)];
      JoinSnoc(PartSeparator, FormatParts(docs), FormatPart(d));
    }
  }

  /** The context's length: every part plus one blank line between neighbours. */
  lemma FormatDocsLength(docs: seq<Doc>)
    requires |docs| > 0
    ensures |FormatDocs(docs)| == SumLengths(FormatParts(docs)) + 2 * (|docs| - 1)
  {
    JoinLength(PartSeparator, FormatParts(docs));
  }

  /** One entry of the source list returned with an answer. */
  datatype SourceEntry = SourceEntry(fileName: Option<string>, source: Option<string>, snippet: string)

  const SnippetLength: nat := 500

  /** The source list built in `chat`: one entry per retrieved document, in order, with
      the raw metadata and the first 500 characters of the text. */
  function SourceList(docs: seq<Doc>): (r: seq<SourceEntry>)
    ensures |r| == |docs|
    ensures forall i :: 0 <= i < |r| ==>
      && r[i].fileName == docs[i].fileName && r[i].source == docs[i].source
      && r[i].snippet <= docs[i].content
      && |r[i].snippet| == (if |docs[i].content| < SnippetLength then |docs[i].content| else SnippetLength)
  {
    seq(|docs|, i requires 0 <= i < |docs| =>
      SourceEntry(docs[i].fileName, docs[i].source, Take(docs[i].content, SnippetLength)))
  }

  /** A short text is its own snippet. */
  lemma ShortContentIsWholeSnippet(docs: seq<Doc>, i: nat)
    requires i < |docs| && |docs[i].content| <= SnippetLength
    ensures SourceList(docs)[i].snippet == docs[i].content
  {
    var e := SourceList(docs)[i];
    assert e.snippet <= docs[i].content && |e.snippet| == |docs[i].content|;
  }

  /** `fname.lower().endswith(".pdf")`. */
  predicate IsPdfName(fname: string) {
    EndsWith(Lower(fname), ".pdf")
  }

  /** The file filter ignores case: a name and its lower-cased form are indexed alike. */
  lemma PdfFilterIgnoresCase(fname: string)
    ensures IsPdfName(Lower(fname)) <==> IsPdfName(fname)
    ensures IsPdfName(fname + ".PDF") && IsPdfName(fname + ".pdf")
  {
    LowerIdempotent(fname);
    PdfSuffix(fname, ".PDF");
    PdfSuffix(fname, ".pdf");
  }

  lemma PdfSuffix(fname: string, ext: string)
    requires ext == ".PDF" || ext == ".pdf"
    ensures IsPdfName(fname + ext)
  {
    var l := Lower(fname + ext);
    assert l[|l| - 4..] == ".pdf" by {
      assert forall k :: 0 <= k < 4 ==> l[|fname| + k] == LowerChar(ext[k]);
    }
  }

  /** A file met while walking the knowledge-base folder: its directory and its name. */
  datatype FileEntry = FileEntry(root: string, name: string)

  /** The loader and splitter: the chunks of the PDF at a directory and name. */
  type Loader = (string, string) -> seq<Doc>

  /** The chunks of every PDF file met, in walk order. */
  function AllChunks(files: seq<FileEntry>, load: Loader): (r: seq<Doc>)
    ensures |r| == 0 <==> forall i :: 0 <= i < |files| && IsPdfName(files[i].name) ==> |load(files[i].root, files[i].name)| == 0
    decreases |files|
  {
    if |files| == 0 then []
    else
      var rest := AllChunks(files[1..], load);
      var f := files[0];
      var here := if IsPdfName(f.name) then load(f.root, f.name) else [];
      assert forall i :: 1 <= i < |files| ==> files[i] == files[1..][i - 1];
      here + rest
  }

  /** Files whose name is not a PDF name contribute nothing to the index. */
  lemma {:induction false} NonPdfFilesIgnored(files: seq<FileEntry>, other: FileEntry, load: Loader)
    requires !IsPdfName(other.name)
    ensures AllChunks(files + [other], load) == AllChunks(files, load)
    ensures AllChunks([other] + files, load) == AllChunks(files, load)
    decreases |files|
  {
    if |files| == 0 {
      assert AllChunks([other], load) == [] + AllChunks([], load);
    } else {
      assert (files + [other])[1..] == files[1..] + [other];
      NonPdfFilesIgnored(files[1..], other, load);
      assert ([other] + files)[1..] == files;
    }
  }

  /** The lazily created handles: whether a vector store is open and the `k` of the
      cached retriever, if one exists. */
  datatype Caches = Caches(storeOpen: bool, retrieverK: Option<nat>)

  const NoCaches: Caches := Caches(false, None)

  /** A retriever is only ever created from an open store. */
  predicate CachesValid(c: Caches) {
    c.retrieverK.Some? ==> c.storeOpen
  }

  /** `_ensure_retriever(k)`: opens the store if needed, creates the retriever with
      `k` or re-targets the cached one to `k`. */
  function EnsureRetriever(c: Caches, k: nat): (r: Caches)
    ensures r.storeOpen && r.retrieverK == Some(k)
    ensures CachesValid(r)
  {
    Caches(true, Some(k))
  }

  /** `reload`: both caches dropped. */
  function Reload(c: Caches): (r: Caches)
    ensures !r.storeOpen && r.retrieverK.None?
  {
    NoCaches
  }

  /** The last call decides `k`, whatever was cached before; a reload after any
      sequence of calls leaves nothing cached. */
  lemma RetrieverFollowsLastK(c: Caches, k1: nat, k2: nat)
    ensures EnsureRetriever(EnsureRetriever(c, k1), k2) == EnsureRetriever(c, k2)
    ensures EnsureRetriever(Reload(EnsureRetriever(c, k1)), k2).retrieverK == Some(k2)
    ensures Reload(EnsureRetriever(c, k1)) == NoCaches
  {
  }

  datatype BuildError = FolderNotFound(folder: string) | NoContent

  /** The outcome of a build: the caches afterwards and the number of chunks indexed or the error. */
  datatype BuildOutcome = BuildOutcome(caches: Caches, result: Result<nat, BuildError>)

  /** `build_vectorstore_from_folder`: a missing folder fails before anything changes;
      `reset` drops the caches (and the persisted index) first; no chunk at all fails;
      otherwise every chunk is indexed and the caches are dropped so the next query
      opens the new index. */
  function Build(c: Caches, folder: string, folderExists: bool, files: seq<FileEntry>, load: Loader, reset: bool)
    : (r: BuildOutcome)
    ensures !folderExists ==> r == BuildOutcome(c, Err(FolderNotFound(folder)))
    ensures folderExists && |AllChunks(files, load)| == 0 ==> r.result == Err(NoContent)
    ensures folderExists && |AllChunks(files, load)| > 0 ==> r.result == Ok(|AllChunks(files, load)|)
    ensures folderExists && (r.result.Ok? || reset) ==> r.caches == NoCaches
    ensures r.result.Err? && !reset ==> r.caches == c
    ensures CachesValid(c) ==> CachesValid(r.caches)
  {
    if !folderExists then BuildOutcome(c, Err(FolderNotFound(folder)))
    else
      var c1 := if reset then NoCaches else c;
      var chunks := AllChunks(files, load);
      if |chunks| == 0 then BuildOutcome(c1, Err(NoContent))
      else BuildOutcome(Reload(c1), Ok(|chunks|))
  }

  /** `rebuild_knowledge_base`: the persisted index is cleared before the folder is
      even checked, so the caches end up empty on every outcome, errors included. */
  function Rebuild(c: Caches, folder: string, folderExists: bool, files: seq<FileEntry>, load: Loader): (r: BuildOutcome)
    ensures r.caches == NoCaches
    ensures r.result == Build(c, folder, folderExists, files, load, true).result
  {
    Build(NoCaches, folder, folderExists, files, load, false)
  }

  /** The answer of `chat` together with its source list and the caches afterwards. */
  datatype ChatAnswer = ChatAnswer(answer: string, sources: seq<SourceEntry>, caches: Caches)

  /** `chat(question, k)`: ensure a retriever for `k`, retrieve, format the context and
      ask the model. `retrieve` and `llm` stand for the vector store and the model. */
  function Chat(c: Caches, question: string, k: nat, retrieve: (string, nat) -> seq<Doc>, llm: (string, string) -> string)
    : (r: ChatAnswer)
    ensures r.caches.retrieverK == Some(k) && CachesValid(r.caches)
    ensures r.answer == llm(FormatDocs(retrieve(question, k)), question)
    ensures |r.sources| == |retrieve(question, k)|
    ensures forall i :: 0 <= i < |r.sources| ==> r.sources[i].snippet <= retrieve(question, k)[i].content
  {
    var c' := EnsureRetriever(c, k);
    var docs := retrieve(question, k);
    ChatAnswer(llm(FormatDocs(docs), question), SourceList(docs), c')
  }
}
