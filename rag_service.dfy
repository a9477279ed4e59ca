/**
 * The retrieval-augmented answering service of `app/services/rag_service.py`.
 *
 * `RagService` owns at most one vector store and one question-answering chain
 * over it. The store is either reopened from its persist directory or built from
 * the `.txt` and `.pdf` files of the documents directory; documents can be added
 * later, and the whole base can be rebuilt. A query asks the chain and shapes its
 * answer and source names.
 *
 * The filesystem, the two file loaders, the text splitter, the reopening of a
 * persisted store and the retrieval chain itself are parameters: the `Host`
 * oracles and the `ask` function. Embeddings, similarity search and the language
 * model are not modelled.
 */
module Rag {
  import opened Wrappers
  import opened Text

  // ---------------------------------------------------------------------------
  // Records and oracles

  /** A loaded or retrieved document: its text and its metadata, such as `"source"`. */
  datatype Document = Document(pageContent: string, metadata: map<string, string>)

  /** What `os.path.exists` and `os.listdir` say about a path. */
  datatype Listing =
    | Missing                       // the path does not exist
    | Entries(names: seq<string>)   // a directory, with its entry names in listing order
    | Unreadable                    // it exists, but `os.listdir` raises (a plain file, say)

  datatype LoaderKind = TextLoader | PdfLoader

  /**
   * The outside world as the service sees it. A loader or the reopening of a
   * persisted store gives `None` when it raises; `removeTree` says whether
   * `shutil.rmtree` succeeded.
   */
  datatype Host = Host(
    listDir: string -> Listing,
    loadText: string -> Option<seq<Document>>,
    loadPdf: string -> Option<seq<Document>>,
    split: seq<Document> -> seq<Document>,
    openPersisted: string -> Option<seq<Document>>,
    removeTree: string -> bool)

  /** What the chain returns: its `"result"` and `"source_documents"` entries, each possibly absent. */
  datatype ChainResult = ChainResult(result: Option<string>, sourceDocuments: Option<seq<Document>>)

  /** The dictionary `query` returns. */
  datatype QueryResult = QueryResult(answer: Option<string>, sources: seq<string>, usedRag: bool)

  const DEFAULT_DOCS_PATH := "knowledge_base/docs"
  const DEFAULT_DB_PATH := "chroma_db"
  /** The number of documents the retriever hands to the chain. */
  const RETRIEVER_K: nat := 3
  const TXT := ".txt"
  const PDF := ".pdf"
  const SOURCE_KEY := "source"
  const DEFAULT_SOURCE := "FAQ"
  const NOT_AVAILABLE := "Knowledge base not available."
  const CONTEXT_SEPARATOR := "\n\nCustomer Context: "

  // ---------------------------------------------------------------------------
  // File dispatch

  /** The `.txt`/`.pdf` dispatch of `add_document` and `_create_vectorstore`. */
  function LoaderFor(path: string): (r: Option<LoaderKind>)
    ensures r == Some(TextLoader) <==> EndsWith(path, TXT)
    ensures r == Some(PdfLoader) <==> EndsWith(path, PDF)
    ensures r == None <==> !EndsWith(path, TXT) && !EndsWith(path, PDF)
  {
    if EndsWith(path, TXT) then
      assert path[|path| - 1] == 't';
      Some(TextLoader)
    else if EndsWith(path, PDF) then Some(PdfLoader)
    else None
  }

  function Load(host: Host, kind: LoaderKind, path: string): Option<seq<Document>> {
    match kind
    case TextLoader => host.loadText(path)
    case PdfLoader => host.loadPdf(path)
  }

  /** `os.path.join(dir, name)`. */
  function JoinPath(dir: string, name: string): (r: string)
    ensures EndsWith(r, name)
    ensures !StartsWith(name, "/") && dir != "" ==> StartsWith(r, dir)
    ensures !StartsWith(name, "/") && dir != "" && !EndsWith(dir, "/") ==> OccursAt(r, "/", |dir|)
    ensures StartsWith(name, "/") || dir == "" ==> r == name
  {
    if StartsWith(name, "/") || dir == "" then name
    else if EndsWith(dir, "/") then dir + name
    else dir + "/" + name
  }

  // ---------------------------------------------------------------------------
  // Collecting the corpus

  /** The entry names a loader is picked for, in listing order. */
  function SupportedFiles(names: seq<string>): (r: seq<string>)
    ensures forall n :: n in r <==> n in names && LoaderFor(n).Some?
  {
    if names == [] then []
    else
      var last := names[|names| - 1];
      SupportedFiles(names[..|names| - 1]) + (if LoaderFor(last).Some? then [last] else [])
  }

  /** One pass of the loop of lines 63-71: the documents after entry `name`, or `None` when its loader raises. */
  function LoadEntry(host: Host, dir: string, docs: seq<Document>, name: string): Option<seq<Document>> {
    match LoaderFor(name)
    case None => Some(docs)
    case Some(kind) =>
      match Load(host, kind, JoinPath(dir, name))
      case None => None
      case Some(more) => Some(docs + more)
  }

  /** The documents of the whole loop over `names`, or `None` as soon as one load raises. */
  function Collected(host: Host, dir: string, names: seq<string>): Option<seq<Document>> {
    if names == [] then Some([])
    else
      match Collected(host, dir, names[..|names| - 1])
      case None => None
      case Some(docs) => LoadEntry(host, dir, docs, names[|names| - 1])
  }

  lemma CollectedStep(host: Host, dir: string, names: seq<string>, i: nat)
    requires i < |names|
    ensures Collected(host, dir, names[..i + 1]) ==
      match Collected(host, dir, names[..i])
      case None => None
      case Some(docs) => LoadEntry(host, dir, docs, names[i])
  {
    assert names[..i + 1][..i] == names[..i];
  }

  /** Entries with other extensions are never opened: the corpus is that of the supported files alone. */
  lemma {:induction false} CollectedOnlySupported(host: Host, dir: string, names: seq<string>)
    ensures Collected(host, dir, names) == Collected(host, dir, SupportedFiles(names))
  {
    if names != [] {
      var front, last := names[..|names| - 1], names[|names| - 1];
      CollectedOnlySupported(host, dir, front);
      var sf := SupportedFiles(front);
      if LoaderFor(last).Some? {
        assert SupportedFiles(names) == sf + [last];
        assert (sf + [last])[..|sf|] == sf;
      } else {
        assert SupportedFiles(names) == sf;
      }
    }
  }

  /** A directory with no `.txt` or `.pdf` entry gives no documents. */
  lemma NoSupportedNoDocuments(host: Host, dir: string, names: seq<string>)
    requires forall n :: n in names ==> LoaderFor(n).None?
    ensures Collected(host, dir, names) == Some([])
  {
    CollectedOnlySupported(host, dir, names);
    assert SupportedFiles(names) == [];
  }

  /** One supported file whose loader raises makes the whole collection raise. */
  lemma {:induction false} CollectedFailsOnFailedLoad(host: Host, dir: string, names: seq<string>, i: nat)
    requires i < |names| && LoaderFor(names[i]).Some?
    requires Load(host, LoaderFor(names[i]).value, JoinPath(dir, names[i])).None?
    ensures Collected(host, dir, names).None?
    decreases |names|
  {
    if i < |names| - 1 {
      var front := names[..|names| - 1];
      assert front[i] == names[i];
      CollectedFailsOnFailedLoad(host, dir, front, i);
    }
  }

  /** The documents `_create_vectorstore` gathers from `docsPath`, or `None` when it raises. */
  function Corpus(host: Host, docsPath: string): Option<seq<Document>> {
    match host.listDir(docsPath)
    case Missing => Some([])
    case Unreadable => None
    case Entries(names) => Collected(host, docsPath, names)
  }

  /** The chunks a new store would hold, or `None` when `_create_vectorstore` leaves the store as it was. */
  function BuiltChunks(host: Host, docsPath: string): (r: Option<seq<Document>>)
    ensures r.Some? <==> Corpus(host, docsPath).Some? && Corpus(host, docsPath).value != []
    ensures r.Some? ==> r.value == host.split(Corpus(host, docsPath).value)
  {
    match Corpus(host, docsPath)
    case None => None
    case Some(docs) => if docs == [] then None else Some(host.split(docs))
  }

  /**
   * Lines 59-71 of `_create_vectorstore`: the documents of every `.txt` and `.pdf`
   * entry of `dir`, in listing order, or `None` when listing or loading raises.
   */
  method CollectDocuments(host: Host, dir: string) returns (r: Option<seq<Document>>)
    ensures r == Corpus(host, dir)
  {
    var documents: seq<Document> := [];
    var listing := host.listDir(dir);
    if listing.Unreadable? {
      return None;
    }
    if listing.Entries? {
      var names := listing.names;
      var i := 0;
      while i < |names|
        invariant 0 <= i <= |names|
        invariant Collected(host, dir, names[..i]) == Some(documents)
      {
        CollectedStep(host, dir, names, i);
        var filename := names[i];
        var filepath := JoinPath(dir, filename);
        var kind := LoaderFor(filename);
        if kind.Some? {
          var loaded := Load(host, kind.value, filepath);
          if loaded.None? {
            CollectedFailsOnFailedLoad(host, dir, names, i);
            return None;
          }
          documents := documents + loaded.value;
        }
        i := i + 1;
      }
      assert names[..|names|] == names;
    }
    return Some(documents);
  }

  // ---------------------------------------------------------------------------
  // Shaping a query

  /** The question sent to the chain: the question, then the customer context when there is one. */
  function FullQuestion(question: string, customerContext: string): (r: string)
    ensures customerContext == "" ==> r == question
    ensures customerContext != "" ==>
      && StartsWith(r, question)
      && OccursAt(r, CONTEXT_SEPARATOR, |question|)
      && EndsWith(r, customerContext)
      && |r| == |question| + |CONTEXT_SEPARATOR| + |customerContext|
  {
    if customerContext != "" then
      ThreeParts(question, CONTEXT_SEPARATOR, customerContext);
      question + CONTEXT_SEPARATOR + customerContext
    else question
  }

  /** The text after the last `/` of a document's `"source"`, or `"FAQ"` when it has none. */
  function SourceName(d: Document): (r: string)
    ensures SOURCE_KEY !in d.metadata ==> r == DEFAULT_SOURCE
    ensures '/' !in r
    ensures SOURCE_KEY in d.metadata ==> EndsWith(d.metadata[SOURCE_KEY], r)
    ensures SOURCE_KEY in d.metadata && |r| < |d.metadata[SOURCE_KEY]| ==>
      d.metadata[SOURCE_KEY][|d.metadata[SOURCE_KEY]| - |r| - 1] == '/'
  {
    if SOURCE_KEY in d.metadata then LastSegment(d.metadata[SOURCE_KEY])
    else
      assert DEFAULT_SOURCE[..2] == "FA" && DEFAULT_SOURCE[..1] == "F";
      LastSegment(DEFAULT_SOURCE)
  }

  /** The source name of each document, in order. */
  function SourceNames(docs: seq<Document>): (r: seq<string>)
    ensures |r| == |docs|
  {
    if docs == [] then []
    else SourceNames(docs[..|docs| - 1]) + [SourceName(docs[|docs| - 1])]
  }

  /** Name `i` is the name of document `i`. */
  lemma {:induction false} SourceNamesAt(docs: seq<Document>, i: nat)
    requires i < |docs|
    ensures SourceNames(docs)[i] == SourceName(docs[i])
    decreases |docs|
  {
    if i < |docs| - 1 {
      var front := docs[..|docs| - 1];
      assert front[i] == docs[i];
      SourceNamesAt(front, i);
    }
  }

  /** One more document adds its source name unless that name was already seen. */
  lemma SourcesStep(docs: seq<Document>, i: nat)
    requires i < |docs|
    ensures Dedup(SourceNames(docs[..i + 1])) ==
      var seen := Dedup(SourceNames(docs[..i]));
      if SourceName(docs[i]) in seen then seen else seen + [SourceName(docs[i])]
  {
    assert docs[..i + 1][..i] == docs[..i];
    assert SourceNames(docs[..i + 1]) == SourceNames(docs[..i]) + [SourceName(docs[i])];
  }

  /** Lines 148-154 of `query`: each document's source name, kept when not seen before. */
  method CollectSources(docs: seq<Document>) returns (sources: seq<string>)
    ensures sources == Dedup(SourceNames(docs))
  {
    sources := [];
    var i := 0;
    while i < |docs|
      invariant 0 <= i <= |docs|
      invariant sources == Dedup(SourceNames(docs[..i]))
    {
      var source := SourceName(docs[i]);
      SourcesStep(docs, i);
      if source !in sources {
        sources := sources + [source];
      }
      i := i + 1;
    }
    assert docs[..|docs|] == docs;
  }

  /** The names of the first `k` documents are the first `k` names. */
  lemma {:induction false} SourceNamesOfPrefix(docs: seq<Document>, k: nat)
    requires k <= |docs|
    ensures SourceNames(docs[..k]) == SourceNames(docs)[..k]
    decreases |docs|
  {
    if k < |docs| {
      var front := docs[..|docs| - 1];
      assert front[..k] == docs[..k];
      SourceNamesOfPrefix(front, k);
    } else {
      assert docs[..k] == docs;
    }
  }

  /**
   * The sources of the first `k` retrieved documents open the reported sources:
   * names are listed in the order their documents were first retrieved.
   */
  lemma SourcesOfPrefix(docs: seq<Document>, k: nat)
    requires k <= |docs|
    ensures Sources(Some(docs[..k])) <= Sources(Some(docs))
  {
    SourceNamesOfPrefix(docs, k);
    DedupOfPrefix(SourceNames(docs), k);
  }

  predicate NoDuplicates(s: seq<string>) {
    forall i, j :: 0 <= i < j < |s| ==> s[i] != s[j]
  }

  /** Each element kept once, where it is first seen. */
  function Dedup(s: seq<string>): (r: seq<string>)
    ensures NoDuplicates(r)
    ensures forall x :: x in r <==> x in s
    ensures |r| <= |s|
  {
    if s == [] then []
    else
      var d := Dedup(s[..|s| - 1]);
      var last := s[|s| - 1];
      if last in d then d else d + [last]
  }

  /** First-seen order: what the first `k` elements contribute is a prefix of the result. */
  lemma {:induction false} DedupOfPrefix(s: seq<string>, k: nat)
    requires k <= |s|
    ensures Dedup(s[..k]) <= Dedup(s)
    decreases |s|
  {
    if k == |s| {
      assert s[..k] == s;
    } else {
      var front := s[..|s| - 1];
      assert front[..k] == s[..k];
      DedupOfPrefix(front, k);
    }
  }

  /** Removing duplicates from a list without any changes nothing. */
  lemma {:induction false} DedupOfDistinct(s: seq<string>)
    requires NoDuplicates(s)
    ensures Dedup(s) == s
    decreases |s|
  {
    if s != [] {
      var front := s[..|s| - 1];
      DedupOfDistinct(front);
      assert s[|s| - 1] !in front;
      assert front + [s[|s| - 1]] == s;
    }
  }

  /** The de-duplicated source names `query` reports for the retrieved documents, if any. */
  function Sources(docs: Option<seq<Document>>): (r: seq<string>)
    ensures docs.None? ==> r == []
    ensures NoDuplicates(r)
    ensures docs.Some? ==> forall n :: n in r <==> n in SourceNames(docs.value)
  {
    match docs
    case None => []
    case Some(ds) => Dedup(SourceNames(ds))
  }

  /**
   * What `query` returns, given the documents of the chain's store (`None`: no
   * chain) and the chain's behaviour (`None`: it raises).
   */
  function QueryOutcome(store: Option<seq<Document>>, question: string, customerContext: string,
                        ask: (seq<Document>, string) -> Option<ChainResult>): (r: QueryResult)
    ensures store.None? ==> r == QueryResult(Some(NOT_AVAILABLE), [], false)
    ensures r.usedRag <==>
      store.Some? && ask(store.value, FullQuestion(question, customerContext)).Some? &&
      ask(store.value, FullQuestion(question, customerContext)).value.result.Some?
    ensures store.Some? && !r.usedRag ==> r == QueryResult(None, [], false)
    ensures r.usedRag ==>
      var res := ask(store.value, FullQuestion(question, customerContext)).value;
      r.answer == res.result && r.sources == Sources(res.sourceDocuments)
  {
    match store
    case None => QueryResult(Some(NOT_AVAILABLE), [], false)
    case Some(chunks) =>
      match ask(chunks, FullQuestion(question, customerContext))
      case None => QueryResult(None, [], false)
      case Some(res) =>
        // `result["result"]` raises when the key is missing
        if res.result.None? then QueryResult(None, [], false)
        else QueryResult(res.result, Sources(res.sourceDocuments), true)
  }

  // ---------------------------------------------------------------------------
  // The store and the service

  /** A Chroma collection: where it persists and the chunks it holds. */
  class VectorStore {
    const persistDirectory: string
    var chunks: seq<Document>

    constructor (persistDirectory: string, chunks: seq<Document>)
      ensures this.persistDirectory == persistDirectory && this.chunks == chunks
    {
      this.persistDirectory := persistDirectory;
      this.chunks := chunks;
    }

    /** `add_documents`: the new chunks follow the ones already held. */
    method AddDocuments(more: seq<Document>)
      modifies this
      ensures chunks == old(chunks) + more
    {
      chunks := chunks + more;
    }
  }

  /** The `RetrievalQA` chain: a retriever over one store, returning `k` documents. */
  datatype QaChain = QaChain(store: VectorStore, k: nat)

  /** Which way `_initialize_vectorstore` goes. */
  datatype InitChoice = LoadPersisted | BuildNew | Abort

  /** Load when the persist directory exists and lists something; build when it is missing or empty. */
  function InitChoiceFor(listing: Listing): (c: InitChoice)
    ensures c == LoadPersisted <==> listing.Entries? && listing.names != []
    ensures c == BuildNew <==> listing.Missing? || listing == Entries([])
  {
    match listing
    case Missing => BuildNew
    case Unreadable => Abort
    case Entries(names) => if names == [] then BuildNew else LoadPersisted
  }

  class RagService {
    const groqApiKey: string
    const docsPath: string
    const dbPath: string
    var vectorstore: VectorStore?
    var qaChain: Option<QaChain>

    /** A chain exists exactly when a store does, and it retrieves from that store. */
    ghost predicate Valid()
      reads this
    {
      && (qaChain.Some? <==> vectorstore != null)
      && (qaChain.Some? ==> qaChain.value.store == vectorstore && qaChain.value.k == RETRIEVER_K)
    }

    /** The chunks the chain retrieves from, or `None` when there is no chain. */
    ghost function ChainChunks(): Option<seq<Document>>
      reads this, if qaChain.Some? then {qaChain.value.store} else {}
    {
      if qaChain.Some? then Some(qaChain.value.store.chunks) else None
    }

    /** `__init__`, which ends by calling `_initialize_vectorstore`; the paths default as in the source. */
    constructor (groqApiKey: string, host: Host,
                 docsPath: string := DEFAULT_DOCS_PATH, dbPath: string := DEFAULT_DB_PATH)
      ensures this.groqApiKey == groqApiKey && this.docsPath == docsPath && this.dbPath == dbPath
      ensures Valid()
      ensures match InitChoiceFor(host.listDir(dbPath))
        case LoadPersisted =>
          if host.openPersisted(dbPath).Some? then
            vectorstore != null && fresh(vectorstore) && vectorstore.persistDirectory == dbPath &&
            vectorstore.chunks == host.openPersisted(dbPath).value
          else vectorstore == null
        case BuildNew =>
          if BuiltChunks(host, docsPath).Some? then
            vectorstore != null && fresh(vectorstore) && vectorstore.persistDirectory == dbPath &&
            vectorstore.chunks == BuiltChunks(host, docsPath).value
          else vectorstore == null
        case Abort => vectorstore == null
    {
      this.groqApiKey := groqApiKey;
      this.docsPath := docsPath;
      this.dbPath := dbPath;
      vectorstore := null;
      qaChain := None;
      new;
      InitializeVectorstore(host);
    }

    /**
     * `_initialize_vectorstore`: reopen the persisted store when its directory
     * lists something, otherwise build one; then create the chain. An exception
     * (an unreadable directory, a store that cannot be reopened) skips the rest.
     */
    method InitializeVectorstore(host: Host)
      requires vectorstore == null && qaChain.None?
      modifies this
      ensures Valid()
      ensures match InitChoiceFor(host.listDir(dbPath))
        case LoadPersisted =>
          if host.openPersisted(dbPath).Some? then
            vectorstore != null && fresh(vectorstore) && vectorstore.persistDirectory == dbPath &&
            vectorstore.chunks == host.openPersisted(dbPath).value
          else vectorstore == null
        case BuildNew =>
          if BuiltChunks(host, docsPath).Some? then
            vectorstore != null && fresh(vectorstore) && vectorstore.persistDirectory == dbPath &&
            vectorstore.chunks == BuiltChunks(host, docsPath).value
          else vectorstore == null
        case Abort => vectorstore == null
    {
      var listing := host.listDir(dbPath);
      if listing.Unreadable? {
        // `os.listdir` raises; the exception handler only prints
        return;
      }
      if listing.Entries? && listing.names != [] {
        var persisted := host.openPersisted(dbPath);
        if persisted.None? {
          return;
        }
        vectorstore := new VectorStore(dbPath, persisted.value);
      } else {
        CreateVectorstore(host);
      }
      CreateQaChain();
    }

    /**
     * `_create_vectorstore`: gather the documents of every `.txt` and `.pdf`
     * entry of the documents directory and, unless there are none or a step
     * raised, replace the store by a new one holding their chunks.
     */
    method CreateVectorstore(host: Host)
      modifies this
      ensures qaChain == old(qaChain)
      ensures BuiltChunks(host, docsPath).Some? ==>
        vectorstore != null && fresh(vectorstore) && vectorstore.persistDirectory == dbPath &&
        vectorstore.chunks == BuiltChunks(host, docsPath).value
      ensures BuiltChunks(host, docsPath).None? ==> vectorstore == old(vectorstore)
    {
      var documents := CollectDocuments(host, docsPath);
      if documents.None? || documents.value == [] {
        return;
      }
      var chunks := host.split(documents.value);
      vectorstore := new VectorStore(dbPath, chunks);
    }

    /** `_create_qa_chain`: a chain retrieving `k = 3` documents from the current store, if there is one. */
    method CreateQaChain()
      modifies this
      ensures vectorstore == old(vectorstore)
      ensures vectorstore != null ==> qaChain == Some(QaChain(vectorstore, RETRIEVER_K))
      ensures vectorstore == null ==> qaChain == old(qaChain)
    {
      if vectorstore == null {
        return;
      }
      qaChain := Some(QaChain(vectorstore, RETRIEVER_K));
    }

    /** `query`: the fixed fallbacks, or the chain's answer with its de-duplicated sources. */
    method Query(question: string, customerContext: string, ask: (seq<Document>, string) -> Option<ChainResult>)
      returns (r: QueryResult)
      ensures r == QueryOutcome(ChainChunks(), question, customerContext, ask)
    {
      if qaChain.None? {
        return QueryResult(Some(NOT_AVAILABLE), [], false);
      }
      var fullQuestion := question;
      if customerContext != "" {
        fullQuestion := question + CONTEXT_SEPARATOR + customerContext;
      }
      assert fullQuestion == FullQuestion(question, customerContext);
      var result := ask(qaChain.value.store.chunks, fullQuestion);
      if result.None? {
        return QueryResult(None, [], false);
      }
      var sources: seq<string> := [];
      if result.value.sourceDocuments.Some? {
        sources := CollectSources(result.value.sourceDocuments.value);
      }
      if result.value.result.None? {
        // `result["result"]` raises
        return QueryResult(None, [], false);
      }
      return QueryResult(result.value.result, sources, true);
    }

    /** The chunks `add_document` would add for `filePath`, or `None` when it has no loader or the load raises. */
    static function AddedChunks(host: Host, filePath: string): (r: Option<seq<Document>>)
      ensures LoaderFor(filePath).None? ==> r.None?
      ensures LoaderFor(filePath).Some? && Load(host, LoaderFor(filePath).value, filePath).Some? ==> r.Some?
      ensures r.Some? ==>
        LoaderFor(filePath).Some? && Load(host, LoaderFor(filePath).value, filePath).Some? &&
        r.value == host.split(Load(host, LoaderFor(filePath).value, filePath).value)
    {
      match LoaderFor(filePath)
      case None => None
      case Some(kind) =>
        match Load(host, kind, filePath)
        case None => None
        case Some(docs) => Some(host.split(docs))
    }

    /**
     * `add_document`: true exactly when the file has a loader, the load succeeds
     * and there is a store, whose chunks then grow by the new ones.
     */
    method AddDocument(filePath: string, host: Host) returns (ok: bool)
      modifies vectorstore
      ensures ok <==> AddedChunks(host, filePath).Some? && vectorstore != null
      ensures ok ==> vectorstore.chunks == old(vectorstore.chunks) + AddedChunks(host, filePath).value
      ensures !ok && vectorstore != null ==> vectorstore.chunks == old(vectorstore.chunks)
    {
      var kind := LoaderFor(filePath);
      if kind.None? {
        return false;
      }
      var documents := Load(host, kind.value, filePath);
      if documents.None? {
        return false;
      }
      var chunks := host.split(documents.value);
      if vectorstore != null {
        vectorstore.AddDocuments(chunks);
        return true;
      }
      return false;
    }

    /**
     * `reload_knowledge_base`: false, with nothing changed, when the persist
     * directory exists and cannot be removed; otherwise rebuild the store and the
     * chain and report true, even when no documents were found and the old store
     * was kept.
     */
    method ReloadKnowledgeBase(host: Host) returns (ok: bool)
      requires Valid()
      modifies this
      ensures Valid()
      ensures ok <==> host.listDir(dbPath).Missing? || host.removeTree(dbPath)
      ensures !ok ==> vectorstore == old(vectorstore) && qaChain == old(qaChain)
      ensures ok && BuiltChunks(host, docsPath).Some? ==>
        vectorstore != null && fresh(vectorstore) && vectorstore.chunks == BuiltChunks(host, docsPath).value
      ensures ok && BuiltChunks(host, docsPath).None? ==> vectorstore == old(vectorstore)
    {
      if !host.listDir(dbPath).Missing? {
        var removed := host.removeTree(dbPath);
        if !removed {
          return false;
        }
      }
      CreateVectorstore(host);
      CreateQaChain();
      return true;
    }
  }
}
