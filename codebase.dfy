/** The per-project code index of the backend: a store path derived from the project's
    name, a process-wide memo of the indexes already built or loaded, the .gitignore
    patterns handed to the document reader, and the snippet shape of a query. The
    document reader, the embedding model and the similarity search are outside the
    model: they are functions the service is given. */
module Codebase {
  import opened Wrappers
  import opened Text
  import opened Json

  const VectorStorePath := "./vector_store"

  /** The embedding dimension used when the embedding model does not report one. */
  const DefaultEmbedDim := 768

  /** os.path.join(VECTOR_STORE_PATH, basename(project).replace('.', '_')). */
  function StoreKey(project: string): string {
    VectorStorePath + "/" + ReplaceChar(Basename(project), '.', '_')
  }

  /** The store of a project lies directly under the vector store directory and is
      named after the project's last path component, with its dots made underscores. */
  lemma StoreKeyShape(project: string)
    ensures StartsWith(StoreKey(project), VectorStorePath + "/")
    ensures StoreKey(project)[|VectorStorePath| + 1..] == ReplaceChar(Basename(project), '.', '_')
  {
    StartsWithConcat(VectorStorePath + "/", ReplaceChar(Basename(project), '.', '_'));
  }

  // ---- .gitignore ----

  /** The lines of a text file as Python's text mode iterates them, with the line
      terminators left out ("\r\n" and "\r" read as "\n"). A trailing empty piece and
      the blank pieces a "\r\n" leaves are empty lines, which the filter drops. */
  function Lines(text: string): seq<string> {
    Split(ReplaceChar(text, '\r', '\n'), '\n')
  }

  /** A line that contributes a pattern: non-blank and, once stripped, not a comment. */
  predicate IsPattern(line: string) {
    var t := Strip(line);
    t != "" && t[0] != '#'
  }

  /** The stripped pattern lines, in file order. */
  function PatternsOf(lines: seq<string>): seq<string> {
    FlatMap(lines, PatternOf)
  }

  /** The pattern a line contributes: none, or the stripped line. */
  function PatternOf(line: string): seq<string> {
    if IsPattern(line) then [Strip(line)] else []
  }

  /** Every pattern line of the file is among the patterns. */
  lemma PatternLinesKept(lines: seq<string>, i: nat)
    requires i < |lines| && IsPattern(lines[i])
    ensures Strip(lines[i]) in PatternsOf(lines)
  {
    assert PatternOf(lines[i]) == [Strip(lines[i])];
    FlatMapHas(lines, PatternOf, i, Strip(lines[i]));
  }

  /** Every pattern comes from a pattern line of the file. */
  lemma PatternsFromLines(lines: seq<string>, p: string)
    requires p in PatternsOf(lines)
    ensures exists i :: 0 <= i < |lines| && IsPattern(lines[i]) && p == Strip(lines[i])
  {
    FlatMapFrom(lines, PatternOf, p);
    var i :| 0 <= i < |lines| && p in PatternOf(lines[i]);
    assert IsPattern(lines[i]) && p == Strip(lines[i]);
  }

  /** _get_gitignore_patterns, given the content of the project's .gitignore (None
      when the file does not exist). */
  method GitignorePatterns(gitignore: Option<string>) returns (patterns: seq<string>)
    ensures gitignore.None? ==> patterns == []
    ensures gitignore.Some? ==> patterns == PatternsOf(Lines(gitignore.value))
  {
    patterns := [];
    if gitignore.None? {
      return;
    }
    patterns := CollectPatterns(Lines(gitignore.value));
  }

  /** The loop over the lines of .gitignore in _get_gitignore_patterns. */
  method CollectPatterns(lines: seq<string>) returns (patterns: seq<string>)
    ensures patterns == PatternsOf(lines)
  {
    patterns := [];
    for i := 0 to |lines|
      invariant patterns == FlatMapUpTo(lines, PatternOf, i)
    {
      var line := Strip(lines[i]);
      if line != "" && line[0] != '#' {
        assert PatternOf(lines[i]) == [line];
        patterns := patterns + [line];
      } else {
        assert PatternOf(lines[i]) == [];
      }
    }
  }

  // ---- indexes ----

  /** A document of the project as the directory reader loads it. */
  datatype SourceDoc = SourceDoc(path: string, text: string)

  /** A vector index over a project's documents, persisted under storePath. */
  datatype CodebaseIndex = CodebaseIndex(storePath: string, dim: int, docs: seq<SourceDoc>)

  /** The reader: the documents under a project directory that no pattern excludes,
      or None when reading raises. */
  type Reader = (string, seq<string>) -> Option<seq<SourceDoc>>

  /** A source node of a query response: its content, the file_path of its metadata
      (the directory reader records one for every document it loads) and its score. */
  datatype SourceNode = SourceNode(content: string, filePath: Option<string>, score: real)

  /** The query engine of an index: the source nodes of the top_k best matches, or
      None when the query raises. */
  type Retriever = (CodebaseIndex, string, int) -> Option<seq<SourceNode>>

  /** One entry of a query result. */
  datatype Snippet = Snippet(text: string, filePath: string, score: real)

  /** The snippet of one source node; a node without a file_path reads as 'N/A'. */
  function SnippetOf(node: SourceNode): (r: Snippet)
    ensures r.text == node.content && r.score == node.score
    ensures node.filePath.None? ==> r.filePath == "N/A"
    ensures node.filePath.Some? ==> r.filePath == node.filePath.value
  {
    Snippet(node.content, node.filePath.GetOr("N/A"), node.score)
  }

  /** The snippets of a response, one per source node, in order. */
  function SnippetsOf(nodes: seq<SourceNode>): (r: seq<Snippet>)
    ensures |r| == |nodes|
    ensures forall i :: 0 <= i < |nodes| ==> r[i] == SnippetOf(nodes[i])
  {
    seq(|nodes|, i requires 0 <= i < |nodes| => SnippetOf(nodes[i]))
  }

  /** What the service consults besides its own state. */
  datatype IndexConfig = IndexConfig(
    /** Settings.embed_model.embed_dim, or None where reading it raises AttributeError. */
    embedDim: Option<int>,
    /** The content of <project>/.gitignore, None when the file does not exist. */
    gitignoreOf: string -> Option<string>,
    reader: Reader)

  /** The dimension of the indexes the service creates. */
  function Dim(cfg: IndexConfig): int {
    cfg.embedDim.GetOr(DefaultEmbedDim)
  }

  /** What the reader yields for a project, with its .gitignore patterns excluded. */
  function ReadProject(cfg: IndexConfig, project: string): Option<seq<SourceDoc>> {
    cfg.reader(project, PatternsOf(Lines(cfg.gitignoreOf(project).GetOr(""))))
  }

  /** The module-level memo (_codebase_index_cache, store path to index) and the stores
      persisted on disk (store path to the documents persisted there). */
  datatype StoreState = StoreState(memo: map<string, CodebaseIndex>, disk: map<string, seq<SourceDoc>>)

  /** Every memoised index is the one persisted under its key, and a store is only
      persisted with documents in it. */
  predicate ValidState(st: StoreState) {
    && (forall k :: k in st.memo ==> k in st.disk && st.memo[k].storePath == k && st.memo[k].docs == st.disk[k])
    && (forall k :: k in st.disk ==> st.disk[k] != [])
  }

  /** The index a project resolves to: the memoised one, else the persisted one, else
      one built from the documents read, unless reading raises or finds nothing. */
  function Resolve(cfg: IndexConfig, st: StoreState, project: string): (r: Option<CodebaseIndex>)
    ensures ValidState(st) && r.Some? ==> r.value.storePath == StoreKey(project) && r.value.docs != []
    ensures StoreKey(project) in st.memo ==> r == Some(st.memo[StoreKey(project)])
    ensures StoreKey(project) !in st.memo && StoreKey(project) in st.disk ==>
      r == Some(CodebaseIndex(StoreKey(project), Dim(cfg), st.disk[StoreKey(project)]))
    ensures StoreKey(project) !in st.memo && StoreKey(project) !in st.disk ==>
      (r.Some? <==> ReadProject(cfg, project).Some? && ReadProject(cfg, project).value != [])
    ensures StoreKey(project) !in st.memo && StoreKey(project) !in st.disk && r.Some? ==>
      r.value.docs == ReadProject(cfg, project).value
  {
    var key := StoreKey(project);
    if key in st.memo then Some(st.memo[key])
    else if key in st.disk then Some(CodebaseIndex(key, Dim(cfg), st.disk[key]))
    else
      match ReadProject(cfg, project)
      case None => None
      case Some(docs) => if docs == [] then None else Some(CodebaseIndex(key, Dim(cfg), docs))
  }

  /** The state after initialising a project: a resolved index is memoised (and, when
      it was built, persisted); a failure leaves everything as it was. */
  function Initialized(cfg: IndexConfig, st: StoreState, project: string): (r: StoreState)
    ensures ValidState(st) ==> ValidState(r)
    ensures Resolve(cfg, st, project).None? ==> r == st
    ensures Resolve(cfg, st, project).Some? ==>
      r.memo == st.memo[StoreKey(project) := Resolve(cfg, st, project).value]
    ensures ValidState(st) && Resolve(cfg, st, project).Some? && StoreKey(project) in st.disk ==> r.disk == st.disk
    ensures ValidState(st) && StoreKey(project) !in st.disk && Resolve(cfg, st, project).Some? ==>
      r.disk == st.disk[StoreKey(project) := ReadProject(cfg, project).value]
  {
    match Resolve(cfg, st, project)
    case None => st
    case Some(index) =>
      MemoiseKeepsValid(st, StoreKey(project), index);
      StoreState(st.memo[StoreKey(project) := index], st.disk[StoreKey(project) := index.docs])
  }

  /** Memoising an index under its own key, with its documents persisted there, keeps
      the state valid. */
  lemma MemoiseKeepsValid(st: StoreState, key: string, index: CodebaseIndex)
    ensures (ValidState(st) && index.storePath == key && index.docs != [] &&
      (key in st.disk ==> index.docs == st.disk[key])) ==>
      ValidState(StoreState(st.memo[key := index], st.disk[key := index.docs]))
  {
  }

  /** Initialising a project whose index is memoised changes nothing. */
  lemma InitMemoised(cfg: IndexConfig, st: StoreState, project: string)
    requires ValidState(st) && StoreKey(project) in st.memo
    ensures Resolve(cfg, st, project) == Some(st.memo[StoreKey(project)])
    ensures Initialized(cfg, st, project) == st
  {
    var key := StoreKey(project);
    assert st.memo[key := st.memo[key]] == st.memo;
    assert st.disk[key := st.memo[key].docs] == st.disk;
  }

  /** Initialising a project persisted but not memoised memoises the persisted index. */
  lemma InitFromDisk(cfg: IndexConfig, st: StoreState, project: string)
    requires ValidState(st) && StoreKey(project) !in st.memo && StoreKey(project) in st.disk
    ensures var index := CodebaseIndex(StoreKey(project), Dim(cfg), st.disk[StoreKey(project)]);
      Resolve(cfg, st, project) == Some(index) &&
      Initialized(cfg, st, project) == StoreState(st.memo[StoreKey(project) := index], st.disk)
  {
    var key := StoreKey(project);
    assert st.disk[key := st.disk[key]] == st.disk;
  }

  /** Initialising a project neither memoised nor persisted builds, memoises and
      persists an index over the documents read. */
  lemma InitBuilt(cfg: IndexConfig, st: StoreState, project: string, docs: seq<SourceDoc>)
    requires StoreKey(project) !in st.memo && StoreKey(project) !in st.disk
    requires ReadProject(cfg, project) == Some(docs) && docs != []
    ensures var index := CodebaseIndex(StoreKey(project), Dim(cfg), docs);
      Resolve(cfg, st, project) == Some(index) &&
      Initialized(cfg, st, project) == StoreState(st.memo[StoreKey(project) := index], st.disk[StoreKey(project) := docs])
  {
  }

  /** Initialising a project whose documents cannot be read, or are none, fails and
      changes nothing. */
  lemma InitFails(cfg: IndexConfig, st: StoreState, project: string)
    requires StoreKey(project) !in st.memo && StoreKey(project) !in st.disk
    requires ReadProject(cfg, project).None? || ReadProject(cfg, project).value == []
    ensures Resolve(cfg, st, project).None?
    ensures Initialized(cfg, st, project) == st
  {
  }

  /** Initialising a project does not change what it resolves to: the index returned
      first is the one every later call returns. */
  lemma InitializeIsStable(cfg: IndexConfig, st: StoreState, project: string)
    requires ValidState(st)
    ensures Resolve(cfg, Initialized(cfg, st, project), project) == Resolve(cfg, st, project)
  {
  }

  /** A project with another store key resolves as before. */
  lemma OtherProjectsUnaffected(cfg: IndexConfig, st: StoreState, a: string, b: string)
    requires ValidState(st) && StoreKey(a) != StoreKey(b)
    ensures Resolve(cfg, Initialized(cfg, st, a), b) == Resolve(cfg, st, b)
  {
  }

  /** A project with the same store key gets the index memoised for the other one,
      whatever its own files hold. */
  lemma SameStoreShared(cfg: IndexConfig, st: StoreState, a: string, b: string)
    requires ValidState(st) && StoreKey(a) == StoreKey(b) && Resolve(cfg, st, a).Some?
    ensures Resolve(cfg, Initialized(cfg, st, a), b) == Resolve(cfg, st, a)
  {
  }

  /** The result of a query given what the project resolved to: no index gives no
      snippets, a query that raises gives None, otherwise one snippet per node. */
  function QueryResult(index: Option<CodebaseIndex>, queryText: string, topK: int, retrieve: Retriever): (r: Option<seq<Snippet>>)
    ensures index.None? ==> r == Some([])
    ensures index.Some? ==> (r.None? <==> retrieve(index.value, queryText, topK).None?)
    ensures index.Some? && r.Some? ==> r.value == SnippetsOf(retrieve(index.value, queryText, topK).value)
  {
    match index
    case None => Some([])
    case Some(i) =>
      match retrieve(i, queryText, topK)
      case None => None
      case Some(nodes) => Some(SnippetsOf(nodes))
  }

  /** The codebase service with its memo and persisted stores. */
  class CodebaseService {
    var memo: map<string, CodebaseIndex>
    var disk: map<string, seq<SourceDoc>>
    const cfg: IndexConfig

    function State(): StoreState
      reads this
    {
      StoreState(memo, disk)
    }

    predicate Valid()
      reads this
    {
      ValidState(State())
    }

    constructor(cfg: IndexConfig, disk: map<string, seq<SourceDoc>>)
      requires forall k :: k in disk ==> disk[k] != []
      ensures memo == map[] && this.disk == disk && this.cfg == cfg
      ensures Valid()
    {
      memo := map[];
      this.disk := disk;
      this.cfg := cfg;
    }

    /** initialize_codebase_vector_store. */
    method Initialize(project: string) returns (r: Option<CodebaseIndex>)
      requires Valid()
      modifies this
      ensures Valid()
      ensures r == Resolve(cfg, old(State()), project)
      ensures State() == Initialized(cfg, old(State()), project)
    {
      var key := StoreKey(project);
      if key in memo {
        InitMemoised(cfg, State(), project);
        return Some(memo[key]);
      }
      var dim := if cfg.embedDim.Some? then cfg.embedDim.value else DefaultEmbedDim;
      var index;
      if key !in disk {
        var excluded := GitignorePatterns(cfg.gitignoreOf(project));
        assert excluded == PatternsOf(Lines(cfg.gitignoreOf(project).GetOr("")));
        var read := cfg.reader(project, excluded);
        if read.None? || read.value == [] {
          InitFails(cfg, State(), project);
          return None;
        }
        InitBuilt(cfg, State(), project, read.value);
        disk := disk[key := read.value];
        index := CodebaseIndex(key, dim, read.value);
      } else {
        InitFromDisk(cfg, State(), project);
        index := CodebaseIndex(key, dim, disk[key]);
      }
      memo := memo[key := index];
      r := Some(index);
    }

    /** query_codebase_vector_store. */
    method Query(project: string, queryText: string, topK: int, retrieve: Retriever) returns (r: Option<seq<Snippet>>)
      requires Valid()
      modifies this
      ensures Valid()
      ensures r == QueryResult(Resolve(cfg, old(State()), project), queryText, topK, retrieve)
      ensures State() == Initialized(cfg, old(State()), project)
    {
      var index := Initialize(project);
      if index.None? {
        return Some([]);
      }
      var response := retrieve(index.value, queryText, topK);
      if response.None? {
        return None;
      }
      var snippets := CollectSnippets(response.value);
      r := Some(snippets);
    }
  }

  /** The loop over the retrieved nodes of query_codebase_vector_store. */
  method CollectSnippets(nodes: seq<SourceNode>) returns (snippets: seq<Snippet>)
    ensures snippets == SnippetsOf(nodes)
  {
    snippets := [];
    for i := 0 to |nodes|
      invariant snippets == SnippetsOf(nodes[..i])
    {
      snippets := snippets + [SnippetOf(nodes[i])];
    }
    assert nodes[..|nodes|] == nodes;
  }
}
