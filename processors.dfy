/** The four analysis processors of a source file: a one-sentence summary and a list
    of components from the LLM, the imported modules from the syntax tree, and the
    files that import this one from the codebase index. File reads, the LLM, the Python
    parser and the index query are functions of the workspace. */
module Processors {
  import opened Wrappers
  import opened Text
  import opened Json
  import opened StrOrder
  import opened Codebase

  /** The nodes of ast.walk(ast.parse(content)) that matter to the dependency scan. */
  datatype AstNode =
    | ImportNode(names: seq<string>)
    | ImportFromNode(source: Option<string>)
    | OtherNode

  /** What the processors consult: reading a file as text (None when it raises), the
      LLM (the str() of complete(prompt), None when it raises), the Python parser of a
      file's content (None on a syntax error) and the query engine of an index. */
  datatype Workspace = Workspace(
    read: string -> Option<string>,
    complete: string -> Option<string>,
    parse: string -> Option<seq<AstNode>>,
    retrieve: Retriever)

  /** How a call of process() ends: with a value, or with an exception it lets through. */
  datatype Outcome = Returned(value: Json) | Raised

  const Rule := "---------------------"

  /** Asking the LLM: its response stripped, or the components named in it; an
      exception of the LLM is let through. */
  function Asked(ws: Workspace, prompt: string, components: bool): (o: Outcome)
    ensures o.Raised? <==> ws.complete(prompt).None?
    ensures o.Returned? && !components ==> o.value == JStr(Strip(ws.complete(prompt).value))
    ensures o.Returned? && components ==> o.value == StrList(ComponentsOf(ws.complete(prompt).value))
    ensures o.Returned? && components ==> IsItemList(o.value)
  {
    match ws.complete(prompt)
    case None => Raised
    case Some(response) => if components then ComponentsReturned(response) else Returned(JStr(Strip(response)))
  }

  // ---- summary ----

  /** The instruction the summary prompt opens with. */
  const SummaryInstruction := "Based on the following code, provide a concise, one-sentence summary of its primary purpose.\n"

  function SummaryPrompt(content: string): string {
    SummaryInstruction +
    Rule + "\n" + content + "\n" + Rule + "\nSummary: "
  }

  /** The file content sits between the two rule lines of the prompt. */
  lemma SummaryPromptHoldsContent(content: string)
    ensures Contains(SummaryPrompt(content), Rule + "\n" + content + "\n" + Rule)
  {
    var lead := SummaryInstruction;
    var body := Rule + "\n" + content + "\n" + Rule;
    assert SummaryPrompt(content) == lead + body + "\nSummary: ";
    assert SummaryPrompt(content)[|lead|..|lead| + |body|] == body;
    ContainsAt(SummaryPrompt(content), body, |lead|);
  }

  /** SummaryProcessor.process. */
  function SummaryOutcome(ws: Workspace, file: string): (o: Outcome)
    ensures ws.read(file).None? ==> o == Returned(JStr(""))
    ensures ws.read(file).Some? && IsBlank(ws.read(file).value) ==> o == Returned(JStr("This file is empty."))
    ensures ws.read(file).Some? && !IsBlank(ws.read(file).value) ==> o == Asked(ws, SummaryPrompt(ws.read(file).value), false)
    ensures o.Returned? ==> o.value.JStr? && Stripped(o.value.s)
  {
    match ws.read(file)
    case None => Returned(JStr(""))
    case Some(content) =>
      if Strip(content) == "" then Returned(JStr("This file is empty.")) else Asked(ws, SummaryPrompt(content), false)
  }

  // ---- components ----

  /** The instruction the components prompt opens with. */
  const ComponentsInstruction := "Based on the following code, list the names of the key functions and classes. " +
    "Format the output as a comma-separated list (e.g., function_one, ClassTwo, function_three).\n"

  function ComponentsPrompt(content: string): string {
    ComponentsInstruction +
    Rule + "\n" + content + "\n" + Rule + "\nComponents: "
  }

  /** [item.strip() for item in pieces if item.strip()] */
  function Items(pieces: seq<string>): (r: seq<string>)
    ensures forall i :: 0 <= i < |r| ==> r[i] != "" && Stripped(r[i])
    ensures |r| <= |pieces|
    decreases |pieces|
  {
    if |pieces| == 0 then []
    else (if Strip(pieces[0]) != "" then [Strip(pieces[0])] else []) + Items(pieces[1..])
  }

  /** The comprehension works piece by piece: items keep the order of the pieces and a
      repeated piece gives a repeated item. */
  lemma {:induction false} ItemsConcat(a: seq<string>, b: seq<string>)
    ensures Items(a + b) == Items(a) + Items(b)
    decreases |a|
  {
    if |a| == 0 {
      assert a + b == b;
    } else {
      assert (a + b)[0] == a[0];
      assert (a + b)[1..] == a[1..] + b;
      ItemsConcat(a[1..], b);
    }
  }

  /** The components named in an LLM response. */
  function ComponentsOf(response: string): seq<string> {
    Items(Split(Strip(response), ','))
  }

  /** There are never more components than commas in the response, plus one. */
  lemma ComponentsBound(response: string)
    ensures |ComponentsOf(response)| <= Count(response, ',') + 1
  {
    CountStrip(response, ',');
  }

  /** A list of non-empty strings without surrounding whitespace. */
  predicate IsItemList(j: Json) {
    j.JArr? && forall i :: 0 <= i < |j.items| ==> j.items[i].JStr? && j.items[i].s != "" && Stripped(j.items[i].s)
  }

  /** ComponentProcessor.process. */
  function ComponentsOutcome(ws: Workspace, file: string): (o: Outcome)
    ensures ws.read(file).None? ==> o == Returned(JArr([]))
    ensures ws.read(file).Some? && IsBlank(ws.read(file).value) ==> o == Returned(JArr([]))
    ensures ws.read(file).Some? && !IsBlank(ws.read(file).value) ==> o == Asked(ws, ComponentsPrompt(ws.read(file).value), true)
    ensures o.Returned? ==> IsItemList(o.value)
  {
    match ws.read(file)
    case None => Returned(JArr([]))
    case Some(content) =>
      if Strip(content) == "" then Returned(JArr([])) else Asked(ws, ComponentsPrompt(content), true)
  }

  /** The list of components of a response, as process() returns it. */
  function ComponentsReturned(response: string): (o: Outcome)
    ensures o == Returned(StrList(ComponentsOf(response)))
    ensures IsItemList(o.value)
  {
    var xs := ComponentsOf(response);
    assert forall i :: 0 <= i < |xs| ==> xs[i] != "" && Stripped(xs[i]);
    Returned(StrList(xs))
  }

  // ---- dependencies ----

  /** The module names one node contributes: every alias of an import, the module of a
      from-import when it has one (a relative "from . import x" has none). */
  function NodeImports(node: AstNode): set<string> {
    match node
    case ImportNode(names) => set i | 0 <= i < |names| :: names[i]
    case ImportFromNode(m) => if m.Some? && m.value != "" then {m.value} else {}
    case OtherNode => {}
  }

  function ImportedNames(nodes: seq<AstNode>): set<string>
    decreases |nodes|
  {
    if |nodes| == 0 then {} else ImportedNames(nodes[..|nodes| - 1]) + NodeImports(nodes[|nodes| - 1])
  }

  /** A name is imported exactly when some node contributes it. */
  lemma {:induction false} ImportedNamesIff(nodes: seq<AstNode>, x: string)
    ensures x in ImportedNames(nodes) <==> exists i :: 0 <= i < |nodes| && x in NodeImports(nodes[i])
    decreases |nodes|
  {
    if |nodes| > 0 {
      var n := |nodes| - 1;
      ImportedNamesIff(nodes[..n], x);
      if x in ImportedNames(nodes[..n]) {
        var i :| 0 <= i < n && x in NodeImports(nodes[..n][i]);
        assert nodes[i] == nodes[..n][i];
      }
      if exists i :: 0 <= i < |nodes| && x in NodeImports(nodes[i]) {
        var i :| 0 <= i < |nodes| && x in NodeImports(nodes[i]);
        if i < n {
          assert nodes[..n][i] == nodes[i];
        }
      }
    }
  }

  /** DependencyProcessor.process: the imported names in ascending order; a file that
      cannot be read or parsed gives []. */
  ghost function DependenciesOf(ws: Workspace, file: string): seq<string> {
    match ws.read(file)
    case None => []
    case Some(content) =>
      match ws.parse(content)
      case None => []
      case Some(nodes) => Ascending(ImportedNames(nodes))
  }

  /** The dependencies are sorted without duplicates, and are exactly the imported names. */
  lemma DependenciesAscending(ws: Workspace, file: string, nodes: seq<AstNode>)
    ensures StrictlyAscending(DependenciesOf(ws, file))
    ensures ws.read(file).Some? && ws.parse(ws.read(file).value) == Some(nodes) ==>
      forall x :: x in DependenciesOf(ws, file) <==> x in ImportedNames(nodes)
  {
  }

  method DependencyProcess(ws: Workspace, file: string) returns (r: seq<string>)
    ensures r == DependenciesOf(ws, file)
  {
    var content := ws.read(file);
    if content.None? {
      return [];
    }
    var tree := ws.parse(content.value);
    if tree.None? {
      return [];
    }
    var nodes := tree.value;
    var dependencies: set<string> := {};
    for i := 0 to |nodes|
      invariant dependencies == ImportedNames(nodes[..i])
    {
      assert nodes[..i + 1][..i] == nodes[..i];
      match nodes[i]
      case ImportNode(names) =>
        ghost var before := dependencies;
        for j := 0 to |names|
          invariant dependencies == before + set k | 0 <= k < j :: names[k]
        {
          dependencies := dependencies + {names[j]};
        }
      case ImportFromNode(m) =>
        if m.Some? && m.value != "" {
          dependencies := dependencies + {m.value};
        }
      case OtherNode =>
    }
    assert nodes[..|nodes|] == nodes;
    r := SortedList(dependencies);
  }

  // ---- dependents ----

  /** os.path.splitext(os.path.basename(file))[0] */
  function ModuleName(file: string): string {
    StemOf(Basename(file))
  }

  function DependentsQuery(name: string): string {
    "from ." + name + " import|import " + name
  }

  const DependentsTopK := 10

  /** The file paths of the snippets other than the file itself. */
  function OtherPaths(snippets: seq<Snippet>, file: string): (r: set<string>)
    ensures file !in r
    ensures forall p :: p in r <==> exists i :: 0 <= i < |snippets| && snippets[i].filePath == p && p != file
  {
    set i | 0 <= i < |snippets| && snippets[i].filePath != file :: snippets[i].filePath
  }

  lemma OtherPathsSnoc(snippets: seq<Snippet>, file: string)
    requires |snippets| > 0
    ensures var n := |snippets| - 1;
      OtherPaths(snippets, file) ==
        OtherPaths(snippets[..n], file) + (if snippets[n].filePath != file then {snippets[n].filePath} else {})
  {
    var n := |snippets| - 1;
    var front := snippets[..n];
    forall p | p in OtherPaths(snippets, file)
      ensures p in OtherPaths(front, file) || (p == snippets[n].filePath && p != file)
    {
      var i :| 0 <= i < |snippets| && snippets[i].filePath == p && p != file;
      if i < n {
        assert front[i] == snippets[i];
      }
    }
    forall p | p in OtherPaths(front, file)
      ensures p in OtherPaths(snippets, file)
    {
      var i :| 0 <= i < |front| && front[i].filePath == p && p != file;
      assert snippets[i] == front[i];
    }
  }

  /** DependentProcessor.process given what the project resolves to: the other files
      among the snippets, ascending; a query that raises gives []. */
  ghost function DependentsOf(ws: Workspace, index: Option<CodebaseIndex>, file: string): seq<string> {
    match QueryResult(index, DependentsQuery(ModuleName(file)), DependentsTopK, ws.retrieve)
    case None => []
    case Some(snippets) => Ascending(OtherPaths(snippets, file))
  }

  /** The dependents are sorted without duplicates and never name the file itself. */
  lemma DependentsAscending(ws: Workspace, index: Option<CodebaseIndex>, file: string)
    ensures StrictlyAscending(DependentsOf(ws, index, file))
    ensures file !in DependentsOf(ws, index, file)
  {
  }

  /** Every dependent is the file path of a snippet the query returned. */
  lemma DependentsFromSnippets(ws: Workspace, index: CodebaseIndex, file: string, p: string)
    requires p in DependentsOf(ws, Some(index), file)
    ensures ws.retrieve(index, DependentsQuery(ModuleName(file)), DependentsTopK).Some?
    ensures exists node :: (node in ws.retrieve(index, DependentsQuery(ModuleName(file)), DependentsTopK).value &&
      SnippetOf(node).filePath == p)
  {
    var nodes := ws.retrieve(index, DependentsQuery(ModuleName(file)), DependentsTopK).value;
    var snippets := SnippetsOf(nodes);
    var i :| 0 <= i < |snippets| && snippets[i].filePath == p && p != file;
    assert nodes[i] in nodes;
  }

  method DependentProcess(svc: Codebase.CodebaseService, ws: Workspace, project: string, file: string) returns (r: seq<string>)
    requires svc.Valid()
    modifies svc
    ensures svc.Valid()
    ensures r == DependentsOf(ws, Resolve(svc.cfg, old(svc.State()), project), file)
    ensures svc.State() == Initialized(svc.cfg, old(svc.State()), project)
  {
    var name := ModuleName(file);
    var query := "from ." + name + " import|import " + name;
    var results := svc.Query(project, query, 10, ws.retrieve);
    if results.None? {
      return [];
    }
    var dependents := CollectDependents(results.value, file);
    r := SortedList(dependents);
  }

  /** The loop over the search results of DependentProcessor.process. */
  method CollectDependents(snippets: seq<Snippet>, file: string) returns (dependents: set<string>)
    ensures dependents == OtherPaths(snippets, file)
  {
    dependents := {};
    for i := 0 to |snippets|
      invariant dependents == OtherPaths(snippets[..i], file)
    {
      OtherPathsSnoc(snippets[..i + 1], file);
      assert snippets[..i + 1][..i] == snippets[..i];
      if snippets[i].filePath != file {
        dependents := dependents + {snippets[i].filePath};
      }
    }
    assert snippets[..|snippets|] == snippets;
  }

  // ---- the processors as the pipeline sees them ----

  datatype Kind = Summary | Components | Dependencies | Dependents

  /** A processor instance: its kind and the paths BaseProcessor stores. */
  datatype Processor = Processor(kind: Kind, projectPath: string, filePath: string)

  /** How process() of a processor ends, given the codebase state it starts in. */
  ghost function OutcomeOf(p: Processor, ws: Workspace, cfg: IndexConfig, st: StoreState): Outcome {
    match p.kind
    case Summary => SummaryOutcome(ws, p.filePath)
    case Components => ComponentsOutcome(ws, p.filePath)
    case Dependencies => Returned(StrList(DependenciesOf(ws, p.filePath)))
    case Dependents => Returned(StrList(DependentsOf(ws, Resolve(cfg, st, p.projectPath), p.filePath)))
  }

  /** Only the dependents processor touches the codebase state. */
  function StateAfter(p: Processor, cfg: IndexConfig, st: StoreState): (r: StoreState)
    ensures ValidState(st) ==> ValidState(r)
    ensures !p.kind.Dependents? ==> r == st
  {
    if p.kind.Dependents? then Initialized(cfg, st, p.projectPath) else st
  }

  /** Only the summary and components processors can raise. */
  lemma OnlyTheLlmRaises(p: Processor, ws: Workspace, cfg: IndexConfig, st: StoreState)
    requires OutcomeOf(p, ws, cfg, st).Raised?
    ensures p.kind.Summary? || p.kind.Components?
  {
  }

  /** The summary processor raises only when the LLM does, on a file that was read and
      is not blank. */
  lemma SummaryRaisesFromLlm(ws: Workspace, file: string)
    requires SummaryOutcome(ws, file).Raised?
    ensures ws.read(file).Some? && !IsBlank(ws.read(file).value)
    ensures ws.complete(SummaryPrompt(ws.read(file).value)).None?
  {
  }

  /** The components processor raises only when the LLM does, on a file that was read
      and is not blank. */
  lemma ComponentsRaisesFromLlm(ws: Workspace, file: string)
    requires ComponentsOutcome(ws, file).Raised?
    ensures ws.read(file).Some? && !IsBlank(ws.read(file).value)
    ensures ws.complete(ComponentsPrompt(ws.read(file).value)).None?
  {
  }

  method Process(p: Processor, ws: Workspace, svc: Codebase.CodebaseService) returns (o: Outcome)
    requires svc.Valid()
    modifies svc
    ensures svc.Valid()
    ensures o == OutcomeOf(p, ws, svc.cfg, old(svc.State()))
    ensures svc.State() == StateAfter(p, svc.cfg, old(svc.State()))
  {
    match p.kind
    case Summary =>
      o := SummaryOutcome(ws, p.filePath);
    case Components =>
      o := ComponentsOutcome(ws, p.filePath);
    case Dependencies =>
      var r := DependencyProcess(ws, p.filePath);
      o := Returned(StrList(r));
    case Dependents =>
      var r := DependentProcess(svc, ws, p.projectPath, p.filePath);
      o := Returned(StrList(r));
  }
}
