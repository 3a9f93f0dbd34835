/** run_analysis: the four processors of one file run through the pipeline and the
    results aggregated into a report. */
module Orchestrator {
  import opened Wrappers
  import opened Json
  import opened Codebase
  import opened Processors
  import opened Pipeline
  import opened Aggregator

  /** The processors mapping: four processors over the same project and file. */
  function AnalysisProcessors(project: string, file: string): (r: seq<(string, Processor)>)
    ensures DistinctNames(r)
    ensures |r| == |ReportKeys| && forall i :: 0 <= i < |r| ==> r[i].0 == ReportKeys[i]
    ensures forall i :: 0 <= i < |r| ==> r[i].1.projectPath == project && r[i].1.filePath == file
  {
    [(SummaryKey, Processor(Summary, project, file)),
     (ComponentsKey, Processor(Components, project, file)),
     (DependenciesKey, Processor(Dependencies, project, file)),
     (DependentsKey, Processor(Dependents, project, file))]
  }

  /** The report of a file: under each key, what the processor of that kind returned
      when started in the state the analysis started in, or None when it raised. */
  ghost function Report(ws: Workspace, cfg: IndexConfig, st: StoreState, project: string, file: string): Json {
    ReportFor(Outcomes(ws, cfg), st, project, file)
  }

  /** The report of a file for any way the processors end. */
  function ReportFor<S>(outcome: (Processor, S) -> Outcome, st: S, project: string, file: string): Json {
    JObj([
      (SummaryKey, ValueOf(outcome(Processor(Summary, project, file), st))),
      (ComponentsKey, ValueOf(outcome(Processor(Components, project, file), st))),
      (DependenciesKey, ValueOf(outcome(Processor(Dependencies, project, file), st))),
      (DependentsKey, ValueOf(outcome(Processor(Dependents, project, file), st)))])
  }

  /** Aggregating the pipeline run over the four processors yields the report: every
      key is present, so no default of the aggregator is ever used. */
  lemma AnalysisIsReport(ws: Workspace, cfg: IndexConfig, st: StoreState, project: string, file: string)
    ensures Aggregate(RunSpec(AnalysisProcessors(project, file), Outcomes(ws, cfg), Effects(cfg), st).0) == Report(ws, cfg, st, project, file)
  {
    EffectsKeepState(cfg);
    AggregatedIsReport(Outcomes(ws, cfg), Effects(cfg), st, project, file);
  }

  lemma AggregatedIsReport<S>(outcome: (Processor, S) -> Outcome, after: (Processor, S) -> S, st: S, project: string, file: string)
    requires forall p: Processor, s: S :: !p.kind.Dependents? ==> after(p, s) == s
    ensures Aggregate(RunSpec(AnalysisProcessors(project, file), outcome, after, st).0) == ReportFor(outcome, st, project, file)
  {
    RunIsReport(outcome, after, st, project, file);
    ReportForFields(outcome, st, project, file);
    AggregateComplete(RunSpec(AnalysisProcessors(project, file), outcome, after, st).0);
  }

  /** When only the dependents processor may change the state, each processor starts
      in the state the run started in, and the results are the report's fields. */
  lemma RunIsReport<S>(outcome: (Processor, S) -> Outcome, after: (Processor, S) -> S, st: S, project: string, file: string)
    requires forall p: Processor, s: S :: !p.kind.Dependents? ==> after(p, s) == s
    ensures RunSpec(AnalysisProcessors(project, file), outcome, after, st).0 == ReportFor(outcome, st, project, file).fields
  {
    var procs := AnalysisProcessors(project, file);
    RunEntries(procs, outcome, after, st);
    ReportForFields(outcome, st, project, file);
    var results := RunSpec(procs, outcome, after, st).0;
    var fields := ReportFor(outcome, st, project, file).fields;
    assert procs[0].1.kind == Summary && procs[1].1.kind == Components && procs[2].1.kind == Dependencies;
    StartStates(procs, outcome, after, st);
    SameFour(results, fields);
  }

  /** The first three processors leave the state alone, so each of the four starts in
      the state the run started in. */
  lemma StartStates<S>(procs: seq<(string, Processor)>, outcome: (Processor, S) -> Outcome, after: (Processor, S) -> S, st: S)
    requires |procs| == 4
    requires !procs[0].1.kind.Dependents? && !procs[1].1.kind.Dependents? && !procs[2].1.kind.Dependents?
    requires forall p: Processor, s: S :: !p.kind.Dependents? ==> after(p, s) == s
    ensures StateBefore(procs, 0, outcome, after, st) == st
    ensures StateBefore(procs, 1, outcome, after, st) == st
    ensures StateBefore(procs, 2, outcome, after, st) == st
    ensures StateBefore(procs, 3, outcome, after, st) == st
  {
    StateAtStart(procs, outcome, after, st);
    StateKept(procs, 0, outcome, after, st);
    StateKept(procs, 1, outcome, after, st);
    StateKept(procs, 2, outcome, after, st);
  }

  /** Two sequences of four that agree at every position are equal. */
  lemma SameFour<T>(a: seq<T>, b: seq<T>)
    requires |a| == 4 && |b| == 4
    requires a[0] == b[0] && a[1] == b[1] && a[2] == b[2] && a[3] == b[3]
    ensures a == b
  {
  }

  /** The summary in the report is what SummaryProcessor.process returned, None when
      the LLM raised. */
  lemma ReportSummary(ws: Workspace, cfg: IndexConfig, st: StoreState, project: string, file: string)
    ensures Report(ws, cfg, st, project, file).fields[0] == (SummaryKey, ValueOf(SummaryOutcome(ws, file)))
  {
    ReportForFields(Outcomes(ws, cfg), st, project, file);
    OutcomesApply(ws, cfg, Processor(Summary, project, file), st);
  }

  /** The components in the report are what ComponentProcessor.process returned, None
      when the LLM raised. */
  lemma ReportComponents(ws: Workspace, cfg: IndexConfig, st: StoreState, project: string, file: string)
    ensures Report(ws, cfg, st, project, file).fields[1] == (ComponentsKey, ValueOf(ComponentsOutcome(ws, file)))
  {
    ReportForFields(Outcomes(ws, cfg), st, project, file);
    ComponentsValue(ws, cfg, st, project, file);
  }

  lemma ComponentsValue(ws: Workspace, cfg: IndexConfig, st: StoreState, project: string, file: string)
    ensures Outcomes(ws, cfg)(Processor(Components, project, file), st) == ComponentsOutcome(ws, file)
  {
    OutcomesApply(ws, cfg, Processor(Components, project, file), st);
  }

  /** The dependencies in the report are the names the file imports, ascending. */
  lemma ReportDependencies(ws: Workspace, cfg: IndexConfig, st: StoreState, project: string, file: string)
    ensures Report(ws, cfg, st, project, file).fields[2] == (DependenciesKey, StrList(DependenciesOf(ws, file)))
  {
    ReportForFields(Outcomes(ws, cfg), st, project, file);
    OutcomesApply(ws, cfg, Processor(Dependencies, project, file), st);
  }

  /** The dependents in the report are the other files the query over the project's
      index finds, ascending; the project is resolved in the state the analysis
      started in. */
  lemma ReportDependents(ws: Workspace, cfg: IndexConfig, st: StoreState, project: string, file: string)
    ensures Report(ws, cfg, st, project, file).fields[3] == (DependentsKey, StrList(DependentsOf(ws, Resolve(cfg, st, project), file)))
  {
    ReportForFields(Outcomes(ws, cfg), st, project, file);
    DependentsValue(ws, cfg, st, project, file);
  }

  lemma DependentsValue(ws: Workspace, cfg: IndexConfig, st: StoreState, project: string, file: string)
    ensures Outcomes(ws, cfg)(Processor(Dependents, project, file), st) == Returned(StrList(DependentsOf(ws, Resolve(cfg, st, project), file)))
  {
    OutcomesApply(ws, cfg, Processor(Dependents, project, file), st);
  }

  /** Outcomes(ws, cfg) is OutcomeOf. */
  lemma OutcomesApply(ws: Workspace, cfg: IndexConfig, p: Processor, s: StoreState)
    ensures Outcomes(ws, cfg)(p, s) == OutcomeOf(p, ws, cfg, s)
  {
  }

  /** Only the dependents processor changes the codebase state. */
  lemma EffectsKeepState(cfg: IndexConfig)
    ensures forall p: Processor, s: StoreState :: !p.kind.Dependents? ==> Effects(cfg)(p, s) == s
  {
  }

  lemma ReportForFields<S>(outcome: (Processor, S) -> Outcome, st: S, project: string, file: string)
    ensures var fields := ReportFor(outcome, st, project, file).fields;
      |fields| == 4 &&
      fields[0] == (SummaryKey, ValueOf(outcome(Processor(Summary, project, file), st))) &&
      fields[1] == (ComponentsKey, ValueOf(outcome(Processor(Components, project, file), st))) &&
      fields[2] == (DependenciesKey, ValueOf(outcome(Processor(Dependencies, project, file), st))) &&
      fields[3] == (DependentsKey, ValueOf(outcome(Processor(Dependents, project, file), st)))
  {
  }

  /** run_analysis. */
  method RunAnalysis(svc: CodebaseService, ws: Workspace, project: string, file: string) returns (report: Json)
    requires svc.Valid()
    modifies svc
    ensures svc.Valid()
    ensures report == Report(ws, svc.cfg, old(svc.State()), project, file)
    ensures svc.State() == Initialized(svc.cfg, old(svc.State()), project)
  {
    var processors := [
      (SummaryKey, Processor(Summary, project, file)),
      (ComponentsKey, Processor(Components, project, file)),
      (DependenciesKey, Processor(Dependencies, project, file)),
      (DependentsKey, Processor(Dependents, project, file))];
    assert processors == AnalysisProcessors(project, file);
    var pipeline := new AnalysisPipeline(processors);
    var results := pipeline.Run(ws, svc);
    report := Aggregate(results);
    AnalysisIsReport(ws, svc.cfg, old(svc.State()), project, file);
    RunStateAfter(ws, svc.cfg, old(svc.State()), project, file);
  }

  /** The analysis changes the codebase state only by initialising the project once. */
  lemma RunStateAfter(ws: Workspace, cfg: IndexConfig, st: StoreState, project: string, file: string)
    ensures RunSpec(AnalysisProcessors(project, file), Outcomes(ws, cfg), Effects(cfg), st).1 == Initialized(cfg, st, project)
  {
    var procs := AnalysisProcessors(project, file);
    EffectsKeepState(cfg);
    StartStates(procs, Outcomes(ws, cfg), Effects(cfg), st);
  }
}
