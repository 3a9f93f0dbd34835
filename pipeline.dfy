/** The analysis pipeline: every named processor is run once, in order, and a processor
    that raises is recorded as None instead of stopping the run. The run is stated for
    any processors whose process() ends as a function of a shared state and leaves a
    new state, which is how the pipeline itself sees them. */
module Pipeline {
  import opened Wrappers
  import opened Json
  import opened Codebase
  import opened Processors

  /** The names of a Python dict are distinct. */
  predicate DistinctNames<P>(procs: seq<(string, P)>) {
    forall i, j :: 0 <= i < j < |procs| ==> procs[i].0 != procs[j].0
  }

  /** The value stored for an outcome: what process() returned, None when it raised. */
  function ValueOf(o: Outcome): (v: Json)
    ensures o.Raised? ==> v == JNull
    ensures o.Returned? ==> v == o.value
  {
    match o
    case Returned(v) => v
    case Raised => JNull
  }

  /** The results of running the processors in order from a state, and the state they
      leave: `outcome` says how process() of a processor ends in a state, `after`
      what state it leaves. */
  ghost function RunSpec<P, S>(procs: seq<(string, P)>, outcome: (P, S) -> Outcome, after: (P, S) -> S, st: S): (seq<Field>, S) {
    RunUpTo(procs, |procs|, outcome, after, st)
  }

  /** The results and the state after the first k processors have run. */
  ghost function RunUpTo<P, S>(procs: seq<(string, P)>, k: nat, outcome: (P, S) -> Outcome, after: (P, S) -> S, st: S): (seq<Field>, S)
    requires k <= |procs|
    decreases k
  {
    if k == 0 then ([], st)
    else
      var before := RunUpTo(procs, k - 1, outcome, after, st);
      var (name, p) := procs[k - 1];
      (Put(before.0, name, ValueOf(outcome(p, before.1))), after(p, before.1))
  }

  /** The state the i-th processor starts in. */
  ghost function StateBefore<P, S>(procs: seq<(string, P)>, i: nat, outcome: (P, S) -> Outcome, after: (P, S) -> S, st: S): S
    requires i <= |procs|
  {
    RunUpTo(procs, i, outcome, after, st).1
  }

  /** The entry the i-th processor contributes: its name and the value its process()
      returned, or None when it raised. */
  ghost function EntryOf<P, S>(procs: seq<(string, P)>, i: nat, outcome: (P, S) -> Outcome, after: (P, S) -> S, st: S): Field
    requires i < |procs|
  {
    (procs[i].0, ValueOf(outcome(procs[i].1, StateBefore(procs, i, outcome, after, st))))
  }

  /** The results hold one entry per processor, in the order of the mapping. */
  lemma RunEntries<P, S>(procs: seq<(string, P)>, outcome: (P, S) -> Outcome, after: (P, S) -> S, st: S)
    requires DistinctNames(procs)
    ensures |RunSpec(procs, outcome, after, st).0| == |procs|
    ensures forall i :: 0 <= i < |procs| ==> RunSpec(procs, outcome, after, st).0[i] == EntryOf(procs, i, outcome, after, st)
  {
    EntriesUpTo(procs, |procs|, outcome, after, st);
  }

  /** The results of the first k processors hold one entry each, in order. */
  lemma {:induction false} EntriesUpTo<P, S>(procs: seq<(string, P)>, k: nat, outcome: (P, S) -> Outcome, after: (P, S) -> S, st: S)
    requires DistinctNames(procs) && k <= |procs|
    ensures |RunUpTo(procs, k, outcome, after, st).0| == k
    ensures forall i :: 0 <= i < k ==> RunUpTo(procs, k, outcome, after, st).0[i] == EntryOf(procs, i, outcome, after, st)
    decreases k
  {
    if k > 0 {
      EntriesUpTo(procs, k - 1, outcome, after, st);
      var before := RunUpTo(procs, k - 1, outcome, after, st);
      var entry := (procs[k - 1].0, ValueOf(outcome(procs[k - 1].1, before.1)));
      NewName(procs, k, outcome, after, st);
      PutNew(before.0, entry.0, entry.1);
      var r := RunUpTo(procs, k, outcome, after, st).0;
      assert r == before.0 + [entry];
      forall i | 0 <= i < k
        ensures r[i] == EntryOf(procs, i, outcome, after, st)
      {
        if i < k - 1 {
          assert r[i] == before.0[i];
        } else {
          assert StateBefore(procs, i, outcome, after, st) == before.1;
        }
      }
    }
  }

  /** The name of the k-th processor is not among the results of those before it. */
  lemma NewName<P, S>(procs: seq<(string, P)>, k: nat, outcome: (P, S) -> Outcome, after: (P, S) -> S, st: S)
    requires DistinctNames(procs) && 0 < k <= |procs|
    requires |RunUpTo(procs, k - 1, outcome, after, st).0| == k - 1
    requires forall i :: 0 <= i < k - 1 ==> RunUpTo(procs, k - 1, outcome, after, st).0[i] == EntryOf(procs, i, outcome, after, st)
    ensures !HasKey(RunUpTo(procs, k - 1, outcome, after, st).0, procs[k - 1].0)
  {
    var r := RunUpTo(procs, k - 1, outcome, after, st).0;
    forall i | 0 <= i < |r|
      ensures r[i].0 != procs[k - 1].0
    {
      assert r[i] == EntryOf(procs, i, outcome, after, st);
    }
  }

  /** The first processor starts in the state the run starts in. */
  lemma StateAtStart<P, S>(procs: seq<(string, P)>, outcome: (P, S) -> Outcome, after: (P, S) -> S, st: S)
    ensures StateBefore(procs, 0, outcome, after, st) == st
  {
  }

  /** A processor that leaves the state it starts in alone hands it to the next. */
  lemma StateKept<P, S>(procs: seq<(string, P)>, k: nat, outcome: (P, S) -> Outcome, after: (P, S) -> S, st: S)
    requires k < |procs|
    requires after(procs[k].1, StateBefore(procs, k, outcome, after, st)) == StateBefore(procs, k, outcome, after, st)
    ensures StateBefore(procs, k + 1, outcome, after, st) == StateBefore(procs, k, outcome, after, st)
  {
  }

  /** Storing under a new key appends. */
  lemma PutNew(fields: seq<Field>, key: string, value: Json)
    requires !HasKey(fields, key)
    ensures Put(fields, key, value) == fields + [(key, value)]
  {
  }

  /** The keys of the results are exactly the names of the processors, whatever they
      returned. */
  lemma RunKeys<P, S>(procs: seq<(string, P)>, outcome: (P, S) -> Outcome, after: (P, S) -> S, st: S, key: string)
    requires DistinctNames(procs)
    ensures HasKey(RunSpec(procs, outcome, after, st).0, key) <==> exists i :: 0 <= i < |procs| && procs[i].0 == key
  {
    RunEntries(procs, outcome, after, st);
    var r := RunSpec(procs, outcome, after, st).0;
    if HasKey(r, key) {
      var i :| 0 <= i < |r| && r[i].0 == key;
      assert r[i] == EntryOf(procs, i, outcome, after, st);
    }
    if exists i :: 0 <= i < |procs| && procs[i].0 == key {
      var i :| 0 <= i < |procs| && procs[i].0 == key;
      assert r[i] == EntryOf(procs, i, outcome, after, st);
    }
  }

  /** How the analysis processors end and what they leave, over the codebase state. */
  ghost function Outcomes(ws: Workspace, cfg: IndexConfig): (Processor, StoreState) -> Outcome {
    (p: Processor, s: StoreState) => OutcomeOf(p, ws, cfg, s)
  }

  function Effects(cfg: IndexConfig): (Processor, StoreState) -> StoreState {
    (p: Processor, s: StoreState) => StateAfter(p, cfg, s)
  }

  /** AnalysisPipeline. */
  class AnalysisPipeline {
    const processors: seq<(string, Processor)>

    constructor(processors: seq<(string, Processor)>)
      requires DistinctNames(processors)
      ensures this.processors == processors
    {
      this.processors := processors;
    }

    /** AnalysisPipeline.run: never raises. */
    method Run(ws: Workspace, svc: CodebaseService) returns (results: seq<Field>)
      requires svc.Valid()
      modifies svc
      ensures svc.Valid()
      ensures (results, svc.State()) == RunSpec(processors, Outcomes(ws, svc.cfg), Effects(svc.cfg), old(svc.State()))
    {
      results := [];
      for i := 0 to |processors|
        invariant svc.Valid()
        invariant (results, svc.State()) == RunUpTo(processors, i, Outcomes(ws, svc.cfg), Effects(svc.cfg), old(svc.State()))
      {
        var (name, processor) := processors[i];
        var o := Process(processor, ws, svc);
        match o
        case Returned(v) =>
          results := Put(results, name, v);
        case Raised =>
          results := Put(results, name, JNull);
      }
    }
  }
}
