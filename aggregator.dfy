/** The result aggregator: the pipeline's results in the fixed shape of an analysis
    report, with a default for every missing key. */
module Aggregator {
  import opened Wrappers
  import opened Json

  const SummaryDefault := "Error generating summary."

  /** The keys of a report, in order. */
  const SummaryKey := "summary"
  const ComponentsKey := "components"
  const DependenciesKey := "dependencies"
  const DependentsKey := "dependents"
  const ReportKeys: seq<string> := [SummaryKey, ComponentsKey, DependenciesKey, DependentsKey]

  /** The default of a report key the results lack. */
  function DefaultOf(key: string): Json {
    if key == SummaryKey then JStr(SummaryDefault) else JArr([])
  }

  /** ResultAggregator.aggregate. */
  function Aggregate(results: seq<Field>): (r: Json)
    ensures r.JObj? && |r.fields| == |ReportKeys|
    ensures forall i :: 0 <= i < |ReportKeys| ==> r.fields[i].0 == ReportKeys[i]
    ensures forall i :: 0 <= i < |ReportKeys| ==>
      r.fields[i].1 == Lookup(results, ReportKeys[i]).GetOr(DefaultOf(ReportKeys[i]))
  {
    JObj([
      (SummaryKey, GetOr(JObj(results), SummaryKey, JStr(SummaryDefault))),
      (ComponentsKey, GetOr(JObj(results), ComponentsKey, JArr([]))),
      (DependenciesKey, GetOr(JObj(results), DependenciesKey, JArr([]))),
      (DependentsKey, GetOr(JObj(results), DependentsKey, JArr([])))])
  }

  /** A key of the results outside the report's four is dropped. */
  lemma ExtraKeysDropped(results: seq<Field>, key: string)
    requires key !in ReportKeys
    ensures Lookup(Aggregate(results).fields, key).None?
  {
  }

  /** A report key the results hold passes through unchanged, None included; a missing
      one gets its default. */
  lemma {:induction false} ReportLookup(results: seq<Field>, key: string)
    requires key in ReportKeys
    ensures Lookup(results, key).Some? ==> Lookup(Aggregate(results).fields, key) == Lookup(results, key)
    ensures Lookup(results, key).None? ==> Lookup(Aggregate(results).fields, key) == Some(DefaultOf(key))
  {
    var r := Aggregate(results).fields;
    var i :| 0 <= i < |ReportKeys| && ReportKeys[i] == key;
    assert r[i].0 == key;
    forall j | 0 <= j < |r| && j != i
      ensures r[j].0 != key
    {
      assert r[j].0 == ReportKeys[j];
    }
    LookupSingle(r, key, i);
  }

  /** The lookup of a key bound at exactly one position. */
  lemma {:induction false} LookupSingle(fields: seq<Field>, key: string, i: nat)
    requires i < |fields| && fields[i].0 == key
    requires forall j :: 0 <= j < |fields| && j != i ==> fields[j].0 != key
    ensures Lookup(fields, key) == Some(fields[i].1)
    decreases |fields|
  {
    var n := |fields| - 1;
    if i < n {
      LookupSingle(fields[..n], key, i);
    }
  }

  /** Results that hold exactly the four report keys, in order, are the report as they
      stand: no default is used. */
  lemma AggregateComplete(results: seq<Field>)
    requires |results| == 4
    requires results[0].0 == SummaryKey && results[1].0 == ComponentsKey
    requires results[2].0 == DependenciesKey && results[3].0 == DependentsKey
    ensures Aggregate(results) == JObj(results)
  {
    var r := Aggregate(results).fields;
    forall i | 0 <= i < |results|
      ensures r[i] == results[i]
    {
      LookupSingle(results, ReportKeys[i], i);
    }
  }
}
