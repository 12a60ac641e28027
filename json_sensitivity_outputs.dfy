/**
 * The result codec (JsonSensitivityOutputs): `write` flattens an analysis
 * result into (fun, var, value, funRef, varRef) records per scope; `read`
 * regroups a scope's records by (fun, var) and hands each factor the caller's
 * provider lists for that scope the numbers recorded for its pair.
 *
 * The document is modelled as its five fields; the JSON text, the number
 * formatting and `Double.parseDouble` are not: the three numbers travel as an
 * opaque triple.
 */
module JsonSensitivityOutputs {
  import opened Wrappers
  import opened Sensitivity
  import opened InternalSensitivityInputsProvider

  /** The value and the two reference values of one result. */
  datatype Numbers = Numbers(value: real, functionReference: real, variableReference: real)

  /** A SensitivityValue: the factor it answers and its numbers. */
  datatype SensitivityValue = SensitivityValue(factor: SensitivityFactor, numbers: Numbers)

  /** A SensitivityAnalysisResult. */
  datatype AnalysisResult = AnalysisResult(
    ok: bool,
    metrics: map<string, string>,
    logs: string,
    values: seq<SensitivityValue>,
    contingencyValues: map<string, seq<SensitivityValue>>)

  /** One record of the document: the function id, the variable id and the numbers. */
  datatype ValueRecord = ValueRecord(fun: string, variable: string, numbers: Numbers)

  /** The document: the three header fields, the base-case records and the records per contingency id. */
  datatype OutputsDocument = OutputsDocument(
    ok: bool,
    metrics: map<string, string>,
    logs: string,
    values: seq<ValueRecord>,
    contingencyValues: map<string, seq<ValueRecord>>)

  // ---------------------------------------------------------------------------
  // Writer specification

  /** The record a value is written as. */
  function RecordOf(v: SensitivityValue): (r: ValueRecord)
    ensures r.fun == v.factor.func.id && r.variable == v.factor.variable.id && r.numbers == v.numbers
  {
    ValueRecord(v.factor.func.id, v.factor.variable.id, v.numbers)
  }

  /** A scope's records: one per value, in list order. */
  function Records(vs: seq<SensitivityValue>): (rs: seq<ValueRecord>)
    ensures |rs| == |vs| && forall i :: 0 <= i < |vs| ==> rs[i] == RecordOf(vs[i])
  {
    seq(|vs|, i requires 0 <= i < |vs| => RecordOf(vs[i]))
  }

  /** The document `write` emits for a result. */
  function ToDocument(r: AnalysisResult): OutputsDocument {
    OutputsDocument(r.ok, r.metrics, r.logs, Records(r.values),
      map id | id in r.contingencyValues :: Records(r.contingencyValues[id]))
  }

  // ---------------------------------------------------------------------------
  // Writer

  /**
   * `write`: the header fields, then a record per base-case value in list
   * order, then for each contingency id of the result its records in list
   * order. The map's iteration order is left open.
   */
  method Write(result: AnalysisResult) returns (doc: OutputsDocument)
    ensures doc == ToDocument(result)
  {
    var values := WriteRecords(result.values);
    var byContingency: map<string, seq<ValueRecord>> := map[];
    var pending := result.contingencyValues.Keys;
    while pending != {}
      invariant pending <= result.contingencyValues.Keys
      invariant byContingency.Keys == result.contingencyValues.Keys - pending
      invariant forall id :: id in byContingency ==> byContingency[id] == Records(result.contingencyValues[id])
      decreases pending
    {
      var coId :| coId in pending;
      var records := WriteRecords(result.contingencyValues[coId]);
      byContingency := byContingency[coId := records];
      pending := pending - {coId};
    }
    doc := OutputsDocument(result.ok, result.metrics, result.logs, values, byContingency);
  }

  /** One array of records. */
  method WriteRecords(vs: seq<SensitivityValue>) returns (records: seq<ValueRecord>)
    ensures records == Records(vs)
  {
    records := [];
    var i := 0;
    while i < |vs|
      invariant 0 <= i <= |vs|
      invariant |records| == i && forall k :: 0 <= k < i ==> records[k] == RecordOf(vs[k])
    {
      records := records + [RecordOf(vs[i])];
      i := i + 1;
    }
  }

  // ---------------------------------------------------------------------------
  // Reader specification

  /** `reorganizedSensis`: function id → variable id → numbers. */
  type Regrouped = map<string, map<string, Numbers>>

  /**
   * What regrouping a set of records yields: an entry for exactly the pairs
   * some record carries, holding the numbers of one such record. Which record
   * wins among several sharing a pair depends on the set's iteration order.
   */
  ghost predicate IsRegrouping(records: set<ValueRecord>, g: Regrouped) {
    && (forall fun :: fun in g ==> exists r :: r in records && r.fun == fun)
    && (forall r :: r in records ==> r.fun in g && r.variable in g[r.fun])
    && (forall fun, v :: fun in g && v in g[fun] ==> ValueRecord(fun, v, g[fun][v]) in records)
  }

  /** The numbers regrouped under a factor's pair; None where the Java lookup dereferences null. */
  function Lookup(g: Regrouped, x: SensitivityFactor): (r: Option<Numbers>)
    ensures r.Some? <==> x.func.id in g && x.variable.id in g[x.func.id]
    ensures r.Some? ==> r.value == g[x.func.id][x.variable.id]
  {
    if x.func.id in g && x.variable.id in g[x.func.id] then Some(g[x.func.id][x.variable.id]) else None
  }

  /** The factor loop: a value per factor, in factor order; a missing pair is a null dereference. */
  function Associate(g: Regrouped, factors: seq<SensitivityFactor>): (r: Result<seq<SensitivityValue>, Error>)
    ensures r.Err? ==> r.error == NullPointer
  {
    if factors == [] then Ok([])
    else
      match Associate(g, factors[..|factors| - 1])
      case Err(e) => Err(e)
      case Ok(vs) =>
        var x := factors[|factors| - 1];
        match Lookup(g, x)
        case None => Err(NullPointer)
        case Some(n) => Ok(vs + [SensitivityValue(x, n)])
  }

  /** Some record carries the (fun, var) pair. */
  ghost predicate HasPair(records: seq<ValueRecord>, fun: string, variable: string) {
    exists r :: r in records && r.fun == fun && r.variable == variable
  }

  /** Every factor of the list has a record with its (fun, var) pair. */
  ghost predicate Covers(records: seq<ValueRecord>, factors: seq<SensitivityFactor>) {
    forall i :: 0 <= i < |factors| ==> HasPair(records, factors[i].func.id, factors[i].variable.id)
  }

  /** One value per factor, in factor order, carrying the factor and the numbers of a record with its pair. */
  ghost predicate ValuesFrom(records: seq<ValueRecord>, factors: seq<SensitivityFactor>, values: seq<SensitivityValue>) {
    && |values| == |factors|
    && forall i :: 0 <= i < |factors| ==>
         values[i].factor == factors[i] &&
         ValueRecord(factors[i].func.id, factors[i].variable.id, values[i].numbers) in records
  }

  /**
   * When `read` gets through: every base-case factor of the provider has a
   * record, and every contingency id of the document has a factor list whose
   * factors all have records.
   */
  ghost predicate ReadSucceeds(doc: OutputsDocument, p: Provider) {
    && Covers(doc.values, p.basecaseAdditionalFactors)
    && forall id :: id in doc.contingencyValues ==>
         id in p.contingenciesAdditionalFactors && Covers(doc.contingencyValues[id], p.contingenciesAdditionalFactors[id])
  }

  /**
   * What a successful `read` returns: the header fields unchanged, the base
   * case answered factor by factor in provider order, and for exactly the
   * document's contingency ids the provider's list answered likewise.
   */
  ghost predicate IsReadOf(doc: OutputsDocument, p: Provider, res: AnalysisResult) {
    && res.ok == doc.ok && res.metrics == doc.metrics && res.logs == doc.logs
    && ValuesFrom(doc.values, p.basecaseAdditionalFactors, res.values)
    && res.contingencyValues.Keys == doc.contingencyValues.Keys
    && forall id :: id in doc.contingencyValues ==>
         id in p.contingenciesAdditionalFactors &&
         ValuesFrom(doc.contingencyValues[id], p.contingenciesAdditionalFactors[id], res.contingencyValues[id])
  }

  // ---------------------------------------------------------------------------
  // Reader

  /**
   * `read`: regroup the base-case records and answer the provider's base-case
   * factors, then for each contingency id of the document regroup its records
   * afresh and answer the provider's list for that id. A missing pair, or an
   * id the provider has no list for, is a null dereference.
   */
  method Read(doc: OutputsDocument, p: Provider, network: Network) returns (r: Result<AnalysisResult, Error>)
    ensures r.Ok? <==> ReadSucceeds(doc, p)
    ensures r.Err? ==> r.error == NullPointer
    ensures r.Ok? ==> IsReadOf(doc, p, r.value)
  {
    var baseValues := ReadBasecase(doc, p, network);
    if baseValues.Err? {
      return Err(NullPointer);
    }
    var byId := ReadContingencies(doc, p, network);
    if byId.Err? {
      return Err(NullPointer);
    }
    r := Ok(AnalysisResult(doc.ok, doc.metrics, doc.logs, baseValues.value, byId.value));
  }

  /** The base-case part of `read`: the document's records regrouped, then the provider's base-case factors answered. */
  method ReadBasecase(doc: OutputsDocument, p: Provider, network: Network) returns (r: Result<seq<SensitivityValue>, Error>)
    ensures r.Ok? <==> Covers(doc.values, p.basecaseAdditionalFactors)
    ensures r.Err? ==> r.error == NullPointer
    ensures r.Ok? ==> ValuesFrom(doc.values, p.basecaseAdditionalFactors, r.value)
  {
    var groups := Regroup(set x: ValueRecord | x in doc.values);
    var factors := p.GetAdditionalFactors(network);
    r := AssociateValues(groups, factors);
    ScopeRead(doc.values, factors, groups);
  }

  /** The contingency part of `read`: each id of the document, its records regrouped afresh. */
  method ReadContingencies(doc: OutputsDocument, p: Provider, network: Network)
    returns (r: Result<map<string, seq<SensitivityValue>>, Error>)
    ensures r.Ok? <==> forall id :: id in doc.contingencyValues ==>
      id in p.contingenciesAdditionalFactors && Covers(doc.contingencyValues[id], p.contingenciesAdditionalFactors[id])
    ensures r.Err? ==> r.error == NullPointer
    ensures r.Ok? ==> r.value.Keys == doc.contingencyValues.Keys
    ensures r.Ok? ==> forall id :: id in doc.contingencyValues ==>
      id in p.contingenciesAdditionalFactors &&
      ValuesFrom(doc.contingencyValues[id], p.contingenciesAdditionalFactors[id], r.value[id])
  {
    var byId: map<string, seq<SensitivityValue>> := map[];
    var pending := doc.contingencyValues.Keys;
    while pending != {}
      invariant pending <= doc.contingencyValues.Keys
      invariant byId.Keys == doc.contingencyValues.Keys - pending
      invariant forall id :: id in byId ==>
        id in p.contingenciesAdditionalFactors &&
        Covers(doc.contingencyValues[id], p.contingenciesAdditionalFactors[id]) &&
        ValuesFrom(doc.contingencyValues[id], p.contingenciesAdditionalFactors[id], byId[id])
      decreases pending
    {
      var coId :| coId in pending;
      var groups := Regroup(set x: ValueRecord | x in doc.contingencyValues[coId]);
      var listed := p.GetAdditionalFactorsFor(network, coId);
      if listed.None? {
        return Err(NullPointer);
      }
      var values := AssociateValues(groups, listed.value);
      ScopeRead(doc.contingencyValues[coId], listed.value, groups);
      if values.Err? {
        return Err(NullPointer);
      }
      byId := byId[coId := values.value];
      pending := pending - {coId};
    }
    r := Ok(byId);
  }

  /** The record loop: each record's numbers go under its (fun, var) pair, a later one overwriting. */
  method Regroup(records: set<ValueRecord>) returns (g: Regrouped)
    ensures IsRegrouping(records, g)
  {
    g := map[];
    var rest := records;
    while rest != {}
      invariant rest <= records
      invariant IsRegrouping(records - rest, g)
      decreases rest
    {
      var r :| r in rest;
      if r.fun !in g {
        g := g[r.fun := map[]];
      }
      g := g[r.fun := g[r.fun][r.variable := r.numbers]];
      rest := rest - {r};
    }
  }

  /** The factor loop, stopping at the first factor without numbers. */
  method AssociateValues(g: Regrouped, factors: seq<SensitivityFactor>) returns (r: Result<seq<SensitivityValue>, Error>)
    ensures r == Associate(g, factors)
  {
    var values: seq<SensitivityValue> := [];
    var i := 0;
    while i < |factors|
      invariant 0 <= i <= |factors|
      invariant Associate(g, factors[..i]) == Ok(values)
    {
      assert factors[..i + 1][..i] == factors[..i];
      var n := Lookup(g, factors[i]);
      if n.None? {
        AssociatePrefixFails(g, factors, i + 1);
        return Err(NullPointer);
      }
      values := values + [SensitivityValue(factors[i], n.value)];
      i := i + 1;
    }
    assert factors[..i] == factors;
    r := Ok(values);
  }

  lemma {:induction false} AssociatePrefixFails(g: Regrouped, factors: seq<SensitivityFactor>, n: nat)
    requires n <= |factors| && Associate(g, factors[..n]).Err?
    ensures Associate(g, factors).Err?
  {
    if n < |factors| {
      assert factors[..|factors| - 1][..n] == factors[..n];
      AssociatePrefixFails(g, factors[..|factors| - 1], n);
    } else {
      assert factors[..n] == factors;
    }
  }

  // ---------------------------------------------------------------------------
  // Reader properties

  /**
   * The factor loop succeeds exactly when every factor's pair was regrouped,
   * and then gives each factor, in order, the numbers under its pair.
   */
  lemma {:induction false} AssociateShape(g: Regrouped, factors: seq<SensitivityFactor>)
    ensures Associate(g, factors).Ok? <==> forall i :: 0 <= i < |factors| ==> Lookup(g, factors[i]).Some?
    ensures Associate(g, factors).Ok? ==>
      && |Associate(g, factors).value| == |factors|
      && forall i :: 0 <= i < |factors| ==>
           Associate(g, factors).value[i] == SensitivityValue(factors[i], Lookup(g, factors[i]).value)
  {
    if factors != [] {
      var init := factors[..|factors| - 1];
      AssociateShape(g, init);
      assert forall i :: 0 <= i < |init| ==> init[i] == factors[i];
    }
  }

  /** One scope of `read`: it succeeds exactly when the records cover the factors, and then answers them from the records. */
  lemma ScopeRead(records: seq<ValueRecord>, factors: seq<SensitivityFactor>, g: Regrouped)
    requires IsRegrouping((set x: ValueRecord | x in records), g)
    ensures Associate(g, factors).Ok? <==> Covers(records, factors)
    ensures Associate(g, factors).Ok? ==> ValuesFrom(records, factors, Associate(g, factors).value)
  {
    AssociateShape(g, factors);
    if Covers(records, factors) {
      forall i | 0 <= i < |factors|
        ensures Lookup(g, factors[i]).Some?
      {
        assert HasPair(records, factors[i].func.id, factors[i].variable.id);
        var r :| r in records && r.fun == factors[i].func.id && r.variable == factors[i].variable.id;
        assert r in (set x: ValueRecord | x in records);
      }
    } else {
      var i :| 0 <= i < |factors| && !HasPair(records, factors[i].func.id, factors[i].variable.id);
      assert Lookup(g, factors[i]).None?;
    }
  }

  /** With one record per pair, regrouping keeps every record's numbers under its pair. */
  lemma RegroupingOfDistinctPairs(records: set<ValueRecord>, g: Regrouped)
    requires IsRegrouping(records, g)
    requires forall r1, r2 :: r1 in records && r2 in records && r1.fun == r2.fun && r1.variable == r2.variable ==> r1 == r2
    ensures forall r :: r in records ==> r.fun in g && r.variable in g[r.fun] && g[r.fun][r.variable] == r.numbers
  {
    forall r | r in records
      ensures g[r.fun][r.variable] == r.numbers
    {
      assert ValueRecord(r.fun, r.variable, g[r.fun][r.variable]) in records;
    }
  }

  // ---------------------------------------------------------------------------
  // Round trip

  /** No two values of a scope answer the same (function id, variable id) pair. */
  ghost predicate DistinctPairs(vs: seq<SensitivityValue>) {
    forall i, j ::
      (0 <= i < |vs| && 0 <= j < |vs| &&
       vs[i].factor.func.id == vs[j].factor.func.id && vs[i].factor.variable.id == vs[j].factor.variable.id) ==> i == j
  }

  /** Some value of the scope answers the factor's pair. */
  ghost predicate Answered(vs: seq<SensitivityValue>, x: SensitivityFactor) {
    exists i :: 0 <= i < |vs| && vs[i].factor.func.id == x.func.id && vs[i].factor.variable.id == x.variable.id
  }

  /** Every factor has a value answering its pair. */
  ghost predicate Answers(vs: seq<SensitivityValue>, factors: seq<SensitivityFactor>) {
    forall k :: 0 <= k < |factors| ==> Answered(vs, factors[k])
  }

  /** The round-trip assumption: every scope has distinct pairs and answers the provider's factors for it. */
  ghost predicate AnswersProvider(r: AnalysisResult, p: Provider) {
    && DistinctPairs(r.values) && Answers(r.values, p.basecaseAdditionalFactors)
    && forall id :: id in r.contingencyValues ==>
         id in p.contingenciesAdditionalFactors &&
         DistinctPairs(r.contingencyValues[id]) && Answers(r.contingencyValues[id], p.contingenciesAdditionalFactors[id])
  }

  /** A record of a scope with distinct pairs carries the numbers of the one value with its pair. */
  lemma RecordOfDistinct(vs: seq<SensitivityValue>, i: nat, n: Numbers)
    requires DistinctPairs(vs) && i < |vs|
    requires ValueRecord(vs[i].factor.func.id, vs[i].factor.variable.id, n) in Records(vs)
    ensures n == vs[i].numbers
  {
    var rs := Records(vs);
    var j :| 0 <= j < |rs| && rs[j] == ValueRecord(vs[i].factor.func.id, vs[i].factor.variable.id, n);
    assert RecordOf(vs[j]) == rs[j];
  }

  /** A scope written from answering values covers the factors. */
  lemma RecordsCover(vs: seq<SensitivityValue>, factors: seq<SensitivityFactor>)
    requires Answers(vs, factors)
    ensures Covers(Records(vs), factors)
  {
    var rs := Records(vs);
    forall k | 0 <= k < |factors|
      ensures HasPair(rs, factors[k].func.id, factors[k].variable.id)
    {
      assert Answered(vs, factors[k]);
      var i :| 0 <= i < |vs| &&
        vs[i].factor.func.id == factors[k].func.id && vs[i].factor.variable.id == factors[k].variable.id;
      assert rs[i] in rs;
    }
  }

  /** Reading back one written scope gives each factor the numbers of the value answering its pair. */
  lemma ScopeRoundTrip(vs: seq<SensitivityValue>, factors: seq<SensitivityFactor>, values: seq<SensitivityValue>)
    requires DistinctPairs(vs) && ValuesFrom(Records(vs), factors, values)
    ensures |values| == |factors|
    ensures forall k, i ::
      (0 <= k < |factors| && 0 <= i < |vs| &&
       vs[i].factor.func.id == factors[k].func.id && vs[i].factor.variable.id == factors[k].variable.id) ==>
        values[k] == SensitivityValue(factors[k], vs[i].numbers)
  {
    forall k, i | 0 <= k < |factors| && 0 <= i < |vs| &&
      vs[i].factor.func.id == factors[k].func.id && vs[i].factor.variable.id == factors[k].variable.id
      ensures values[k] == SensitivityValue(factors[k], vs[i].numbers)
    {
      RecordOfDistinct(vs, i, values[k].numbers);
    }
  }

  /** Under the round-trip assumption, reading a written result succeeds. */
  lemma WrittenResultReads(r: AnalysisResult, p: Provider)
    requires AnswersProvider(r, p)
    ensures ReadSucceeds(ToDocument(r), p)
  {
    RecordsCover(r.values, p.basecaseAdditionalFactors);
    forall id | id in r.contingencyValues
      ensures Covers(Records(r.contingencyValues[id]), p.contingenciesAdditionalFactors[id])
    {
      RecordsCover(r.contingencyValues[id], p.contingenciesAdditionalFactors[id]);
    }
  }

  /**
   * The round trip: under the assumption, whatever `read` returns for the
   * written document keeps the header fields and the contingency ids, and
   * gives every provider factor of every scope, in provider order, the
   * numbers the result held for its pair.
   */
  lemma RoundTrip(r: AnalysisResult, p: Provider, res: AnalysisResult)
    requires AnswersProvider(r, p) && IsReadOf(ToDocument(r), p, res)
    ensures res.ok == r.ok && res.metrics == r.metrics && res.logs == r.logs
    ensures |res.values| == |p.basecaseAdditionalFactors|
    ensures forall k, i ::
      (0 <= k < |p.basecaseAdditionalFactors| && 0 <= i < |r.values| &&
       r.values[i].factor.func.id == p.basecaseAdditionalFactors[k].func.id &&
       r.values[i].factor.variable.id == p.basecaseAdditionalFactors[k].variable.id) ==>
        res.values[k] == SensitivityValue(p.basecaseAdditionalFactors[k], r.values[i].numbers)
    ensures res.contingencyValues.Keys == r.contingencyValues.Keys
    ensures forall id :: id in r.contingencyValues ==>
      var vs, factors := r.contingencyValues[id], p.contingenciesAdditionalFactors[id];
      && |res.contingencyValues[id]| == |factors|
      && forall k, i ::
           (0 <= k < |factors| && 0 <= i < |vs| &&
            vs[i].factor.func.id == factors[k].func.id && vs[i].factor.variable.id == factors[k].variable.id) ==>
             res.contingencyValues[id][k] == SensitivityValue(factors[k], vs[i].numbers)
  {
    ScopeRoundTrip(r.values, p.basecaseAdditionalFactors, res.values);
    forall id | id in r.contingencyValues
      ensures var vs, factors := r.contingencyValues[id], p.contingenciesAdditionalFactors[id];
        && |res.contingencyValues[id]| == |factors|
        && forall k, i ::
             (0 <= k < |factors| && 0 <= i < |vs| &&
              vs[i].factor.func.id == factors[k].func.id && vs[i].factor.variable.id == factors[k].variable.id) ==>
               res.contingencyValues[id][k] == SensitivityValue(factors[k], vs[i].numbers)
    {
      ScopeRoundTrip(r.contingencyValues[id], p.contingenciesAdditionalFactors[id], res.contingencyValues[id]);
    }
  }
}
