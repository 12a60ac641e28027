/**
 * The factor-catalogue codec (JsonSensitivityInputs): `write` folds every
 * scope's factors into two duplicate-free maps and per-scope function-id sets;
 * `read` rebuilds each scope as its function ids crossed with every variable
 * of the catalogue.
 *
 * The document is modelled as its four parts; the JSON text, Jackson's
 * polymorphic (de)serialisation and the contingency map-key encoding are not.
 */
module JsonSensitivityInputs {
  import opened Wrappers
  import opened LinkedCollections
  import opened Sensitivity
  import opened InternalSensitivityInputsProvider

  /** The four-part array `write` emits and `read` consumes, in that order. */
  datatype InputsDocument = InputsDocument(
    functions: LinkedMap<string, SensitivityFunction>,
    variables: LinkedMap<string, SensitivityVariable>,
    basecaseFunctions: seq<string>,
    contingencyFunctions: LinkedMap<Contingency, seq<string>>)
  {
    /** What Jackson hands back for the parts: maps with unique keys, sets without repeats. */
    ghost predicate WellFormed() {
      && functions.Valid()
      && variables.Valid()
      && Distinct(basecaseFunctions)
      && contingencyFunctions.Valid()
    }
  }

  // ---------------------------------------------------------------------------
  // Encoder specification

  /** The raw function id: the encoder never appends the class suffix. */
  function FunctionKey(x: SensitivityFactor): string { x.func.id }
  function FunctionOf(x: SensitivityFactor): SensitivityFunction { x.func }
  function VariableKey(x: SensitivityFactor): string { x.variable.id }
  function VariableOf(x: SensitivityFactor): SensitivityVariable { x.variable }

  /** Every listed contingency has a factor list (the caller's provider does not return null). */
  predicate ListsEveryContingency(p: Provider, cs: seq<Contingency>) {
    forall c :: c in cs ==> c.id in p.contingenciesAdditionalFactors
  }

  /** The contingency lists, concatenated in the order the contingencies are listed. */
  function ContingencyFactors(p: Provider, cs: seq<Contingency>): seq<SensitivityFactor>
    requires ListsEveryContingency(p, cs)
  {
    if cs == [] then []
    else ContingencyFactors(p, cs[..|cs| - 1]) + p.contingenciesAdditionalFactors[cs[|cs| - 1].id]
  }

  /** Every factor the encoder visits, in visiting order: contingencies first, then the base case. */
  function VisitedFactors(p: Provider, cs: seq<Contingency>): seq<SensitivityFactor>
    requires ListsEveryContingency(p, cs)
  {
    ContingencyFactors(p, cs) + p.basecaseAdditionalFactors
  }

  /** A scope's LinkedHashSet of function ids. */
  function FunctionIdSet(factors: seq<SensitivityFactor>): (ids: seq<string>)
    ensures Distinct(ids)
  {
    Dedup(KeysOf(factors, FunctionKey))
  }

  /** The LinkedHashMap from each listed contingency to its function-id set. */
  function ContingencySets(p: Provider, cs: seq<Contingency>): (m: LinkedMap<Contingency, seq<string>>)
    requires ListsEveryContingency(p, cs)
    ensures m.Valid()
  {
    if cs == [] then EmptyMap()
    else
      var c := cs[|cs| - 1];
      ContingencySets(p, cs[..|cs| - 1]).Put(c, FunctionIdSet(p.contingenciesAdditionalFactors[c.id]))
  }

  /** The document `write` produces, or the NullPointerException of a contingency without a list. */
  function Encode(p: Provider, cs: seq<Contingency>): Result<InputsDocument, Error>
  {
    if !ListsEveryContingency(p, cs) then Err(NullPointer)
    else
      var visited := VisitedFactors(p, cs);
      Ok(InputsDocument(
        PutAll(EmptyMap(), visited, FunctionKey, FunctionOf),
        PutAll(EmptyMap(), visited, VariableKey, VariableOf),
        FunctionIdSet(p.basecaseAdditionalFactors),
        ContingencySets(p, cs)))
  }

  // ---------------------------------------------------------------------------
  // Encoder

  /**
   * `write`: contingencies in list order, then the base case; each factor adds
   * its function id to the scope's set and puts its variable and function into
   * the catalogue maps under their raw ids. Common factors are never read.
   */
  method Write(provider: Provider, network: Network, contingencies: seq<Contingency>)
    returns (r: Result<InputsDocument, Error>)
    ensures r == Encode(provider, contingencies)
  {
    var variableMap: LinkedMap<string, SensitivityVariable> := EmptyMap();
    var functionMap: LinkedMap<string, SensitivityFunction> := EmptyMap();
    var functionSetMap: LinkedMap<Contingency, seq<string>> := EmptyMap();
    ghost var visited: seq<SensitivityFactor> := [];
    var i := 0;
    while i < |contingencies|
      invariant 0 <= i <= |contingencies|
      invariant ListsEveryContingency(provider, contingencies[..i])
      invariant visited == ContingencyFactors(provider, contingencies[..i])
      invariant functionMap == PutAll(EmptyMap(), visited, FunctionKey, FunctionOf)
      invariant variableMap == PutAll(EmptyMap(), visited, VariableKey, VariableOf)
      invariant functionSetMap == ContingencySets(provider, contingencies[..i])
    {
      var contingency := contingencies[i];
      var sensitivities := provider.GetAdditionalFactorsFor(network, contingency.id);
      if sensitivities.None? {
        // iterating the null list throws
        assert !ListsEveryContingency(provider, contingencies);
        return Err(NullPointer);
      }
      var ids;
      ids, functionMap, variableMap := WriteScope(sensitivities.value, functionMap, variableMap, visited);
      ListsOneMore(provider, contingencies, i);
      functionSetMap := functionSetMap.Put(contingency, ids);
      visited := visited + sensitivities.value;
      i := i + 1;
    }
    assert contingencies[..i] == contingencies;
    var basecaseIds;
    assert VisitedFactors(provider, contingencies) == visited + provider.basecaseAdditionalFactors;
    basecaseIds, functionMap, variableMap := WriteScope(provider.GetAdditionalFactors(network), functionMap, variableMap, visited);
    r := Ok(InputsDocument(functionMap, variableMap, basecaseIds, functionSetMap));
  }

  /** One more contingency with a list: one more scope for each of the encoder's accumulators. */
  lemma ListsOneMore(p: Provider, cs: seq<Contingency>, i: nat)
    requires i < |cs| && ListsEveryContingency(p, cs[..i]) && cs[i].id in p.contingenciesAdditionalFactors
    ensures ListsEveryContingency(p, cs[..i + 1])
    ensures ContingencyFactors(p, cs[..i + 1]) == ContingencyFactors(p, cs[..i]) + p.contingenciesAdditionalFactors[cs[i].id]
    ensures ContingencySets(p, cs[..i + 1])
         == ContingencySets(p, cs[..i]).Put(cs[i], FunctionIdSet(p.contingenciesAdditionalFactors[cs[i].id]))
  {
    assert cs[..i + 1][..i] == cs[..i];
    forall c | c in cs[..i + 1]
      ensures c.id in p.contingenciesAdditionalFactors
    {
      var k :| 0 <= k < i + 1 && cs[..i + 1][k] == c;
      if k < i {
        assert cs[..i][k] == c;
      }
    }
  }

  /**
   * The loop body `write` repeats for each scope: the scope's function-id set,
   * and the catalogue maps with the scope's functions and variables put in.
   */
  method WriteScope(
    factors: seq<SensitivityFactor>,
    functionMap: LinkedMap<string, SensitivityFunction>, variableMap: LinkedMap<string, SensitivityVariable>,
    ghost visited: seq<SensitivityFactor>)
    returns (ids: seq<string>, functionMap': LinkedMap<string, SensitivityFunction>, variableMap': LinkedMap<string, SensitivityVariable>)
    requires functionMap == PutAll(EmptyMap(), visited, FunctionKey, FunctionOf)
    requires variableMap == PutAll(EmptyMap(), visited, VariableKey, VariableOf)
    ensures ids == FunctionIdSet(factors)
    ensures functionMap' == PutAll(EmptyMap(), visited + factors, FunctionKey, FunctionOf)
    ensures variableMap' == PutAll(EmptyMap(), visited + factors, VariableKey, VariableOf)
  {
    ids, functionMap', variableMap' := [], functionMap, variableMap;
    ghost var seen := visited;
    var j := 0;
    while j < |factors|
      invariant 0 <= j <= |factors|
      invariant seen == visited + factors[..j]
      invariant ids == FunctionIdSet(factors[..j])
      invariant functionMap' == PutAll(EmptyMap(), seen, FunctionKey, FunctionOf)
      invariant variableMap' == PutAll(EmptyMap(), seen, VariableKey, VariableOf)
    {
      var x := factors[j];
      Visit(seen, x);
      VisitSet(factors, j);
      Extend(visited, factors, j);
      ids := Add(ids, x.func.id);
      variableMap' := variableMap'.Put(x.variable.id, x.variable);
      functionMap' := functionMap'.Put(x.func.id, x.func);
      seen := seen + [x];
      j := j + 1;
    }
    assert factors[..j] == factors;
  }

  lemma Extend(visited: seq<SensitivityFactor>, factors: seq<SensitivityFactor>, j: nat)
    requires j < |factors|
    ensures visited + factors[..j + 1] == (visited + factors[..j]) + [factors[j]]
  {
    assert factors[..j + 1] == factors[..j] + [factors[j]];
  }

  /** One visited factor is one more put into each catalogue map. */
  lemma Visit(visited: seq<SensitivityFactor>, x: SensitivityFactor)
    ensures PutAll(EmptyMap(), visited + [x], FunctionKey, FunctionOf)
         == PutAll(EmptyMap(), visited, FunctionKey, FunctionOf).Put(x.func.id, x.func)
    ensures PutAll(EmptyMap(), visited + [x], VariableKey, VariableOf)
         == PutAll(EmptyMap(), visited, VariableKey, VariableOf).Put(x.variable.id, x.variable)
  {
    PutAllSnoc(EmptyMap(), visited, x, FunctionKey, FunctionOf);
    PutAllSnoc(EmptyMap(), visited, x, VariableKey, VariableOf);
  }

  /** One visited factor is one more add into the scope's set. */
  lemma VisitSet(factors: seq<SensitivityFactor>, j: nat)
    requires j < |factors|
    ensures FunctionIdSet(factors[..j + 1]) == Add(FunctionIdSet(factors[..j]), factors[j].func.id)
  {
    assert factors[..j + 1] == factors[..j] + [factors[j]];
    KeysOfSnoc(factors[..j], factors[j], FunctionKey);
    AddAllSnoc([], KeysOf(factors[..j], FunctionKey), factors[j].func.id);
  }

  // ---------------------------------------------------------------------------
  // Decoder specification

  /** The compatibility table: the factor class each supported pair is built into. */
  const FactorTable: map<(FunctionKind, VariableKind), FactorType> := map[
    (BranchFlow, LinearGlsk) := BranchFlowPerLinearGlsk,
    (BranchFlow, PhaseTapChangerAngle) := BranchFlowPerPSTAngle,
    (BranchFlow, InjectionIncrease) := BranchFlowPerInjectionIncrease,
    (BranchIntensity, PhaseTapChangerAngle) := BranchIntensityPerPSTAngle
  ]

  /** A factor of a supported class, built from the function and variable classes that class takes. */
  ghost predicate WellTyped(x: SensitivityFactor) {
    (x.func.kind, x.variable.kind) in FactorTable && FactorTable[(x.func.kind, x.variable.kind)] == x.factorType
  }

  /**
   * `makeSensitivityFactor`: a factor for each pair of the table; any other
   * pair, and an unresolved (null) function, is an unrecognizable factor.
   */
  function MakeSensitivityFactor(f: Option<SensitivityFunction>, v: SensitivityVariable): (r: Result<SensitivityFactor, Error>)
    ensures r.Ok? <==> f.Some? && (f.value.kind, v.kind) in FactorTable
    ensures r.Ok? ==> r.value == SensitivityFactor(FactorTable[(f.value.kind, v.kind)], f.value, v)
    ensures r.Err? ==> r.error == UnrecognizableFactor
  {
    match f
    case None => Err(UnrecognizableFactor)
    case Some(fn) =>
      match fn.kind
      case BranchFlow =>
        (match v.kind
         case LinearGlsk => Ok(SensitivityFactor(BranchFlowPerLinearGlsk, fn, v))
         case PhaseTapChangerAngle => Ok(SensitivityFactor(BranchFlowPerPSTAngle, fn, v))
         case InjectionIncrease => Ok(SensitivityFactor(BranchFlowPerInjectionIncrease, fn, v))
         case _ => Err(UnrecognizableFactor))
      case BranchIntensity =>
        (match v.kind
         case PhaseTapChangerAngle => Ok(SensitivityFactor(BranchIntensityPerPSTAngle, fn, v))
         case _ => Err(UnrecognizableFactor))
      case _ => Err(UnrecognizableFactor)
  }

  /** The inner loop of `read`: one factor per variable, in variable order. */
  function Row(f: Option<SensitivityFunction>, vars: seq<SensitivityVariable>): (r: Result<seq<SensitivityFactor>, Error>)
    ensures r.Err? ==> r.error == UnrecognizableFactor
  {
    if vars == [] then Ok([])
    else
      match Row(f, vars[..|vars| - 1])
      case Err(e) => Err(e)
      case Ok(row) =>
        match MakeSensitivityFactor(f, vars[|vars| - 1])
        case Err(e) => Err(e)
        case Ok(x) => Ok(row + [x])
  }

  /** A decoded scope: a row per function id of the set, in set order. */
  function CrossProduct(functions: LinkedMap<string, SensitivityFunction>, vars: seq<SensitivityVariable>, ids: seq<string>)
    : (r: Result<seq<SensitivityFactor>, Error>)
    ensures r.Err? ==> r.error == UnrecognizableFactor
  {
    if ids == [] then Ok([])
    else
      match CrossProduct(functions, vars, ids[..|ids| - 1])
      case Err(e) => Err(e)
      case Ok(factors) =>
        match Row(functions.Get(ids[|ids| - 1]), vars)
        case Err(e) => Err(e)
        case Ok(row) => Ok(factors + row)
  }

  /** The HashMap from contingency id to decoded scope; a later contingency with the same id replaces an earlier one. */
  function DecodeContingencies(
    functions: LinkedMap<string, SensitivityFunction>, vars: seq<SensitivityVariable>,
    keys: seq<Contingency>, sets: map<Contingency, seq<string>>)
    : (r: Result<map<string, seq<SensitivityFactor>>, Error>)
    requires forall c :: c in keys ==> c in sets
    ensures r.Err? ==> r.error == UnrecognizableFactor
  {
    if keys == [] then Ok(map[])
    else
      var c := keys[|keys| - 1];
      match DecodeContingencies(functions, vars, keys[..|keys| - 1], sets)
      case Err(e) => Err(e)
      case Ok(m) =>
        match CrossProduct(functions, vars, sets[c])
        case Err(e) => Err(e)
        case Ok(factors) => Ok(m[c.id := factors])
  }

  /**
   * The provider `read` returns: no common factors, the decoded base case,
   * the decoded contingency scopes, and the contingencies of the document in
   * its order. Each contingency's set is looked up by the contingency itself;
   * see `DecodeAsWritten` for the lookup the code performs.
   */
  function Decode(doc: InputsDocument): Result<Provider, Error>
    requires doc.WellFormed()
  {
    var vars := doc.variables.Values();
    match CrossProduct(doc.functions, vars, doc.basecaseFunctions)
    case Err(e) => Err(e)
    case Ok(basecase) =>
      match DecodeContingencies(doc.functions, vars, doc.contingencyFunctions.keys, doc.contingencyFunctions.entries)
      case Err(e) => Err(e)
      case Ok(byId) => Ok(Provider([], basecase, byId, doc.contingencyFunctions.keys))
  }

  /**
   * The code as written looks each contingency's set up with the contingency's
   * String id in a map keyed by Contingency objects (JsonSensitivityInputs.java:120).
   * No key equals a String, so the lookup yields null and iterating it throws:
   * once the base case decodes, any contingency makes the whole read fail.
   */
  function DecodeAsWritten(doc: InputsDocument): Result<Provider, Error>
    requires doc.WellFormed()
  {
    var vars := doc.variables.Values();
    match CrossProduct(doc.functions, vars, doc.basecaseFunctions)
    case Err(e) => Err(e)
    case Ok(basecase) =>
      if doc.contingencyFunctions.keys != [] then Err(NullPointer)
      else Ok(Provider([], basecase, map[], []))
  }

  // ---------------------------------------------------------------------------
  // Decoder

  /**
   * `read`: the base case first, then each contingency of the document in
   * order; the first unrecognizable pair aborts the whole read.
   */
  method Read(doc: InputsDocument) returns (r: Result<Provider, Error>)
    requires doc.WellFormed()
    ensures r == Decode(doc)
  {
    var vars := doc.variables.Values();
    var basecase := ReadScope(doc.functions, vars, doc.basecaseFunctions);
    if basecase.Err? {
      return Err(basecase.error);
    }
    var keys := doc.contingencyFunctions.keys;
    var byId: map<string, seq<SensitivityFactor>> := map[];
    var i := 0;
    while i < |keys|
      invariant 0 <= i <= |keys|
      invariant DecodeContingencies(doc.functions, vars, keys[..i], doc.contingencyFunctions.entries) == Ok(byId)
    {
      var contingency := keys[i];
      var factors := ReadScope(doc.functions, vars, doc.contingencyFunctions.entries[contingency]);
      assert keys[..i + 1][..i] == keys[..i];
      if factors.Err? {
        PrefixErrorPropagates(doc.functions, vars, keys, doc.contingencyFunctions.entries, i + 1);
        return Err(factors.error);
      }
      byId := byId[contingency.id := factors.value];
      i := i + 1;
    }
    assert keys[..i] == keys;
    r := Ok(Provider([], basecase.value, byId, keys));
  }

  /** Once a prefix of the contingencies fails to decode, the whole list does. */
  lemma {:induction false} PrefixErrorPropagates(
    functions: LinkedMap<string, SensitivityFunction>, vars: seq<SensitivityVariable>,
    keys: seq<Contingency>, sets: map<Contingency, seq<string>>, n: nat)
    requires n <= |keys| && forall c :: c in keys ==> c in sets
    requires DecodeContingencies(functions, vars, keys[..n], sets).Err?
    ensures DecodeContingencies(functions, vars, keys, sets).Err?
  {
    if n < |keys| {
      assert keys[..|keys| - 1][..n] == keys[..n];
      PrefixErrorPropagates(functions, vars, keys[..|keys| - 1], sets, n);
    } else {
      assert keys[..n] == keys;
    }
  }

  /** One scope of `read`: for each id of the set, a factor per catalogue variable. */
  method ReadScope(functions: LinkedMap<string, SensitivityFunction>, vars: seq<SensitivityVariable>, ids: seq<string>)
    returns (r: Result<seq<SensitivityFactor>, Error>)
    ensures r == CrossProduct(functions, vars, ids)
  {
    var factors: seq<SensitivityFactor> := [];
    var i := 0;
    while i < |ids|
      invariant 0 <= i <= |ids|
      invariant CrossProduct(functions, vars, ids[..i]) == Ok(factors)
    {
      var fn := functions.Get(ids[i]);
      ghost var before := factors;
      var j := 0;
      while j < |vars|
        invariant 0 <= j <= |vars|
        invariant Row(fn, vars[..j]).Ok? && factors == before + Row(fn, vars[..j]).value
      {
        assert vars[..j + 1][..j] == vars[..j];
        var x := MakeSensitivityFactor(fn, vars[j]);
        if x.Err? {
          RowErrorPropagates(fn, vars, j + 1);
          assert ids[..i + 1][..i] == ids[..i];
          PrefixScopeErrorPropagates(functions, vars, ids, i + 1);
          return Err(x.error);
        }
        factors := factors + [x.value];
        j := j + 1;
      }
      assert vars[..j] == vars;
      assert ids[..i + 1][..i] == ids[..i];
      i := i + 1;
    }
    assert ids[..i] == ids;
    r := Ok(factors);
  }

  lemma {:induction false} RowErrorPropagates(f: Option<SensitivityFunction>, vars: seq<SensitivityVariable>, n: nat)
    requires n <= |vars| && Row(f, vars[..n]).Err?
    ensures Row(f, vars).Err?
  {
    if n < |vars| {
      assert vars[..|vars| - 1][..n] == vars[..n];
      RowErrorPropagates(f, vars[..|vars| - 1], n);
    } else {
      assert vars[..n] == vars;
    }
  }

  lemma {:induction false} PrefixScopeErrorPropagates(
    functions: LinkedMap<string, SensitivityFunction>, vars: seq<SensitivityVariable>, ids: seq<string>, n: nat)
    requires n <= |ids| && CrossProduct(functions, vars, ids[..n]).Err?
    ensures CrossProduct(functions, vars, ids).Err?
  {
    if n < |ids| {
      assert ids[..|ids| - 1][..n] == ids[..n];
      PrefixScopeErrorPropagates(functions, vars, ids[..|ids| - 1], n);
    } else {
      assert ids[..n] == ids;
    }
  }
}
