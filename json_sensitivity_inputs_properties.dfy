/**
 * What the factor-catalogue codec guarantees: the catalogue maps are
 * duplicate-free and ordered by first appearance, contingency scopes are
 * visited before the base case, function keys are raw ids, a decoded scope is
 * the function-major cross product and the compatibility table is strict, and
 * decode(encode(p)) gives back every scope's factor set when the scopes are
 * cross products.
 */
module JsonSensitivityInputsProperties {
  import opened Wrappers
  import opened LinkedCollections
  import opened Sensitivity
  import opened InternalSensitivityInputsProvider
  import opened JsonSensitivityInputs

  /** The function ids of a factor list, in list order, repeats kept. */
  function FunctionIds(xs: seq<SensitivityFactor>): seq<string> {
    KeysOf(xs, FunctionKey)
  }

  /** The variable ids of a factor list, in list order, repeats kept. */
  function VariableIds(xs: seq<SensitivityFactor>): seq<string> {
    KeysOf(xs, VariableKey)
  }

  lemma FunctionIdsMembers(xs: seq<SensitivityFactor>)
    ensures forall k :: k in FunctionIds(xs) <==> exists x :: x in xs && x.func.id == k
  {
    forall k | k in FunctionIds(xs) ensures exists x :: x in xs && x.func.id == k {
      var i :| 0 <= i < |xs| && FunctionIds(xs)[i] == k;
      assert xs[i] in xs;
    }
    forall x | x in xs ensures x.func.id in FunctionIds(xs) {
      var i :| 0 <= i < |xs| && xs[i] == x;
      assert FunctionIds(xs)[i] == x.func.id;
    }
  }

  lemma VariableIdsMembers(xs: seq<SensitivityFactor>)
    ensures forall k :: k in VariableIds(xs) <==> exists x :: x in xs && x.variable.id == k
  {
    forall k | k in VariableIds(xs) ensures exists x :: x in xs && x.variable.id == k {
      var i :| 0 <= i < |xs| && VariableIds(xs)[i] == k;
      assert xs[i] in xs;
    }
    forall x | x in xs ensures x.variable.id in VariableIds(xs) {
      var i :| 0 <= i < |xs| && xs[i] == x;
      assert VariableIds(xs)[i] == x.variable.id;
    }
  }

  // ---------------------------------------------------------------------------
  // Encoder

  /**
   * The function map holds every function id any visited factor references,
   * each exactly once, in order of first appearance (a repeated id keeps its
   * first position).
   */
  lemma EncodeFunctionCatalogue(p: Provider, cs: seq<Contingency>)
    requires ListsEveryContingency(p, cs)
    ensures Encode(p, cs).Ok?
    ensures var keys, ids := Encode(p, cs).value.functions.keys, FunctionIds(VisitedFactors(p, cs));
      && Distinct(keys)
      && (forall k :: k in keys <==> k in ids)
      && (forall k :: k in keys <==> exists x :: x in VisitedFactors(p, cs) && x.func.id == k)
      && (forall i, j :: 0 <= i < j < |keys| ==> FirstIndex(ids, keys[i]) < FirstIndex(ids, keys[j]))
  {
    var visited := VisitedFactors(p, cs);
    assert Encode(p, cs).value.functions == PutAll(EmptyMap(), visited, FunctionKey, FunctionOf);
    PutAllFromEmpty(visited, FunctionKey, FunctionOf);
    FunctionIdsMembers(visited);
  }

  /**
   * The entry under an id holds the function of the last visited factor
   * referencing that id.
   */
  lemma EncodeFunctionEntries(p: Provider, cs: seq<Contingency>, i: nat)
    requires ListsEveryContingency(p, cs)
    requires var visited := VisitedFactors(p, cs);
      i < |visited| && forall j :: i < j < |visited| ==> visited[j].func.id != visited[i].func.id
    ensures Encode(p, cs).Ok?
    ensures var x := VisitedFactors(p, cs)[i];
      x.func.id in Encode(p, cs).value.functions.entries && Encode(p, cs).value.functions.entries[x.func.id] == x.func
  {
    var visited := VisitedFactors(p, cs);
    assert Encode(p, cs).value.functions == PutAll(EmptyMap(), visited, FunctionKey, FunctionOf);
    PutAllLastWins(EmptyMap(), visited, FunctionKey, FunctionOf, i);
  }

  /** The same for the variable map. */
  lemma EncodeVariableCatalogue(p: Provider, cs: seq<Contingency>)
    requires ListsEveryContingency(p, cs)
    ensures Encode(p, cs).Ok?
    ensures var keys, ids := Encode(p, cs).value.variables.keys, VariableIds(VisitedFactors(p, cs));
      && Distinct(keys)
      && (forall k :: k in keys <==> k in ids)
      && (forall k :: k in keys <==> exists x :: x in VisitedFactors(p, cs) && x.variable.id == k)
      && (forall i, j :: 0 <= i < j < |keys| ==> FirstIndex(ids, keys[i]) < FirstIndex(ids, keys[j]))
  {
    var visited := VisitedFactors(p, cs);
    assert Encode(p, cs).value.variables == PutAll(EmptyMap(), visited, VariableKey, VariableOf);
    PutAllFromEmpty(visited, VariableKey, VariableOf);
    VariableIdsMembers(visited);
  }

  /**
   * The entry under an id holds the variable of the last visited factor
   * referencing that id.
   */
  lemma EncodeVariableEntries(p: Provider, cs: seq<Contingency>, i: nat)
    requires ListsEveryContingency(p, cs)
    requires var visited := VisitedFactors(p, cs);
      i < |visited| && forall j :: i < j < |visited| ==> visited[j].variable.id != visited[i].variable.id
    ensures Encode(p, cs).Ok?
    ensures var x := VisitedFactors(p, cs)[i];
      x.variable.id in Encode(p, cs).value.variables.entries && Encode(p, cs).value.variables.entries[x.variable.id] == x.variable
  {
    var visited := VisitedFactors(p, cs);
    assert Encode(p, cs).value.variables == PutAll(EmptyMap(), visited, VariableKey, VariableOf);
    PutAllLastWins(EmptyMap(), visited, VariableKey, VariableOf, i);
  }

  /**
   * Contingency scopes are visited first: a function id some contingency
   * factor references comes before every id only the base case references.
   */
  lemma ContingencyFunctionsComeFirst(p: Provider, cs: seq<Contingency>, i: nat, j: nat)
    requires ListsEveryContingency(p, cs)
    requires i < |Encode(p, cs).value.functions.keys| && j < |Encode(p, cs).value.functions.keys|
    requires Encode(p, cs).value.functions.keys[i] in FunctionIds(ContingencyFactors(p, cs))
    requires Encode(p, cs).value.functions.keys[j] !in FunctionIds(ContingencyFactors(p, cs))
    ensures i < j
  {
    var keys := Encode(p, cs).value.functions.keys;
    var a, b := FunctionIds(ContingencyFactors(p, cs)), FunctionIds(p.basecaseAdditionalFactors);
    var ids := FunctionIds(VisitedFactors(p, cs));
    assert ids == a + b by {
      KeysOfAppend(ContingencyFactors(p, cs), p.basecaseAdditionalFactors, FunctionKey);
    }
    EncodeFunctionCatalogue(p, cs);
    assert keys[i] in ids && keys[j] in ids;
    var fi, fj := FirstIndex(ids, keys[i]), FirstIndex(ids, keys[j]);
    assert fi < |a| <= fj by {
      FirstIndexAppend(a, b, keys[i]);
      FirstIndexAppend(a, b, keys[j]);
    }
    assert keys[i] != keys[j];
    assert j < i ==> fj < fi;
  }

  /**
   * A scope's set holds each function id of its factors once, in order of
   * first appearance.
   */
  lemma FunctionIdSetMeaning(factors: seq<SensitivityFactor>)
    ensures var ids := FunctionIdSet(factors);
      && Distinct(ids)
      && (forall k :: k in ids <==> k in FunctionIds(factors))
      && (forall k :: k in ids <==> exists x :: x in factors && x.func.id == k)
      && (forall i, j :: 0 <= i < j < |ids| ==> FirstIndex(FunctionIds(factors), ids[i]) < FirstIndex(FunctionIds(factors), ids[j]))
  {
    DedupOrder(FunctionIds(factors));
    FunctionIdsMembers(factors);
  }

  /**
   * The encoded scope sets: the base case's set, and for every listed
   * contingency, even one without factors, an entry holding its set; the
   * contingency keys keep list order.
   */
  lemma {:induction false} EncodeScopeSets(p: Provider, cs: seq<Contingency>)
    requires ListsEveryContingency(p, cs)
    ensures Encode(p, cs).Ok?
    ensures var doc := Encode(p, cs).value;
      && doc.basecaseFunctions == FunctionIdSet(p.basecaseAdditionalFactors)
      && doc.contingencyFunctions.keys == Dedup(cs)
      && (forall c :: c in cs ==>
            c in doc.contingencyFunctions.entries &&
            doc.contingencyFunctions.entries[c] == FunctionIdSet(p.contingenciesAdditionalFactors[c.id]))
  {
    if cs != [] {
      var init := cs[..|cs| - 1];
      assert ListsEveryContingency(p, init);
      EncodeScopeSets(p, init);
      assert ContingencySets(p, cs).keys == Add(ContingencySets(p, init).keys, cs[|cs| - 1]);
      assert Dedup(cs) == Add(Dedup(init), cs[|cs| - 1]);
      forall c | c in cs
        ensures c in ContingencySets(p, cs).entries
        ensures ContingencySets(p, cs).entries[c] == FunctionIdSet(p.contingenciesAdditionalFactors[c.id])
      {
        if c != cs[|cs| - 1] {
          assert c in init;
        }
      }
    }
  }

  /**
   * Function keys are raw ids: a flow and an intensity function sharing an id
   * collapse into one entry, which holds the one put last.
   */
  lemma RawIdsCollide(flow: SensitivityFunction, intensity: SensitivityFunction, v: SensitivityVariable, w: SensitivityVariable)
    requires flow.kind == BranchFlow && intensity.kind == BranchIntensity && flow.id == intensity.id
    ensures var p := Provider([], [SensitivityFactor(BranchFlowPerPSTAngle, flow, v),
                                   SensitivityFactor(BranchIntensityPerPSTAngle, intensity, w)], map[], []);
      && Encode(p, []).Ok?
      && Encode(p, []).value.functions.keys == [flow.id]
      && Encode(p, []).value.functions.entries[flow.id] == intensity
      && Encode(p, []).value.basecaseFunctions == [flow.id]
  {
    var x0, x1 := SensitivityFactor(BranchFlowPerPSTAngle, flow, v), SensitivityFactor(BranchIntensityPerPSTAngle, intensity, w);
    var p := Provider([], [x0, x1], map[], []);
    assert VisitedFactors(p, []) == [x0, x1];
    SharedFunctionId(x0, x1);
  }

  /** Two factors whose functions share an id: one key, holding the second function. */
  lemma SharedFunctionId(x0: SensitivityFactor, x1: SensitivityFactor)
    requires x0.func.id == x1.func.id
    ensures var m := PutAll(EmptyMap(), [x0, x1], FunctionKey, FunctionOf);
      m.keys == [x0.func.id] && x0.func.id in m.entries && m.entries[x0.func.id] == x1.func
    ensures FunctionIdSet([x0, x1]) == [x0.func.id]
  {
    var id, xs := x0.func.id, [x0, x1];
    assert xs[..1] == [x0] && [x0][..0] == [];
    var m0: LinkedMap<string, SensitivityFunction> := EmptyMap();
    var m1 := m0.Put(id, x0.func);
    assert PutAll(m0, [x0], FunctionKey, FunctionOf) == m1;
    assert m1.keys == [id];
    assert PutAll(m0, xs, FunctionKey, FunctionOf) == m1.Put(id, x1.func);
    var ks := KeysOf(xs, FunctionKey);
    assert ks == [id, id];
    assert ks[..1] == [id] && [id][..0] == [];
    assert AddAll([], [id]) == Add(AddAll([], []), id) == [id];
    assert AddAll([], ks) == Add(AddAll([], [id]), id) == [id];
  }

  /** Common factors never travel: the document ignores them. */
  lemma EncodeIgnoresCommonFactors(p: Provider, cs: seq<Contingency>, common: seq<SensitivityFactor>)
    ensures Encode(p.(commonFactors := common), cs) == Encode(p, cs)
  {
    if ListsEveryContingency(p, cs) {
      assert ContingencyFactors(p.(commonFactors := common), cs) == ContingencyFactors(p, cs) by {
        SameContingencyFactors(p, p.(commonFactors := common), cs);
      }
      assert ContingencySets(p.(commonFactors := common), cs) == ContingencySets(p, cs) by {
        SameContingencySets(p, p.(commonFactors := common), cs);
      }
    }
  }

  lemma {:induction false} SameContingencyFactors(p: Provider, q: Provider, cs: seq<Contingency>)
    requires p.contingenciesAdditionalFactors == q.contingenciesAdditionalFactors
    requires ListsEveryContingency(p, cs)
    ensures ContingencyFactors(p, cs) == ContingencyFactors(q, cs)
  {
    if cs != [] {
      SameContingencyFactors(p, q, cs[..|cs| - 1]);
    }
  }

  lemma {:induction false} SameContingencySets(p: Provider, q: Provider, cs: seq<Contingency>)
    requires p.contingenciesAdditionalFactors == q.contingenciesAdditionalFactors
    requires ListsEveryContingency(p, cs)
    ensures ContingencySets(p, cs) == ContingencySets(q, cs)
  {
    if cs != [] {
      SameContingencySets(p, q, cs[..|cs| - 1]);
    }
  }

  /** A contingency without a factor list (the provider returns null) makes `write` throw. */
  lemma EncodeFailsOnMissingList(p: Provider, cs: seq<Contingency>, c: Contingency)
    requires c in cs && c.id !in p.contingenciesAdditionalFactors
    ensures Encode(p, cs) == Err(NullPointer)
  {
  }
}
