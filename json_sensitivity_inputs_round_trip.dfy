/**
 * What `read` gives back: a scope decodes to the function-major cross product
 * of its ids with every catalogue variable, the compatibility table makes the
 * read fail on the first unsupported pair, and read(write(p)) returns every
 * scope's factor set whenever each scope is the cross product of its
 * functions with all catalogue variables.
 */
module JsonSensitivityInputsRoundTrip {
  import opened Wrappers
  import opened LinkedCollections
  import opened Sensitivity
  import opened InternalSensitivityInputsProvider
  import opened JsonSensitivityInputs
  import opened JsonSensitivityInputsProperties

  // ---------------------------------------------------------------------------
  // Shape of a decoded scope

  /** A row succeeds exactly when every variable pairs with the function, and then holds one factor per variable, in order. */
  lemma {:induction false} RowShape(f: Option<SensitivityFunction>, vars: seq<SensitivityVariable>)
    ensures Row(f, vars).Ok? <==> forall j :: 0 <= j < |vars| ==> MakeSensitivityFactor(f, vars[j]).Ok?
    ensures Row(f, vars).Ok? ==> |Row(f, vars).value| == |vars|
    ensures Row(f, vars).Ok? ==> forall j :: 0 <= j < |vars| ==> MakeSensitivityFactor(f, vars[j]) == Ok(Row(f, vars).value[j])
  {
    if vars != [] {
      var init := vars[..|vars| - 1];
      RowShape(f, init);
      assert forall j :: 0 <= j < |init| ==> init[j] == vars[j];
    }
  }

  /** A scope decodes exactly when every (id, variable) pair it crosses is supported. */
  lemma {:induction false} CrossProductOk(fm: LinkedMap<string, SensitivityFunction>, vars: seq<SensitivityVariable>, ids: seq<string>)
    ensures CrossProduct(fm, vars, ids).Ok? <==>
      forall i, j :: 0 <= i < |ids| && 0 <= j < |vars| ==> MakeSensitivityFactor(fm.Get(ids[i]), vars[j]).Ok?
  {
    if ids != [] {
      var init := ids[..|ids| - 1];
      CrossProductOk(fm, vars, init);
      RowShape(fm.Get(ids[|ids| - 1]), vars);
      assert forall i :: 0 <= i < |init| ==> init[i] == ids[i];
    }
  }

  /** A decoded scope holds |ids| × |vars| factors. */
  lemma {:induction false} CrossProductLength(fm: LinkedMap<string, SensitivityFunction>, vars: seq<SensitivityVariable>, ids: seq<string>)
    requires CrossProduct(fm, vars, ids).Ok?
    ensures |CrossProduct(fm, vars, ids).value| == |ids| * |vars|
  {
    if ids != [] {
      var init := ids[..|ids| - 1];
      CrossProductLength(fm, vars, init);
      RowShape(fm.Get(ids[|ids| - 1]), vars);
      assert (|ids| - 1) * |vars| + |vars| == |ids| * |vars|;
    }
  }

  lemma MulStep(i: nat, n: nat, w: nat)
    requires i < n
    ensures i * w + w <= n * w
  {
    assert (n - i) * w >= w by {
      assert n - i >= 1;
    }
    assert (n - i) * w == n * w - i * w;
  }

  /** Function-major order: factor i·|vars| + j is built from the i-th id and the j-th variable. */
  lemma {:induction false} CrossProductAt(
    fm: LinkedMap<string, SensitivityFunction>, vars: seq<SensitivityVariable>, ids: seq<string>, i: nat, j: nat)
    requires CrossProduct(fm, vars, ids).Ok? && i < |ids| && j < |vars|
    ensures i * |vars| + j < |CrossProduct(fm, vars, ids).value|
    ensures MakeSensitivityFactor(fm.Get(ids[i]), vars[j]) == Ok(CrossProduct(fm, vars, ids).value[i * |vars| + j])
  {
    var n, w := |ids|, |vars|;
    var init := ids[..n - 1];
    var prefix := CrossProduct(fm, vars, init).value;
    var row := Row(fm.Get(ids[n - 1]), vars).value;
    CrossProductLength(fm, vars, init);
    RowShape(fm.Get(ids[n - 1]), vars);
    assert CrossProduct(fm, vars, ids).value == prefix + row;
    if i < n - 1 {
      CrossProductAt(fm, vars, init, i, j);
      MulStep(i, n - 1, w);
      assert init[i] == ids[i];
    } else {
      assert i * w == |prefix|;
    }
    CrossProductLength(fm, vars, ids);
    MulStep(i, n, w);
  }

  /** Every factor of a decoded scope is built from one (id, variable) pair it crosses. */
  lemma {:induction false} CrossProductSound(fm: LinkedMap<string, SensitivityFunction>, vars: seq<SensitivityVariable>, ids: seq<string>)
    requires CrossProduct(fm, vars, ids).Ok?
    ensures forall x :: x in CrossProduct(fm, vars, ids).value ==>
      exists i, j :: 0 <= i < |ids| && 0 <= j < |vars| && MakeSensitivityFactor(fm.Get(ids[i]), vars[j]) == Ok(x)
  {
    if ids != [] {
      var n := |ids|;
      var init := ids[..n - 1];
      var prefix, row := CrossProduct(fm, vars, init).value, Row(fm.Get(ids[n - 1]), vars).value;
      assert CrossProduct(fm, vars, ids).value == prefix + row;
      forall x | x in prefix + row
        ensures exists i, j :: 0 <= i < n && 0 <= j < |vars| && MakeSensitivityFactor(fm.Get(ids[i]), vars[j]) == Ok(x)
      {
        if x in prefix {
          CrossProductSound(fm, vars, init);
          var i, j :| 0 <= i < |init| && 0 <= j < |vars| && MakeSensitivityFactor(fm.Get(init[i]), vars[j]) == Ok(x);
          assert ids[i] == init[i];
        } else {
          RowShape(fm.Get(ids[n - 1]), vars);
          var j :| 0 <= j < |row| && row[j] == x;
          assert MakeSensitivityFactor(fm.Get(ids[n - 1]), vars[j]) == Ok(x);
        }
      }
    }
  }

  /** The factors of a decoded scope are exactly the factors built from the (id, variable) pairs it crosses. */
  lemma CrossProductMembers(fm: LinkedMap<string, SensitivityFunction>, vars: seq<SensitivityVariable>, ids: seq<string>)
    requires CrossProduct(fm, vars, ids).Ok?
    ensures forall x :: x in CrossProduct(fm, vars, ids).value <==>
      exists i, j :: 0 <= i < |ids| && 0 <= j < |vars| && MakeSensitivityFactor(fm.Get(ids[i]), vars[j]) == Ok(x)
  {
    var cp := CrossProduct(fm, vars, ids).value;
    forall i, j | 0 <= i < |ids| && 0 <= j < |vars| && MakeSensitivityFactor(fm.Get(ids[i]), vars[j]).Ok?
      ensures MakeSensitivityFactor(fm.Get(ids[i]), vars[j]).value in cp
    {
      CrossProductAt(fm, vars, ids, i, j);
    }
    assert forall x :: x in cp ==>
      exists i, j :: 0 <= i < |ids| && 0 <= j < |vars| && MakeSensitivityFactor(fm.Get(ids[i]), vars[j]) == Ok(x) by {
      CrossProductSound(fm, vars, ids);
    }
  }

  /**
   * The decoded sets are Java `HashSet`s, iterated in hash order rather than
   * document order. Whatever that order, a scope decodes or fails alike, and
   * to the same number of factors and the same factors.
   */
  lemma CrossProductOrderIndependent(
    fm: LinkedMap<string, SensitivityFunction>, vars: seq<SensitivityVariable>, ids: seq<string>, ids': seq<string>)
    requires multiset(ids) == multiset(ids')
    ensures CrossProduct(fm, vars, ids).Ok? <==> CrossProduct(fm, vars, ids').Ok?
    ensures CrossProduct(fm, vars, ids).Ok? ==>
      && |CrossProduct(fm, vars, ids).value| == |CrossProduct(fm, vars, ids').value|
      && forall x :: x in CrossProduct(fm, vars, ids).value <==> x in CrossProduct(fm, vars, ids').value
  {
    assert |ids| == |multiset(ids)| == |ids'|;
    CrossProductOk(fm, vars, ids);
    CrossProductOk(fm, vars, ids');
    CrossProductOneWay(fm, vars, ids, ids');
    CrossProductOneWay(fm, vars, ids', ids);
  }

  /** One direction of `CrossProductOrderIndependent`: every pair `ids` crosses, `ids'` crosses too. */
  lemma CrossProductOneWay(
    fm: LinkedMap<string, SensitivityFunction>, vars: seq<SensitivityVariable>, ids: seq<string>, ids': seq<string>)
    requires multiset(ids) == multiset(ids')
    ensures CrossProduct(fm, vars, ids').Ok? ==> CrossProduct(fm, vars, ids).Ok?
    ensures CrossProduct(fm, vars, ids').Ok? ==> |CrossProduct(fm, vars, ids).value| == |CrossProduct(fm, vars, ids').value|
    ensures CrossProduct(fm, vars, ids).Ok? && CrossProduct(fm, vars, ids').Ok? ==>
      forall x :: x in CrossProduct(fm, vars, ids).value ==> x in CrossProduct(fm, vars, ids').value
  {
    assert |ids| == |multiset(ids)| == |ids'|;
    if CrossProduct(fm, vars, ids').Ok? {
      CrossProductOk(fm, vars, ids);
      CrossProductOk(fm, vars, ids');
      forall i, j | 0 <= i < |ids| && 0 <= j < |vars|
        ensures MakeSensitivityFactor(fm.Get(ids[i]), vars[j]).Ok?
      {
        assert ids[i] in multiset(ids');
        var i' :| 0 <= i' < |ids'| && ids'[i'] == ids[i];
      }
      CrossProductLength(fm, vars, ids);
      CrossProductLength(fm, vars, ids');
      var cp, cp' := CrossProduct(fm, vars, ids).value, CrossProduct(fm, vars, ids').value;
      CrossProductMembers(fm, vars, ids);
      CrossProductMembers(fm, vars, ids');
      forall x | x in cp ensures x in cp' {
        var i, j :| 0 <= i < |ids| && 0 <= j < |vars| && MakeSensitivityFactor(fm.Get(ids[i]), vars[j]) == Ok(x);
        assert ids[i] in multiset(ids');
        var i' :| 0 <= i' < |ids'| && ids'[i'] == ids[i];
        assert MakeSensitivityFactor(fm.Get(ids'[i']), vars[j]) == Ok(x);
      }
    }
  }

  // ---------------------------------------------------------------------------
  // Shape of a decoded document

  /** No contingency after position `k` has the id of the one at `k`. */
  predicate LastWithId(keys: seq<Contingency>, k: int)
    requires 0 <= k < |keys|
  {
    forall l :: k < l < |keys| ==> keys[l].id != keys[k].id
  }

  /**
   * The decoded contingency map: it succeeds exactly when every contingency's
   * scope decodes; its keys are the contingencies' ids; under each id it holds
   * the decoded scope of the last contingency with that id (a later
   * contingency with the same id replaces an earlier one), so a contingency
   * whose id no contingency with another set shares holds its own scope.
   */
  lemma {:induction false} DecodeContingenciesShape(
    fm: LinkedMap<string, SensitivityFunction>, vars: seq<SensitivityVariable>,
    keys: seq<Contingency>, sets: map<Contingency, seq<string>>)
    requires forall c :: c in keys ==> c in sets
    ensures DecodeContingencies(fm, vars, keys, sets).Ok? <==> forall c :: c in keys ==> CrossProduct(fm, vars, sets[c]).Ok?
    ensures DecodeContingencies(fm, vars, keys, sets).Ok? ==>
      var m := DecodeContingencies(fm, vars, keys, sets).value;
      && (forall id :: id in m <==> exists c :: c in keys && c.id == id)
      && (forall k :: 0 <= k < |keys| && LastWithId(keys, k) ==> CrossProduct(fm, vars, sets[keys[k]]) == Ok(m[keys[k].id]))
      && (forall c :: c in keys && (forall d :: d in keys && d.id == c.id ==> sets[d] == sets[c]) ==>
            CrossProduct(fm, vars, sets[c]) == Ok(m[c.id]))
  {
    if keys != [] {
      var last := keys[|keys| - 1];
      var init := keys[..|keys| - 1];
      assert forall c :: c in keys <==> c in init || c == last;
      DecodeContingenciesShape(fm, vars, init, sets);
    }
    if DecodeContingencies(fm, vars, keys, sets).Ok? {
      var m := DecodeContingencies(fm, vars, keys, sets).value;
      forall k | 0 <= k < |keys| && LastWithId(keys, k)
        ensures CrossProduct(fm, vars, sets[keys[k]]) == Ok(m[keys[k].id])
      {
        DecodeContingenciesLastWins(fm, vars, keys, sets, k);
      }
    }
  }

  /** Under an id, the decoded map holds the scope of the last contingency with that id. */
  lemma {:induction false} DecodeContingenciesLastWins(
    fm: LinkedMap<string, SensitivityFunction>, vars: seq<SensitivityVariable>,
    keys: seq<Contingency>, sets: map<Contingency, seq<string>>, k: int)
    requires forall c :: c in keys ==> c in sets
    requires DecodeContingencies(fm, vars, keys, sets).Ok?
    requires 0 <= k < |keys| && LastWithId(keys, k)
    ensures var m := DecodeContingencies(fm, vars, keys, sets).value;
            keys[k].id in m && CrossProduct(fm, vars, sets[keys[k]]) == Ok(m[keys[k].id])
  {
    var init := keys[..|keys| - 1];
    if k < |init| {
      assert init[k] == keys[k];
      assert keys[|keys| - 1].id != keys[k].id;
      assert LastWithId(init, k) by {
        forall l | k < l < |init| ensures init[l].id != init[k].id {
          assert init[l] == keys[l];
        }
      }
      assert forall c :: c in init ==> c in keys;
      DecodeContingenciesLastWins(fm, vars, init, sets, k);
    }
  }

  /** `read` succeeds exactly when the base case and every contingency scope decode; a failure is always an unrecognizable factor. */
  lemma DecodeOkIff(doc: InputsDocument)
    requires doc.WellFormed()
    ensures Decode(doc).Ok? <==>
      && CrossProduct(doc.functions, doc.variables.Values(), doc.basecaseFunctions).Ok?
      && forall c :: c in doc.contingencyFunctions.keys ==>
           CrossProduct(doc.functions, doc.variables.Values(), doc.contingencyFunctions.entries[c]).Ok?
    ensures Decode(doc).Err? ==> Decode(doc).error == UnrecognizableFactor
  {
    DecodeContingenciesShape(doc.functions, doc.variables.Values(), doc.contingencyFunctions.keys, doc.contingencyFunctions.entries);
  }

  /**
   * A decoded provider has no common factors, the decoded base case, the
   * document's contingencies in document order, an entry per contingency id
   * holding the decoded set of the last contingency with that id, and so,
   * under an id shared only by contingencies of one set, that set decoded.
   */
  lemma DecodeShape(doc: InputsDocument)
    requires doc.WellFormed() && Decode(doc).Ok?
    ensures var q, vars, keys := Decode(doc).value, doc.variables.Values(), doc.contingencyFunctions.keys;
      && q.commonFactors == []
      && CrossProduct(doc.functions, vars, doc.basecaseFunctions) == Ok(q.basecaseAdditionalFactors)
      && q.contingencies == keys
      && (forall id :: id in q.contingenciesAdditionalFactors <==> exists c :: c in keys && c.id == id)
      && (forall k :: 0 <= k < |keys| && LastWithId(keys, k) ==>
            CrossProduct(doc.functions, vars, doc.contingencyFunctions.entries[keys[k]])
              == Ok(q.contingenciesAdditionalFactors[keys[k].id]))
      && (forall c :: c in keys && (forall d :: d in keys && d.id == c.id ==>
                                     doc.contingencyFunctions.entries[d] == doc.contingencyFunctions.entries[c]) ==>
            CrossProduct(doc.functions, vars, doc.contingencyFunctions.entries[c]) == Ok(q.contingenciesAdditionalFactors[c.id]))
  {
    DecodeContingenciesShape(doc.functions, doc.variables.Values(), doc.contingencyFunctions.keys, doc.contingencyFunctions.entries);
  }

  // ---------------------------------------------------------------------------
  // Conditional round trip

  /** Equal ids mean equal functions, and equal ids mean equal variables (so ids are unique across kinds). */
  ghost predicate IdsIdentify(xs: seq<SensitivityFactor>) {
    forall x, y :: x in xs && y in xs ==>
      (x.func.id == y.func.id ==> x.func == y.func) && (x.variable.id == y.variable.id ==> x.variable == y.variable)
  }

  /** Every factor is of the class the table builds from its function and variable. */
  ghost predicate AllWellTyped(xs: seq<SensitivityFactor>) {
    forall x :: x in xs ==> WellTyped(x)
  }

  /** The factor the table builds from a supported pair. */
  function Built(f: SensitivityFunction, v: SensitivityVariable): SensitivityFactor
    requires (f.kind, v.kind) in FactorTable
  {
    SensitivityFactor(FactorTable[(f.kind, v.kind)], f, v)
  }

  /**
   * The cross-product assumption: each function of the scope pairs with every
   * variable of `all`, and the scope holds the factor built from that pair.
   */
  ghost predicate IsCrossProduct(scope: seq<SensitivityFactor>, all: seq<SensitivityFactor>) {
    forall x, y :: x in scope && y in all ==>
      (x.func.kind, y.variable.kind) in FactorTable && Built(x.func, y.variable) in scope
  }

  /** The catalogue holds every function of `all` under its id, and exactly the variables of `all`. */
  ghost predicate Catalogued(
    fm: LinkedMap<string, SensitivityFunction>, vars: seq<SensitivityVariable>, all: seq<SensitivityFactor>)
  {
    && (forall x :: x in all ==> x.func.id in fm.entries && fm.entries[x.func.id] == x.func)
    && (forall v :: v in vars ==> exists y :: y in all && y.variable == v)
    && (forall y :: y in all ==> y.variable in vars)
  }

  /** A scope of well-typed factors of `all` that crosses its functions with every variable of `all`. */
  ghost predicate CrossProductScope(scope: seq<SensitivityFactor>, all: seq<SensitivityFactor>) {
    && (forall x :: x in scope ==> x in all)
    && AllWellTyped(scope)
    && IsCrossProduct(scope, all)
  }

  /** `ids` holds exactly the function ids of the scope. */
  ghost predicate IdsOf(ids: seq<string>, scope: seq<SensitivityFactor>) {
    forall k :: k in ids <==> exists x :: x in scope && x.func.id == k
  }

  /**
   * One scope: when the catalogue holds the functions and exactly the
   * variables of `all`, a cross-product scope's set decodes to the scope's
   * own factors.
   */
  lemma ScopeRoundTrip(
    fm: LinkedMap<string, SensitivityFunction>, vars: seq<SensitivityVariable>,
    scope: seq<SensitivityFactor>, all: seq<SensitivityFactor>)
    requires Catalogued(fm, vars, all) && CrossProductScope(scope, all)
    ensures CrossProduct(fm, vars, FunctionIdSet(scope)).Ok?
    ensures forall x :: x in CrossProduct(fm, vars, FunctionIdSet(scope)).value <==> x in scope
  {
    var ids := FunctionIdSet(scope);
    assert IdsOf(ids, scope) by {
      FunctionIdSetMeaning(scope);
    }
    ScopeBuilds(fm, vars, scope, all, ids);
    assert CrossProduct(fm, vars, ids).Ok? by {
      CrossProductOk(fm, vars, ids);
    }
    CrossProductInScope(fm, vars, scope, ids);
    assert forall x :: x in scope ==> x in all;
    ScopeInCrossProduct(fm, vars, scope, ids);
  }

  /** The function catalogued under `id` and `v` build one of the scope's factors. */
  ghost predicate BuildsInScope(
    fm: LinkedMap<string, SensitivityFunction>, scope: seq<SensitivityFactor>, id: string, v: SensitivityVariable)
  {
    exists z :: z in scope && MakeSensitivityFactor(fm.Get(id), v) == Ok(z)
  }

  /** Every (id, variable) pair of a cross-product scope builds one of the scope's factors. */
  lemma ScopeBuilds(
    fm: LinkedMap<string, SensitivityFunction>, vars: seq<SensitivityVariable>,
    scope: seq<SensitivityFactor>, all: seq<SensitivityFactor>, ids: seq<string>)
    requires Catalogued(fm, vars, all) && CrossProductScope(scope, all) && IdsOf(ids, scope)
    ensures forall i, j :: 0 <= i < |ids| && 0 <= j < |vars| ==> BuildsInScope(fm, scope, ids[i], vars[j])
    ensures forall i, j :: 0 <= i < |ids| && 0 <= j < |vars| ==> MakeSensitivityFactor(fm.Get(ids[i]), vars[j]).Ok?
  {
    forall i, j | 0 <= i < |ids| && 0 <= j < |vars|
      ensures BuildsInScope(fm, scope, ids[i], vars[j])
    {
      assert ids[i] in ids;
      var a :| a in scope && a.func.id == ids[i];
      assert vars[j] in vars;
      PairBuilt(fm, vars[j], scope, all, a);
      var z := Built(a.func, vars[j]);
      assert z in scope && MakeSensitivityFactor(fm.Get(ids[i]), vars[j]) == Ok(z);
    }
  }

  /** What a scope's set decodes to is among the scope's factors. */
  lemma CrossProductInScope(
    fm: LinkedMap<string, SensitivityFunction>, vars: seq<SensitivityVariable>,
    scope: seq<SensitivityFactor>, ids: seq<string>)
    requires CrossProduct(fm, vars, ids).Ok?
    requires forall i, j :: 0 <= i < |ids| && 0 <= j < |vars| ==> BuildsInScope(fm, scope, ids[i], vars[j])
    ensures forall x :: x in CrossProduct(fm, vars, ids).value ==> x in scope
  {
    CrossProductSound(fm, vars, ids);
    forall x | x in CrossProduct(fm, vars, ids).value
      ensures x in scope
    {
      var i, j :| 0 <= i < |ids| && 0 <= j < |vars| && MakeSensitivityFactor(fm.Get(ids[i]), vars[j]) == Ok(x);
      assert BuildsInScope(fm, scope, ids[i], vars[j]);
      var z :| z in scope && MakeSensitivityFactor(fm.Get(ids[i]), vars[j]) == Ok(z);
    }
  }

  /** Each factor of the scope is decoded from the scope's set. */
  lemma ScopeInCrossProduct(
    fm: LinkedMap<string, SensitivityFunction>, vars: seq<SensitivityVariable>,
    scope: seq<SensitivityFactor>, ids: seq<string>)
    requires CrossProduct(fm, vars, ids).Ok?
    requires forall x :: x in scope ==> x.func.id in fm.entries && fm.entries[x.func.id] == x.func
    requires forall x :: x in scope ==> x.variable in vars
    requires AllWellTyped(scope) && IdsOf(ids, scope)
    ensures forall x :: x in scope ==> x in CrossProduct(fm, vars, ids).value
  {
    forall x | x in scope
      ensures x in CrossProduct(fm, vars, ids).value
    {
      assert x.func.id in ids;
      var i :| 0 <= i < |ids| && ids[i] == x.func.id;
      var j :| 0 <= j < |vars| && vars[j] == x.variable;
      FactorRebuilt(fm, x);
      CrossProductAt(fm, vars, ids, i, j);
      var cp := CrossProduct(fm, vars, ids).value;
      assert cp[i * |vars| + j] == x;
    }
  }

  /** A catalogued function of the scope and any catalogued variable build a factor of the scope. */
  lemma PairBuilt(
    fm: LinkedMap<string, SensitivityFunction>, v: SensitivityVariable,
    scope: seq<SensitivityFactor>, all: seq<SensitivityFactor>, a: SensitivityFactor)
    requires a in scope && a.func.id in fm.entries && fm.entries[a.func.id] == a.func
    requires exists y :: y in all && y.variable == v
    requires IsCrossProduct(scope, all)
    ensures MakeSensitivityFactor(fm.Get(a.func.id), v) == Ok(Built(a.func, v))
    ensures Built(a.func, v) in scope
  {
    var y :| y in all && y.variable == v;
    assert (a.func.kind, y.variable.kind) in FactorTable && Built(a.func, y.variable) in scope;
  }

  /** A well-typed factor is rebuilt from its own function and variable. */
  lemma FactorRebuilt(fm: LinkedMap<string, SensitivityFunction>, x: SensitivityFactor)
    requires x.func.id in fm.entries && fm.entries[x.func.id] == x.func
    requires WellTyped(x)
    ensures MakeSensitivityFactor(fm.Get(x.func.id), x.variable) == Ok(x)
  {
  }

  /** Each contingency's factors are among the visited factors. */
  lemma {:induction false} ContingencyFactorsContain(p: Provider, cs: seq<Contingency>, c: Contingency)
    requires ListsEveryContingency(p, cs) && c in cs
    ensures forall x :: x in p.contingenciesAdditionalFactors[c.id] ==> x in ContingencyFactors(p, cs)
  {
    var last := cs[|cs| - 1];
    if c != last {
      assert c in cs[..|cs| - 1];
      ContingencyFactorsContain(p, cs[..|cs| - 1], c);
    }
  }

  /** Encoding a provider that lists its contingencies puts every visited factor in both catalogues. */
  lemma EncodedCatalogues(p: Provider, cs: seq<Contingency>)
    requires ListsEveryContingency(p, cs)
    ensures Encode(p, cs).Ok?
    ensures Encode(p, cs).value.functions == PutAll(EmptyMap(), VisitedFactors(p, cs), FunctionKey, FunctionOf)
    ensures Encode(p, cs).value.variables == PutAll(EmptyMap(), VisitedFactors(p, cs), VariableKey, VariableOf)
  {
  }

  /** The function catalogue of factors whose ids identify them holds every function under its id. */
  lemma FunctionCatalogue(all: seq<SensitivityFactor>)
    requires IdsIdentify(all)
    ensures var fm := PutAll(EmptyMap(), all, FunctionKey, FunctionOf);
      forall x :: x in all ==> x.func.id in fm.entries && fm.entries[x.func.id] == x.func
  {
    assert forall i, j :: 0 <= i < |all| && 0 <= j < |all| && FunctionKey(all[i]) == FunctionKey(all[j]) ==>
      FunctionOf(all[i]) == FunctionOf(all[j]) by {
      forall i, j | 0 <= i < |all| && 0 <= j < |all|
        ensures FunctionKey(all[i]) == FunctionKey(all[j]) ==> FunctionOf(all[i]) == FunctionOf(all[j])
      {
        assert all[i] in all && all[j] in all;
      }
    }
    PutAllConsistent(EmptyMap(), all, FunctionKey, FunctionOf);
  }

  /** The variable catalogue of factors whose ids identify them holds exactly their variables. */
  lemma VariableCatalogue(all: seq<SensitivityFactor>)
    requires IdsIdentify(all)
    ensures var vars := PutAll(EmptyMap(), all, VariableKey, VariableOf).Values();
      && (forall v :: v in vars ==> exists y :: y in all && y.variable == v)
      && (forall y :: y in all ==> y.variable in vars)
  {
    assert forall i, j :: 0 <= i < |all| && 0 <= j < |all| && VariableKey(all[i]) == VariableKey(all[j]) ==>
      VariableOf(all[i]) == VariableOf(all[j]) by {
      forall i, j | 0 <= i < |all| && 0 <= j < |all|
        ensures VariableKey(all[i]) == VariableKey(all[j]) ==> VariableOf(all[i]) == VariableOf(all[j])
      {
        assert all[i] in all && all[j] in all;
      }
    }
    var vars := PutAll(EmptyMap(), all, VariableKey, VariableOf).Values();
    assert forall v :: v in vars ==> exists y :: y in all && y.variable == v by {
      PutAllValuesFrom(all, VariableKey, VariableOf);
    }
    assert forall y :: y in all ==> y.variable in vars by {
      PutAllValuesCover(all, VariableKey, VariableOf);
    }
  }

  /** The encoded function map holds every visited function under its id. */
  lemma EncodedFunctions(p: Provider, cs: seq<Contingency>)
    requires ListsEveryContingency(p, cs) && IdsIdentify(VisitedFactors(p, cs))
    ensures Encode(p, cs).Ok?
    ensures var fm, all := Encode(p, cs).value.functions, VisitedFactors(p, cs);
      forall x :: x in all ==> x.func.id in fm.entries && fm.entries[x.func.id] == x.func
  {
    EncodedCatalogues(p, cs);
    FunctionCatalogue(VisitedFactors(p, cs));
  }

  /** The encoded variable map holds exactly the visited variables, each under its id. */
  lemma EncodedVariables(p: Provider, cs: seq<Contingency>)
    requires ListsEveryContingency(p, cs) && IdsIdentify(VisitedFactors(p, cs))
    ensures Encode(p, cs).Ok?
    ensures var vars, all := Encode(p, cs).value.variables.Values(), VisitedFactors(p, cs);
      && (forall v :: v in vars ==> exists y :: y in all && y.variable == v)
      && (forall y :: y in all ==> y.variable in vars)
  {
    EncodedCatalogues(p, cs);
    VariableCatalogue(VisitedFactors(p, cs));
  }

  /**
   * Under the round-trip assumptions the encoded document is well formed and
   * its base case and every contingency set cross back to the provider's
   * factor sets.
   */
  lemma EncodedScopesRebuilt(p: Provider, cs: seq<Contingency>)
    requires ListsEveryContingency(p, cs)
    requires IdsIdentify(VisitedFactors(p, cs)) && AllWellTyped(VisitedFactors(p, cs))
    requires IsCrossProduct(p.basecaseAdditionalFactors, VisitedFactors(p, cs))
    requires forall c :: c in cs ==> IsCrossProduct(p.contingenciesAdditionalFactors[c.id], VisitedFactors(p, cs))
    ensures Encode(p, cs).Ok? && Encode(p, cs).value.WellFormed()
    ensures var doc := Encode(p, cs).value; var vars := doc.variables.Values();
      && CrossProduct(doc.functions, vars, doc.basecaseFunctions).Ok?
      && (forall x :: x in CrossProduct(doc.functions, vars, doc.basecaseFunctions).value <==> x in p.basecaseAdditionalFactors)
      && (forall c :: c in doc.contingencyFunctions.keys ==>
            && c.id in p.contingenciesAdditionalFactors
            && CrossProduct(doc.functions, vars, doc.contingencyFunctions.entries[c]).Ok?
            && (forall x :: x in CrossProduct(doc.functions, vars, doc.contingencyFunctions.entries[c]).value <==>
                  x in p.contingenciesAdditionalFactors[c.id]))
  {
    var doc, all := Encode(p, cs).value, VisitedFactors(p, cs);
    var vars := doc.variables.Values();
    EncodeScopeSets(p, cs);
    EncodedFunctions(p, cs);
    EncodedVariables(p, cs);
    DedupOrder(cs);
    assert doc.WellFormed();
    assert Catalogued(doc.functions, vars, all);
    assert CrossProductScope(p.basecaseAdditionalFactors, all);
    ScopeRoundTrip(doc.functions, vars, p.basecaseAdditionalFactors, all);
    forall c | c in doc.contingencyFunctions.keys
      ensures c.id in p.contingenciesAdditionalFactors
      ensures CrossProduct(doc.functions, vars, doc.contingencyFunctions.entries[c]).Ok?
      ensures forall x :: x in CrossProduct(doc.functions, vars, doc.contingencyFunctions.entries[c]).value <==>
                x in p.contingenciesAdditionalFactors[c.id]
    {
      ContingencyFactorsContain(p, cs, c);
      assert CrossProductScope(p.contingenciesAdditionalFactors[c.id], all);
      ScopeRoundTrip(doc.functions, vars, p.contingenciesAdditionalFactors[c.id], all);
    }
  }

  /**
   * The round trip under the cross-product assumption: when ids identify
   * functions and variables, every factor is well typed and every scope is its
   * functions crossed with all catalogue variables, read(write(p)) succeeds,
   * has no common factors, lists the contingencies once each in their first
   * order, and gives back the same factor set for the base case and for every
   * listed contingency.
   */
  lemma RoundTrip(p: Provider, cs: seq<Contingency>)
    requires ListsEveryContingency(p, cs)
    requires IdsIdentify(VisitedFactors(p, cs)) && AllWellTyped(VisitedFactors(p, cs))
    requires IsCrossProduct(p.basecaseAdditionalFactors, VisitedFactors(p, cs))
    requires forall c :: c in cs ==> IsCrossProduct(p.contingenciesAdditionalFactors[c.id], VisitedFactors(p, cs))
    ensures Encode(p, cs).Ok? && Encode(p, cs).value.WellFormed()
    ensures Decode(Encode(p, cs).value).Ok?
    ensures var q := Decode(Encode(p, cs).value).value;
      && q.commonFactors == []
      && q.contingencies == Dedup(cs)
      && (forall x :: x in q.basecaseAdditionalFactors <==> x in p.basecaseAdditionalFactors)
      && (forall c :: c in cs ==>
            && c.id in q.contingenciesAdditionalFactors
            && (forall x :: x in q.contingenciesAdditionalFactors[c.id] <==> x in p.contingenciesAdditionalFactors[c.id]))
  {
    EncodedScopesRebuilt(p, cs);
    EncodeScopeSets(p, cs);
    DedupOrder(cs);
    var doc := Encode(p, cs).value;
    DecodeOkIff(doc);
    DecodeShape(doc);
    var q := Decode(doc).value;
    forall c | c in cs
      ensures c.id in q.contingenciesAdditionalFactors
      ensures forall x :: x in q.contingenciesAdditionalFactors[c.id] <==> x in p.contingenciesAdditionalFactors[c.id]
    {
      assert c in doc.contingencyFunctions.keys;
    }
  }

  // ---------------------------------------------------------------------------
  // The contingency lookup as written

  /**
   * As written, `read` agrees with the corrected decoder on documents without
   * contingencies and fails with a null dereference on every document with one
   * whose base case decodes.
   */
  lemma DecodeAsWrittenFailsOnContingencies(doc: InputsDocument)
    requires doc.WellFormed()
    ensures doc.contingencyFunctions.keys == [] ==> DecodeAsWritten(doc) == Decode(doc)
    ensures (doc.contingencyFunctions.keys != []
             && CrossProduct(doc.functions, doc.variables.Values(), doc.basecaseFunctions).Ok?) ==>
      DecodeAsWritten(doc) == Err(NullPointer)
  {
    if doc.contingencyFunctions.keys == [] {
      assert doc.contingencyFunctions.entries == map[];
    }
  }

  /**
   * A one-contingency document without factors: the corrected decoder returns
   * the contingency with an empty scope, the code as written throws.
   */
  lemma ContingencyLookupCounterexample()
    ensures var c := Contingency("C1", []);
      var doc := InputsDocument(EmptyMap(), EmptyMap(), [], LinkedMap([c], map[c := []]));
      && doc.WellFormed()
      && Decode(doc) == Ok(Provider([], [], map["C1" := []], [c]))
      && DecodeAsWritten(doc) == Err(NullPointer)
  {
    var c := Contingency("C1", []);
    var doc := InputsDocument(EmptyMap(), EmptyMap(), [], LinkedMap([c], map[c := []]));
    assert [c][..0] == [];
    assert DecodeContingencies(doc.functions, doc.variables.Values(), [c], map[c := []]) == Ok(map["C1" := []]);
  }

  /**
   * Hence, as written, write followed by read fails for every provider that
   * lists a contingency, even under the cross-product assumption.
   */
  lemma RoundTripAsWrittenFails(p: Provider, cs: seq<Contingency>)
    requires ListsEveryContingency(p, cs) && cs != []
    requires IdsIdentify(VisitedFactors(p, cs)) && AllWellTyped(VisitedFactors(p, cs))
    requires IsCrossProduct(p.basecaseAdditionalFactors, VisitedFactors(p, cs))
    requires forall c :: c in cs ==> IsCrossProduct(p.contingenciesAdditionalFactors[c.id], VisitedFactors(p, cs))
    ensures Encode(p, cs).Ok? && Encode(p, cs).value.WellFormed()
    ensures DecodeAsWritten(Encode(p, cs).value) == Err(NullPointer)
  {
    RoundTrip(p, cs);
    DecodeAsWrittenFailsOnContingencies(Encode(p, cs).value);
    DedupOrder(cs);
    assert cs[0] in Dedup(cs);
  }
}
