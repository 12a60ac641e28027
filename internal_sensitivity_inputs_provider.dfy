/**
 * The decoded factor provider (InternalSensitivityInputsProvider): four
 * values fixed at construction and read back by its queries. It also stands
 * for the caller's factor provider wherever the codec queries one.
 */
module InternalSensitivityInputsProvider {
  import opened Wrappers
  import opened Sensitivity

  /**
   * A value: the Java fields are final and no query assigns them, so a query
   * can never change the provider. No query reads the network it is given.
   */
  datatype Provider = Provider(
    commonFactors: seq<SensitivityFactor>,
    basecaseAdditionalFactors: seq<SensitivityFactor>,
    contingenciesAdditionalFactors: map<string, seq<SensitivityFactor>>,
    contingencies: seq<Contingency>)
  {
    function GetContingencies(): seq<Contingency> {
      contingencies
    }

    function GetCommonFactors(network: Network): seq<SensitivityFactor> {
      commonFactors
    }

    function GetAdditionalFactors(network: Network): seq<SensitivityFactor> {
      basecaseAdditionalFactors
    }

    /** The list stored under the id, or null for an id the map lacks. */
    function GetAdditionalFactorsFor(network: Network, contingencyId: string): (r: Option<seq<SensitivityFactor>>)
      ensures r.Some? <==> contingencyId in contingenciesAdditionalFactors
      ensures r.Some? ==> r.value == contingenciesAdditionalFactors[contingencyId]
    {
      if contingencyId in contingenciesAdditionalFactors then Some(contingenciesAdditionalFactors[contingencyId]) else None
    }
  }

  /**
   * Each query hands back what the constructor was given, whichever network
   * it is asked about.
   */
  lemma QueriesReturnConstructorArguments(
    common: seq<SensitivityFactor>, basecase: seq<SensitivityFactor>,
    byContingency: map<string, seq<SensitivityFactor>>, contingencies: seq<Contingency>,
    n1: Network, n2: Network, id: string)
    ensures var p := Provider(common, basecase, byContingency, contingencies);
      && p.GetContingencies() == contingencies
      && p.GetCommonFactors(n1) == p.GetCommonFactors(n2) == common
      && p.GetAdditionalFactors(n1) == p.GetAdditionalFactors(n2) == basecase
      && p.GetAdditionalFactorsFor(n1, id) == p.GetAdditionalFactorsFor(n2, id)
      && (id in byContingency ==> p.GetAdditionalFactorsFor(n1, id) == Some(byContingency[id]))
      && (id !in byContingency <==> p.GetAdditionalFactorsFor(n1, id) == None)
  {
  }
}
