/**
 * The sensitivity-analysis types the codec carries: functions, variables and
 * factors as tagged variants, contingencies, the network whose working variant
 * the client switches, and the exceptions the codec can raise.
 */
module Sensitivity {
  import opened Wrappers

  /** The class of a SensitivityFunction; `OtherFunction` is any class the codec does not know. */
  datatype FunctionKind = BranchFlow | BranchIntensity | OtherFunction(className: string)

  /** The class of a SensitivityVariable. */
  datatype VariableKind = InjectionIncrease | PhaseTapChangerAngle | LinearGlsk | OtherVariable(className: string)

  /** The concrete factor classes the decoder can build. */
  datatype FactorType =
    | BranchFlowPerLinearGlsk
    | BranchFlowPerPSTAngle
    | BranchFlowPerInjectionIncrease
    | BranchIntensityPerPSTAngle
    | OtherFactor(className: string)

  /** A function of interest: its class, its id, and the rest of its fields (name, branch) as an opaque payload. */
  datatype SensitivityFunction = SensitivityFunction(kind: FunctionKind, id: string, detail: string)

  /** A perturbation variable: its class, its id and an opaque payload. */
  datatype SensitivityVariable = SensitivityVariable(kind: VariableKind, id: string, detail: string)

  /** One requested (function, variable) computation, with its concrete class. */
  datatype SensitivityFactor = SensitivityFactor(factorType: FactorType, func: SensitivityFunction, variable: SensitivityVariable)

  /** An outage scenario: an id and an element list the codec never interprets. */
  datatype Contingency = Contingency(id: string, elements: seq<string>)

  /** The exceptions the modelled code raises. */
  datatype Error =
    | NullPointer                         // NullPointerException from dereferencing a missing entry
    | UnrecognizableFactor                // PowsyblException thrown by makeSensitivityFactor
    | UnrecognizableFunction              // PowsyblException thrown by getSuffix
    | VariantNotFound(variantId: string)  // the variant manager refuses an unknown variant
    | Io                                  // UncheckedIOException from a serialiser
    | Transport                           // the HTTP exchange failed or timed out

  /**
   * A network as far as the client touches it: an id, the variants its
   * variant manager holds, and the working variant, which is mutable state.
   */
  class Network {
    const id: string
    const variantIds: set<string>
    var workingVariantId: string

    ghost predicate Valid()
      reads this
    {
      workingVariantId in variantIds
    }

    constructor (id: string, variantIds: set<string>, initialVariantId: string)
      requires initialVariantId in variantIds
      ensures Valid()
      ensures this.id == id && this.variantIds == variantIds && workingVariantId == initialVariantId
    {
      this.id := id;
      this.variantIds := variantIds;
      this.workingVariantId := initialVariantId;
    }

    /** `getVariantManager().setWorkingVariant(v)`: fails, changing nothing, on an unknown variant. */
    method SetWorkingVariant(variantId: string) returns (r: Result<(), Error>)
      requires Valid()
      modifies this
      ensures Valid()
      ensures r.Ok? <==> variantId in variantIds
      ensures r.Err? ==> r.error == VariantNotFound(variantId)
      ensures workingVariantId == if r.Ok? then variantId else old(workingVariantId)
    {
      if variantId in variantIds {
        workingVariantId := variantId;
        r := Ok(());
      } else {
        r := Err(VariantNotFound(variantId));
      }
    }
  }
}
