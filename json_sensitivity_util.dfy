/** The function-class suffix (JsonSensitivityUtil.getSuffix). */
module JsonSensitivityUtil {
  import opened Wrappers
  import opened Sensitivity

  const FlowSuffix: string := " - F"
  const IntensitySuffix: string := " - I"

  /**
   * A flow function takes " - F", an intensity function " - I", and any other
   * class is refused as an unrecognizable sensitivity function.
   */
  function GetSuffix(f: SensitivityFunction): (r: Result<string, Error>)
    ensures f.kind == BranchFlow <==> r == Ok(FlowSuffix)
    ensures f.kind == BranchIntensity <==> r == Ok(IntensitySuffix)
    ensures f.kind.OtherFunction? <==> r == Err(UnrecognizableFunction)
  {
    match f.kind
    case BranchFlow => Ok(FlowSuffix)
    case BranchIntensity => Ok(IntensitySuffix)
    case OtherFunction(_) => Err(UnrecognizableFunction)
  }

  /**
   * The suffix depends on the class alone, and the two suffixes differ, so a
   * flow and an intensity function sharing an id get distinct suffixed keys.
   */
  lemma SuffixedKeysDiffer(flow: SensitivityFunction, intensity: SensitivityFunction)
    requires flow.kind == BranchFlow && intensity.kind == BranchIntensity
    requires flow.id == intensity.id
    ensures GetSuffix(flow).Ok? && GetSuffix(intensity).Ok?
    ensures flow.id + GetSuffix(flow).value != intensity.id + GetSuffix(intensity).value
  {
    var a, b := flow.id + FlowSuffix, intensity.id + IntensitySuffix;
    assert a[|a| - 1] == 'F' && b[|b| - 1] == 'I';
  }

  /** Two functions of one class get the same suffix whatever their ids and payloads. */
  lemma SuffixDependsOnKindOnly(f: SensitivityFunction, g: SensitivityFunction)
    requires f.kind == g.kind
    ensures GetSuffix(f) == GetSuffix(g)
  {
  }
}
