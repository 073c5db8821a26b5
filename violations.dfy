/** Violation records and the severity a rule reports them with. */
module Violations {
  import opened Wrappers

  datatype ViolationSeverity = Warning | Error

  /** One reported violation: which rule, how severe, and at which byte offset. */
  datatype StyleViolation = StyleViolation(ruleIdentifier: string, severity: ViolationSeverity, byteOffset: int)

  function LowercasedChar(c: char): char
  {
    if 'A' <= c <= 'Z' then (c as int + 32) as char else c
  }

  /** ASCII lower-casing, character by character. */
  function Lowercased(s: string): (r: string)
    ensures |r| == |s|
    ensures forall i :: 0 <= i < |s| ==> r[i] == LowercasedChar(s[i])
  {
    seq(|s|, i requires 0 <= i < |s| => LowercasedChar(s[i]))
  }

  /** The severity a configuration string names, in either letter case, or
      `None` for any other string (the parse `SeverityConfiguration` performs). */
  function ParseSeverity(s: string): (r: Option<ViolationSeverity>)
    ensures r == Some(Warning) <==> Lowercased(s) == "warning"
    ensures r == Some(Error) <==> Lowercased(s) == "error"
    ensures r.None? <==> Lowercased(s) != "warning" && Lowercased(s) != "error"
  {
    var lower := Lowercased(s);
    if lower == "warning" then Some(Warning)
    else if lower == "error" then Some(Error)
    else None
  }
}
