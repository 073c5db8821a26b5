/** `XCTClassConfiguration`: the severity and the test base classes shared by the
    missing-super and nullify-stored-properties rules
    (Source/SwiftLintFramework/Rules/RuleConfigurations/XCTClassConfiguration.swift). */
module ClassConfiguration {
  import opened Wrappers
  import opened Violations
  import opened ConfigValues

  /** The values a configuration holds. */
  datatype Settings = Settings(severity: ViolationSeverity, testClasses: seq<string>)

  /** A new configuration reports warnings and knows `XCTestCase` as its only test base class. */
  const Default := Settings(Warning, ["XCTestCase"])

  /** The settings and the outcome `apply(configuration:)` leaves behind, given
      the settings before it and the configuration value. */
  function Applied(before: Settings, configuration: Value): (r: (Settings, Outcome<ConfigurationError>))
    ensures !configuration.Dictionary? ==> r == (before, Fail(UnknownConfiguration))
    ensures r.1.Pass? <==> configuration.Dictionary? && SeverityAccepted(configuration.entries)
    ensures r.1.Fail? ==> r.0 == before
    ensures before.testClasses <= r.0.testClasses
    ensures r.1.Pass? ==>
      (var entries := configuration.entries;
       && (StringAt(entries, "severity").None? ==> r.0.severity == before.severity)
       && (StringAt(entries, "severity").Some? ==> Some(r.0.severity) == ParseSeverity(StringAt(entries, "severity").value))
       && (StringListAt(entries, "test_classes").None? ==> r.0.testClasses == before.testClasses)
       && (StringListAt(entries, "test_classes").Some? ==>
             r.0.testClasses == before.testClasses + StringListAt(entries, "test_classes").value))
  {
    if !configuration.Dictionary? then (before, Fail(UnknownConfiguration))
    else
      var entries := configuration.entries;
      if !SeverityAccepted(entries) then (before, Fail(UnknownConfiguration))
      else
        (Settings(SeverityAfter(before.severity, entries), TestClassesAfter(before.testClasses, entries)), Pass)
  }

  /** Whatever is applied to a new configuration, `XCTestCase` stays its first test base class. */
  lemma XCTestCaseIsKept(configuration: Value)
    ensures |Applied(Default, configuration).0.testClasses| >= 1
    ensures Applied(Default, configuration).0.testClasses[0] == "XCTestCase"
  {
    assert Default.testClasses <= Applied(Default, configuration).0.testClasses;
  }

  class XCTClassConfiguration {
    var severity: ViolationSeverity
    var testClasses: seq<string>

    function Current(): Settings
      reads this
    {
      Settings(severity, testClasses)
    }

    constructor ()
      ensures Current() == Default
    {
      severity := Warning;
      testClasses := ["XCTestCase"];
    }

    /** `apply(configuration:)`: checks the value is a dictionary, applies a
        `severity` string (throwing if it names no severity) and appends a
        `test_classes` string list. */
    method Apply(configuration: Value) returns (outcome: Outcome<ConfigurationError>)
      modifies this
      ensures (Current(), outcome) == Applied(old(Current()), configuration)
    {
      if !configuration.Dictionary? {
        return Fail(UnknownConfiguration);
      }
      var entries := configuration.entries;
      var severityString := StringAt(entries, "severity");
      if severityString.Some? {
        var parsed := ParseSeverity(severityString.value);
        if parsed.None? {
          return Fail(UnknownConfiguration);
        }
        severity := parsed.value;
      }
      var added := StringListAt(entries, "test_classes");
      if added.Some? {
        testClasses := testClasses + added.value;
      }
      return Pass;
    }
  }
}
