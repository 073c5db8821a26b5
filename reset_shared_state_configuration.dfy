/** `XCTResetSharedStateConfiguration`: severity, test base classes and the
    set-up/tear-down pattern pairs of the reset-shared-state rule
    (Source/SwiftLintFramework/Rules/RuleConfigurations/XCTResetSharedStateConfiguration.swift). */
module ResetSharedStateConfiguration {
  import opened Wrappers
  import opened Violations
  import opened ConfigValues

  /** A pair of regular expressions: a shared-state set-up call and the
      tear-down call that must accompany it. */
  datatype Pattern = Pattern(setUp: string, tearDown: string)

  /** `Pattern.init(configuration:)`: accepts a dictionary of strings holding
      both `set_up` and `tear_down`, and copies those two entries. */
  function PatternFromConfiguration(configuration: Value): (r: Result<Pattern, ConfigurationError>)
    ensures r.Success? <==>
      (IsStringDictionary(configuration) &&
       "set_up" in configuration.entries && "tear_down" in configuration.entries)
    ensures r.Success? ==>
      (configuration.entries["set_up"] == Str(r.value.setUp) &&
       configuration.entries["tear_down"] == Str(r.value.tearDown))
  {
    match AsStringDictionary(configuration)
    case None => Failure(UnknownConfiguration)
    case Some(pattern) =>
      if "set_up" in pattern && "tear_down" in pattern
      then Success(Pattern(pattern["set_up"], pattern["tear_down"]))
      else Failure(UnknownConfiguration)
  }

  /** `try patterns.map(Pattern.init(configuration:))`: every entry converted,
      in order, or the error of the first entry that fails. */
  function PatternsFromConfiguration(entries: seq<Value>): (r: Result<seq<Pattern>, ConfigurationError>)
    ensures r.Success? <==> forall i :: 0 <= i < |entries| ==> PatternFromConfiguration(entries[i]).Success?
    ensures r.Success? ==>
      (|r.value| == |entries| &&
       forall i :: 0 <= i < |entries| ==> PatternFromConfiguration(entries[i]) == Success(r.value[i]))
  {
    if entries == [] then Success([])
    else
      match PatternFromConfiguration(entries[0])
      case Failure(e) => Failure(e)
      case Success(first) =>
        match PatternsFromConfiguration(entries[1..])
        case Failure(e) =>
          var j :| 0 <= j < |entries[1..]| && !PatternFromConfiguration(entries[1..][j]).Success?;
          assert entries[1..][j] == entries[j + 1];
          Failure(e)
        case Success(rest) =>
          var r := [first] + rest;
          assert forall i :: 1 <= i < |entries| ==> entries[i] == entries[1..][i - 1];
          Success(r)
  }

  /** The values a configuration holds. */
  datatype Settings = Settings(severity: ViolationSeverity, testClasses: seq<string>, patterns: seq<Pattern>)

  /** The one pattern pair a new configuration holds. */
  const DefaultPattern := Pattern("MySharedStateComponent\\s*\\.\\s*setUp", "MySharedStateComponent\\s*\\.\\s*tearDown")

  /** A new configuration reports warnings, knows `XCTestCase` as its only test
      base class and holds the single default pattern pair. */
  const Default := Settings(Warning, ["XCTestCase"], [DefaultPattern])

  /** The `patterns` entry `apply` requires: a list of dictionaries of strings. */
  function PatternsEntry(entries: map<string, Value>): Option<seq<Value>>
  {
    StringDictionaryListAt(entries, "patterns")
  }

  /** The settings and the outcome `apply(configuration:)` leaves behind, given
      the settings before it and the configuration value. The severity and the
      test classes are updated before the patterns are checked, so a bad
      `patterns` entry throws with those two updates already made. */
  function Applied(before: Settings, configuration: Value): (r: (Settings, Outcome<ConfigurationError>))
    ensures !configuration.Dictionary? ==> r == (before, Fail(UnknownConfiguration))
    ensures configuration.Dictionary? && !SeverityAccepted(configuration.entries) ==>
      r == (before, Fail(UnknownConfiguration))
    ensures r.1.Pass? <==>
      (configuration.Dictionary? && SeverityAccepted(configuration.entries) &&
       PatternsEntry(configuration.entries).Some? &&
       forall i :: 0 <= i < |PatternsEntry(configuration.entries).value| ==>
         PatternFromConfiguration(PatternsEntry(configuration.entries).value[i]).Success?)
    ensures before.testClasses <= r.0.testClasses
    ensures configuration.Dictionary? && SeverityAccepted(configuration.entries) ==>
      (var entries := configuration.entries;
       && (StringAt(entries, "severity").None? ==> r.0.severity == before.severity)
       && (StringAt(entries, "severity").Some? ==> Some(r.0.severity) == ParseSeverity(StringAt(entries, "severity").value))
       && (StringListAt(entries, "test_classes").None? ==> r.0.testClasses == before.testClasses)
       && (StringListAt(entries, "test_classes").Some? ==>
             r.0.testClasses == before.testClasses + StringListAt(entries, "test_classes").value))
    ensures r.1.Fail? ==> r.0.patterns == before.patterns
    ensures r.1.Pass? ==>
      (var given := PatternsEntry(configuration.entries).value;
       |r.0.patterns| == |given| &&
       forall i :: 0 <= i < |given| ==> PatternFromConfiguration(given[i]) == Success(r.0.patterns[i]))
  {
    if !configuration.Dictionary? then (before, Fail(UnknownConfiguration))
    else
      var entries := configuration.entries;
      if !SeverityAccepted(entries) then (before, Fail(UnknownConfiguration))
      else
        var updated := before.(severity := SeverityAfter(before.severity, entries),
                               testClasses := TestClassesAfter(before.testClasses, entries));
        match PatternsEntry(entries)
        case None => (updated, Fail(UnknownConfiguration))
        case Some(given) =>
          match PatternsFromConfiguration(given)
          case Failure(e) => (updated, Fail(e))
          case Success(patterns) => (updated.(patterns := patterns), Pass)
  }

  /** A successful `apply` drops the default pattern pair: the patterns are
      exactly the ones given, even when none are given. */
  lemma {:induction false} AppliedReplacesPatterns(before: Settings, configuration: Value)
    requires Applied(before, configuration).1.Pass?
    requires PatternsEntry(configuration.entries) == Some([])
    ensures Applied(before, configuration).0.patterns == []
  {
  }

  class XCTResetSharedStateConfiguration {
    var severity: ViolationSeverity
    var testClasses: seq<string>
    var patterns: seq<Pattern>

    function Current(): Settings
      reads this
    {
      Settings(severity, testClasses, patterns)
    }

    constructor ()
      ensures Current() == Default
    {
      severity := Warning;
      testClasses := ["XCTestCase"];
      patterns := [DefaultPattern];
    }

    /** `apply(configuration:)`: checks the value is a dictionary, applies a
        `severity` string, appends a `test_classes` string list, then requires a
        `patterns` list and replaces the patterns with its converted entries. */
    method Apply(configuration: Value) returns (outcome: Outcome<ConfigurationError>)
      modifies this
      ensures (Current(), outcome) == Applied(old(Current()), configuration)
    {
      if !configuration.Dictionary? {
        return Fail(UnknownConfiguration);
      }
      var entries := configuration.entries;
      var severityString := StringAt(entries, "severity");
      if severityString.Some? {
        var parsed := ParseSeverity(severityString.value);
        if parsed.None? {
          return Fail(UnknownConfiguration);
        }
        severity := parsed.value;
      }
      var added := StringListAt(entries, "test_classes");
      if added.Some? {
        testClasses := testClasses + added.value;
      }
      var given := StringDictionaryListAt(entries, "patterns");
      if given.None? {
        return Fail(UnknownConfiguration);
      }
      var converted := PatternsFromConfiguration(given.value);
      if converted.Failure? {
        return Fail(converted.error);
      }
      patterns := converted.value;
      return Pass;
    }
  }
}
