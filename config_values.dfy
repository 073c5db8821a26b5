/** The untyped configuration value a rule's `apply(configuration:)` receives
    (Swift's `Any`, as loaded from YAML), and the `as?` casts the configurations
    perform on it. */
module ConfigValues {
  import opened Wrappers
  import opened Violations

  /** A string, a list, a string-keyed dictionary, or any other scalar (number, boolean). */
  datatype Value =
    | Str(s: string)
    | List(items: seq<Value>)
    | Dictionary(entries: map<string, Value>)
    | Scalar

  /** `ConfigurationError`, of which these configurations only ever throw one case. */
  datatype ConfigurationError = UnknownConfiguration

  /** `configuration[key] as? String`. */
  function StringAt(entries: map<string, Value>, key: string): (r: Option<string>)
    ensures r.Some? <==> key in entries && entries[key].Str?
    ensures r.Some? ==> entries[key] == Str(r.value)
  {
    if key in entries && entries[key].Str? then Some(entries[key].s) else None
  }

  /** `configuration[key] as? [String]`: a list whose every item is a string. */
  function StringListAt(entries: map<string, Value>, key: string): (r: Option<seq<string>>)
    ensures r.Some? <==>
      (key in entries && entries[key].List? &&
       forall i :: 0 <= i < |entries[key].items| ==> entries[key].items[i].Str?)
    ensures r.Some? ==>
      (|r.value| == |entries[key].items| &&
       forall i :: 0 <= i < |r.value| ==> entries[key].items[i] == Str(r.value[i]))
  {
    if key in entries && entries[key].List? && forall i :: 0 <= i < |entries[key].items| ==> entries[key].items[i].Str?
    then
      var items := entries[key].items;
      Some(seq(|items|, i requires 0 <= i < |items| => items[i].s))
    else None
  }

  /** A value that `as? [String: String]` accepts: a dictionary of strings. */
  predicate IsStringDictionary(v: Value)
  {
    v.Dictionary? && forall k :: k in v.entries ==> v.entries[k].Str?
  }

  /** `as? [String: String]`. */
  function AsStringDictionary(v: Value): (r: Option<map<string, string>>)
    ensures r.Some? <==> IsStringDictionary(v)
    ensures r.Some? ==>
      (r.value.Keys == v.entries.Keys &&
       forall k :: k in r.value ==> v.entries[k] == Str(r.value[k]))
  {
    if IsStringDictionary(v) then Some(map k | k in v.entries :: v.entries[k].s) else None
  }

  /** `configuration[key] as? [[String: String]]`: a list whose every item is a
      dictionary of strings; the items are handed on as they are. */
  function StringDictionaryListAt(entries: map<string, Value>, key: string): (r: Option<seq<Value>>)
    ensures r.Some? <==>
      (key in entries && entries[key].List? &&
       forall i :: 0 <= i < |entries[key].items| ==> IsStringDictionary(entries[key].items[i]))
    ensures r.Some? ==> r.value == entries[key].items
  {
    if key in entries && entries[key].List? &&
       forall i :: 0 <= i < |entries[key].items| ==> IsStringDictionary(entries[key].items[i])
    then Some(entries[key].items)
    else None
  }

  /** Both configurations start `apply` the same way: a `severity` string, when
      present, must name a severity, or `apply` throws. */
  predicate SeverityAccepted(entries: map<string, Value>)
  {
    match StringAt(entries, "severity")
    case None => true
    case Some(name) => ParseSeverity(name).Some?
  }

  /** The severity after a successful `severity` step: the named one, or the old
      one when the key is missing or not a string. */
  function SeverityAfter(severity: ViolationSeverity, entries: map<string, Value>): ViolationSeverity
    requires SeverityAccepted(entries)
  {
    match StringAt(entries, "severity")
    case None => severity
    case Some(name) => ParseSeverity(name).value
  }

  /** The test base classes after the `test_classes` step: the given list is
      appended, duplicates and all; a missing or ill-typed key adds nothing. */
  function TestClassesAfter(testClasses: seq<string>, entries: map<string, Value>): seq<string>
  {
    match StringListAt(entries, "test_classes")
    case None => testClasses
    case Some(added) => testClasses + added
  }
}
