/** `XCTNullifyStoredPropertiesRule`: every stored property of a test class must
    be set to `nil` in its `tearDown()`
    (Source/SwiftLintFramework/Rules/Idiomatic/XCTNullifyStoredPropertiesRule.swift). */
module XCTNullifyStoredPropertiesRule {
  import opened Wrappers
  import opened Seqs
  import opened SourceKittenDictionary
  import opened SwiftLintFile
  import opened Violations
  import ClassConfiguration

  const Identifier := "xct_nullify_stored_properties"

  /** The expression searched for in `tearDown()`: whitespace, the property name
      (inserted as it is, without escaping), `=` and `nil`. */
  function NilAssignmentPattern(name: string): (pattern: string)
    ensures |pattern| == |name| + 13 && pattern[3..3 + |name|] == name
  {
    "\\s+" + name + "\\s*=\\s*nil"
  }

  /** With a `tearDown()` whose body lies in `tearDownRange`: the property is
      reported when it has a name and no assignment of `nil` to it is found there.
      A property without a name is never reported. */
  predicate NotNilledIn(property: Node, tearDownRange: Option<Range>, search: Matcher)
  {
    match property.name
    case None => false
    case Some(name) => search(NilAssignmentPattern(name), tearDownRange) == []
  }

  function NotNilledWith(tearDownRange: Option<Range>, search: Matcher): Node -> bool
  {
    (p: Node) => NotNilledIn(p, tearDownRange, search)
  }

  /** The stored properties of a test class that break the rule, in declaration
      order: all of them when the class has no instance `tearDown()`; otherwise
      the named ones that `tearDown()` does not set to `nil`. A `tearDown()`
      without a body range is still a `tearDown()`: the search is then given no range. */
  function PropertiesViolated(testCase: Node, search: Matcher): (r: seq<Node>)
    ensures Method(testCase, "tearDown()").None? ==> r == AllStoredProperties(testCase)
    ensures forall p :: p in r <==>
      (p in testCase.substructure && IsStoredProperty(p) &&
       match Method(testCase, "tearDown()")
       case None => true
       case Some(tearDown) =>
         p.name.Some? && search(NilAssignmentPattern(p.name.value), BodyRange(tearDown)) == [])
  {
    var properties := AllStoredProperties(testCase);
    match Method(testCase, "tearDown()")
    case None => properties
    case Some(tearDown) => Filter(properties, NotNilledWith(BodyRange(tearDown), search))
  }

  /** `violations(in:forProperties:)`: one violation per property, at its name. */
  function PropertyViolations(properties: seq<Node>, severity: ViolationSeverity): (r: seq<StyleViolation>)
    ensures |r| == |properties|
    ensures forall i :: 0 <= i < |r| ==> r[i] == StyleViolation(Identifier, severity, NameOffsetOrZero(properties[i]))
  {
    seq(|properties|, i requires 0 <= i < |properties| =>
      StyleViolation(Identifier, severity, NameOffsetOrZero(properties[i])))
  }

  /** The violations of one test class. */
  function ClassViolations(testCase: Node, severity: ViolationSeverity, search: Matcher): seq<StyleViolation>
  {
    PropertyViolations(PropertiesViolated(testCase, search), severity)
  }

  function ClassViolationsWith(severity: ViolationSeverity, search: Matcher): Node -> seq<StyleViolation>
  {
    (c: Node) => ClassViolations(c, severity, search)
  }

  /** `validate(file:)`: the violations of every top-level test class, class by
      class. A violation is reported exactly when some test class yields it. */
  function Validate(file: Node, configuration: ClassConfiguration.Settings, search: Matcher): (r: seq<StyleViolation>)
    ensures forall v :: v in r ==> v.ruleIdentifier == Identifier && v.severity == configuration.severity
    ensures forall v :: v in r <==>
      exists c :: c in file.substructure && IsSubclassOf(c, configuration.testClasses) &&
        v in ClassViolations(c, configuration.severity, search)
  {
    var classes := Classes(file, configuration.testClasses);
    var r := FlatMap(classes, ClassViolationsWith(configuration.severity, search));
    assert forall v :: v in r <==> exists c :: c in classes && v in ClassViolations(c, configuration.severity, search) by {
      forall v | v in r ensures exists c :: c in classes && v in ClassViolations(c, configuration.severity, search) {
        var i :| 0 <= i < |classes| && v in ClassViolationsWith(configuration.severity, search)(classes[i]);
        assert classes[i] in classes;
      }
      forall v, c | c in classes && v in ClassViolations(c, configuration.severity, search) ensures v in r {
        var i :| 0 <= i < |classes| && classes[i] == c;
      }
    }
    r
  }

  /** What one top-level declaration yields: the violations of its class when it
      is a test class, nothing otherwise; a file without declarations yields nothing.
      With `ValidateAppend` this determines `Validate` on every file. */
  lemma ValidateOne(file: Node, c: Node, configuration: ClassConfiguration.Settings, search: Matcher)
    ensures Validate(WithDeclarations(file, []), configuration, search) == []
    ensures Validate(WithDeclarations(file, [c]), configuration, search) ==
      if IsSubclassOf(c, configuration.testClasses) then ClassViolations(c, configuration.severity, search) else []
  {
    var f := ClassViolationsWith(configuration.severity, search);
    assert FlatMap([c], f) == f(c) + FlatMap([], f);
  }

  /** Without a `tearDown()`, the matcher is never consulted: two searches give the same violations. */
  lemma {:induction false} NoTearDownIgnoresSearch(testCase: Node, severity: ViolationSeverity, s1: Matcher, s2: Matcher)
    requires Method(testCase, "tearDown()").None?
    ensures ClassViolations(testCase, severity, s1) == ClassViolations(testCase, severity, s2)
    ensures |ClassViolations(testCase, severity, s1)| == |AllStoredProperties(testCase)|
  {
  }

  /** A property that `tearDown()` sets to `nil` is not reported. */
  lemma NilledPropertyIsClean(testCase: Node, property: Node, search: Matcher)
    requires Method(testCase, "tearDown()").Some?
    requires property.name.Some?
    requires search(NilAssignmentPattern(property.name.value), BodyRange(Method(testCase, "tearDown()").value)) != []
    ensures property !in PropertiesViolated(testCase, search)
  {
  }

  /** A computed property is never reported, whatever `tearDown()` contains. */
  lemma ComputedPropertyIsClean(testCase: Node, property: Node, search: Matcher)
    requires property.bodyLength.Some?
    ensures property !in PropertiesViolated(testCase, search)
  {
  }

  /** With a `tearDown()`, an unnamed stored property is never reported. */
  lemma UnnamedPropertyIsClean(testCase: Node, property: Node, search: Matcher)
    requires Method(testCase, "tearDown()").Some?
    requires property.name.None?
    ensures property !in PropertiesViolated(testCase, search)
  {
  }

  /** Violations follow document order: the violations of a file whose top-level
      declarations are `a` followed by `b` are those of `a` followed by those of `b`. */
  lemma {:induction false} ValidateAppend(file: Node, a: seq<Node>, b: seq<Node>,
                                          configuration: ClassConfiguration.Settings, search: Matcher)
    ensures Validate(WithDeclarations(file, a + b), configuration, search) ==
      Validate(WithDeclarations(file, a), configuration, search) + Validate(WithDeclarations(file, b), configuration, search)
  {
    var p := (c: Node) => IsSubclassOf(c, configuration.testClasses);
    FilterAppend(a, b, p);
    FlatMapAppend(Filter(a, p), Filter(b, p), ClassViolationsWith(configuration.severity, search));
  }

  function StoredProperty(name: string, offset: int): Node
  {
    Node(Some(VarInstance), None, Some(name), Some(offset), None, None, [], [])
  }

  /** The third triggering example: `var api`, `var data`, `let config` and a
      `tearDown()` that sets only `data` to `nil`, named at offsets `a` to `d`. */
  function PartlyNilledTestCase(a: int, b: int, c: int, d: int): Node
  {
    var tearDown := Node(Some(FunctionMethodInstance), None, Some("tearDown()"), Some(d), Some(d + 12), Some(40), [], []);
    Node(Some(Class), None, Some("TestCase"), Some(6), Some(25), Some(200), ["XCTestCase"],
         [StoredProperty("api", a), StoredProperty("data", b), StoredProperty("config", c), tearDown])
  }

  /** A search that finds `data = nil` and nothing else. */
  function FindsOnlyDataNilled(at: int): Matcher
  {
    (pattern: string, range: Option<Range>) => if pattern == NilAssignmentPattern("data") then [at] else []
  }

  lemma PartlyNilledStructure(a: int, b: int, c: int, d: int)
    ensures var testCase := PartlyNilledTestCase(a, b, c, d);
      && Method(testCase, "tearDown()") == Some(testCase.substructure[3])
      && AllStoredProperties(testCase) == testCase.substructure[..3]
  {
    var testCase := PartlyNilledTestCase(a, b, c, d);
    var api, data, config, tearDown := testCase.substructure[0], testCase.substructure[1],
                                       testCase.substructure[2], testCase.substructure[3];
    FirstIsEarliest(testCase.substructure, (m: Node) => IsNamedDeclaration(m, FunctionMethodInstance, "tearDown()"), 3);
    assert testCase.substructure == [api, data, config] + [tearDown];
    FilterAppend([api, data, config], [tearDown], IsStoredProperty);
    FilterAll([api, data, config], IsStoredProperty);
    FilterNone([tearDown], IsStoredProperty);
  }

  lemma PartlyNilledProperties(a: int, b: int, c: int, d: int, at: int)
    ensures PropertiesViolated(PartlyNilledTestCase(a, b, c, d), FindsOnlyDataNilled(at)) ==
      [StoredProperty("api", a), StoredProperty("config", c)]
  {
    var testCase := PartlyNilledTestCase(a, b, c, d);
    PartlyNilledStructure(a, b, c, d);
    var api, data, config := StoredProperty("api", a), StoredProperty("data", b), StoredProperty("config", c);
    var p := NotNilledWith(BodyRange(testCase.substructure[3]), FindsOnlyDataNilled(at));
    assert p(api) && !p(data) && p(config) by {
      assert NilAssignmentPattern("api")[3] == 'a' != 'd' == NilAssignmentPattern("data")[3];
      assert NilAssignmentPattern("config")[3] == 'c' != 'd';
    }
    assert testCase.substructure[..3] == [api, data, config];
    assert Filter([api, data, config], p) == [api] + Filter([data, config], p);
  }

  /** So `api` and `config` are reported, at their names, and `data` is not. */
  lemma PartlyNilledExample(a: int, b: int, c: int, d: int, at: int)
    ensures
      var file := Node(None, None, None, None, Some(0), Some(250), [], [PartlyNilledTestCase(a, b, c, d)]);
      Validate(file, ClassConfiguration.Default, FindsOnlyDataNilled(at)) ==
        [StyleViolation(Identifier, Warning, a), StyleViolation(Identifier, Warning, c)]
  {
    var testCase := PartlyNilledTestCase(a, b, c, d);
    var file := Node(None, None, None, None, Some(0), Some(250), [], [testCase]);
    assert testCase.inheritedTypes[0] in ["XCTestCase"];
    FilterAll(file.substructure, (n: Node) => IsSubclassOf(n, ["XCTestCase"]));
    PartlyNilledProperties(a, b, c, d, at);
    var f := ClassViolationsWith(Warning, FindsOnlyDataNilled(at));
    assert FlatMap([testCase], f) == f(testCase) + FlatMap([], f);
  }
}
