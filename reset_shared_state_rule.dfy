/** `XCTResetSharedStateRule`: a test class that calls a shared-state set-up API
    anywhere in its body must call the paired tear-down API in `tearDown()`
    (Source/SwiftLintFramework/Rules/Idiomatic/XCTResetSharedStateRule.swift). */
module XCTResetSharedStateRule {
  import opened Wrappers
  import opened Seqs
  import opened SourceKittenDictionary
  import opened SwiftLintFile
  import opened Violations
  import opened ResetSharedStateConfiguration

  const Identifier := "xct_reset_shared_state"

  /** What one pattern pair contributes for a class: its set-up matches in the
      class body, unless there are none, or the class has an instance
      `tearDown()` in whose body the tear-down pattern matches. */
  function UnresetSetUps(pattern: Pattern, classRange: Range, tearDown: Option<Node>, search: Matcher): (r: seq<int>)
    ensures r == [] || r == search(pattern.setUp, Some(classRange))
    ensures r != [] <==>
      (search(pattern.setUp, Some(classRange)) != [] &&
       (tearDown.None? || search(pattern.tearDown, BodyRange(tearDown.value)) == []))
  {
    var setUpMatches := search(pattern.setUp, Some(classRange));
    if setUpMatches == [] then []
    else
      match tearDown
      case None => setUpMatches
      case Some(tearDownMethod) =>
        var tearDownMatches := search(pattern.tearDown, BodyRange(tearDownMethod));
        if tearDownMatches != [] then [] else setUpMatches
  }

  function UnresetSetUpsWith(classRange: Range, tearDown: Option<Node>, search: Matcher): Pattern -> seq<int>
  {
    (p: Pattern) => UnresetSetUps(p, classRange, tearDown, search)
  }

  /** The offsets a test class is reported at: nothing when it has no body range,
      otherwise what each pattern pair contributes, pattern by pattern. Only an
      instance `tearDown()` counts; a class-level one is not looked at. */
  function ViolatedOffsets(testCase: Node, patterns: seq<Pattern>, search: Matcher): (r: seq<int>)
    ensures BodyRange(testCase).None? ==> r == []
    ensures r == [] <==>
      (BodyRange(testCase).None? ||
       forall i :: 0 <= i < |patterns| ==>
         UnresetSetUps(patterns[i], BodyRange(testCase).value, Method(testCase, "tearDown()"), search) == [])
  {
    match BodyRange(testCase)
    case None => []
    case Some(classRange) => FlatMap(patterns, UnresetSetUpsWith(classRange, Method(testCase, "tearDown()"), search))
  }

  /** What a test class with a body range reports for a single pattern pair: what
      that pair contributes. With `PatternsAreIndependent` this determines
      `ViolatedOffsets` for every list of patterns. */
  lemma ViolatedOffsetsOne(testCase: Node, pattern: Pattern, search: Matcher)
    requires BodyRange(testCase).Some?
    ensures ViolatedOffsets(testCase, [pattern], search) ==
      UnresetSetUps(pattern, BodyRange(testCase).value, Method(testCase, "tearDown()"), search)
  {
    var f := UnresetSetUpsWith(BodyRange(testCase).value, Method(testCase, "tearDown()"), search);
    assert FlatMap([pattern], f) == f(pattern) + FlatMap([], f);
  }

  /** One violation per offset, with the configured severity. */
  function ClassViolations(testCase: Node, configuration: Settings, search: Matcher): (r: seq<StyleViolation>)
    ensures |r| == |ViolatedOffsets(testCase, configuration.patterns, search)|
    ensures forall i :: 0 <= i < |r| ==>
      r[i] == StyleViolation(Identifier, configuration.severity, ViolatedOffsets(testCase, configuration.patterns, search)[i])
  {
    var offsets := ViolatedOffsets(testCase, configuration.patterns, search);
    seq(|offsets|, i requires 0 <= i < |offsets| => StyleViolation(Identifier, configuration.severity, offsets[i]))
  }

  function ClassViolationsWith(configuration: Settings, search: Matcher): Node -> seq<StyleViolation>
  {
    (c: Node) => ClassViolations(c, configuration, search)
  }

  /** `validate(file:)`: the violations of every top-level test class, class by
      class. A violation is reported exactly when some test class yields it. */
  function Validate(file: Node, configuration: Settings, search: Matcher): (r: seq<StyleViolation>)
    ensures forall v :: v in r ==> v.ruleIdentifier == Identifier && v.severity == configuration.severity
    ensures forall v :: v in r <==>
      exists c :: c in file.substructure && IsSubclassOf(c, configuration.testClasses) &&
        v in ClassViolations(c, configuration, search)
  {
    var classes := Classes(file, configuration.testClasses);
    var r := FlatMap(classes, ClassViolationsWith(configuration, search));
    assert forall v :: v in r <==> exists c :: c in classes && v in ClassViolations(c, configuration, search) by {
      forall v | v in r ensures exists c :: c in classes && v in ClassViolations(c, configuration, search) {
        var i :| 0 <= i < |classes| && v in ClassViolationsWith(configuration, search)(classes[i]);
        assert classes[i] in classes;
      }
      forall v, c | c in classes && v in ClassViolations(c, configuration, search) ensures v in r {
        var i :| 0 <= i < |classes| && classes[i] == c;
      }
    }
    r
  }

  /** What one top-level declaration yields: the violations of its class when it
      is a test class, nothing otherwise; a file without declarations yields nothing.
      With `ValidateAppend` this determines `Validate` on every file. */
  lemma ValidateOne(file: Node, c: Node, configuration: Settings, search: Matcher)
    ensures Validate(WithDeclarations(file, []), configuration, search) == []
    ensures Validate(WithDeclarations(file, [c]), configuration, search) ==
      if IsSubclassOf(c, configuration.testClasses) then ClassViolations(c, configuration, search) else []
  {
    var f := ClassViolationsWith(configuration, search);
    assert FlatMap([c], f) == f(c) + FlatMap([], f);
  }

  /** Pattern pairs are judged independently: configuring `a` then `b` reports
      what `a` alone reports followed by what `b` alone reports. */
  lemma {:induction false} PatternsAreIndependent(testCase: Node, a: seq<Pattern>, b: seq<Pattern>, search: Matcher)
    ensures ViolatedOffsets(testCase, a + b, search) == ViolatedOffsets(testCase, a, search) + ViolatedOffsets(testCase, b, search)
  {
    if BodyRange(testCase).Some? {
      FlatMapAppend(a, b, UnresetSetUpsWith(BodyRange(testCase).value, Method(testCase, "tearDown()"), search));
    }
  }

  function SetUpMatchesWith(classRange: Range, search: Matcher): Pattern -> seq<int>
  {
    (p: Pattern) => search(p.setUp, Some(classRange))
  }

  /** Without an instance `tearDown()`, every set-up match of every pattern pair
      is reported, pattern by pattern, wherever in the class body it occurs. */
  lemma NoTearDownReportsEverySetUp(testCase: Node, patterns: seq<Pattern>, search: Matcher)
    requires BodyRange(testCase).Some?
    requires Method(testCase, "tearDown()").None?
    ensures ViolatedOffsets(testCase, patterns, search) == FlatMap(patterns, SetUpMatchesWith(BodyRange(testCase).value, search))
  {
    var classRange := BodyRange(testCase).value;
    FlatMapAgree(patterns, UnresetSetUpsWith(classRange, None, search), SetUpMatchesWith(classRange, search));
  }

  /** A `tearDown()` in which every tear-down pattern matches silences the class. */
  lemma TearDownResettingEverythingIsClean(testCase: Node, patterns: seq<Pattern>, search: Matcher)
    requires Method(testCase, "tearDown()").Some?
    requires forall i :: 0 <= i < |patterns| ==>
      search(patterns[i].tearDown, BodyRange(Method(testCase, "tearDown()").value)) != []
    ensures ViolatedOffsets(testCase, patterns, search) == []
  {
  }

  /** Violations follow document order: the violations of a file whose top-level
      declarations are `a` followed by `b` are those of `a` followed by those of `b`. */
  lemma {:induction false} ValidateAppend(file: Node, a: seq<Node>, b: seq<Node>, configuration: Settings, search: Matcher)
    ensures Validate(WithDeclarations(file, a + b), configuration, search) ==
      Validate(WithDeclarations(file, a), configuration, search) + Validate(WithDeclarations(file, b), configuration, search)
  {
    var p := (c: Node) => IsSubclassOf(c, configuration.testClasses);
    FilterAppend(a, b, p);
    FlatMapAppend(Filter(a, p), Filter(b, p), ClassViolationsWith(configuration, search));
  }

  /** The third triggering example: a test class whose body spans `offset` and
      `length` and whose only method is a test method calling the shared set-up. */
  function SetUpInTestMethod(offset: int, length: int): Node
  {
    var testMethod := Node(Some(FunctionMethodInstance), None, Some("testComponent()"), Some(offset + 10),
                           Some(offset + 30), Some(length - 40), [], []);
    Node(Some(Class), None, Some("TestCase"), Some(6), Some(offset), Some(length), ["XCTestCase"], [testMethod])
  }

  /** A search that finds the default set-up pattern once, at `at`, in the class
      body, and nothing anywhere else. */
  function FindsSetUpOnce(offset: int, length: int, at: int): Matcher
  {
    (pattern: string, range: Option<Range>) =>
      if pattern == DefaultPattern.setUp && range == Some(Range(offset, length)) then [at] else []
  }

  lemma SetUpInTestMethodOffsets(offset: int, length: int, at: int)
    ensures ViolatedOffsets(SetUpInTestMethod(offset, length), Default.patterns, FindsSetUpOnce(offset, length, at)) == [at]
  {
    var testCase := SetUpInTestMethod(offset, length);
    var testMethod := testCase.substructure[0];
    assert !IsNamedDeclaration(testMethod, FunctionMethodInstance, "tearDown()") by {
      assert "testComponent()"[2] == 's' != 'a' == "tearDown()"[2];
    }
    assert Method(testCase, "tearDown()") == None;
    var f := UnresetSetUpsWith(Range(offset, length), None, FindsSetUpOnce(offset, length, at));
    assert FlatMap([DefaultPattern], f) == f(DefaultPattern) + FlatMap([], f);
  }

  /** A shared set-up call in an ordinary test method of a class without
      `tearDown()` is one violation, at the call. */
  lemma SetUpInTestMethodExample(offset: int, length: int, at: int)
    ensures
      var file := Node(None, None, None, None, Some(0), Some(offset + length), [], [SetUpInTestMethod(offset, length)]);
      Validate(file, Default, FindsSetUpOnce(offset, length, at)) == [StyleViolation(Identifier, Warning, at)]
  {
    var testCase := SetUpInTestMethod(offset, length);
    var file := Node(None, None, None, None, Some(0), Some(offset + length), [], [testCase]);
    assert testCase.inheritedTypes[0] in ["XCTestCase"];
    FilterAll(file.substructure, (n: Node) => IsSubclassOf(n, ["XCTestCase"]));
    SetUpInTestMethodOffsets(offset, length, at);
    var f := ClassViolationsWith(Default, FindsSetUpOnce(offset, length, at));
    assert FlatMap([testCase], f) == f(testCase) + FlatMap([], f);
  }
}
