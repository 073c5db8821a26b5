/** `XCTMissingSuperSetUpTearDownRule`: a test class's `setUp()` and `tearDown()`
    overrides, instance or class level, must call their super implementation
    (Source/SwiftLintFramework/Rules/Idiomatic/XCTMissingSuperSetUpTearDownRule.swift). */
module XCTMissingSuperSetUpTearDownRule {
  import opened Wrappers
  import opened Seqs
  import opened SourceKittenDictionary
  import opened Violations
  import ClassConfiguration

  const Identifier := "xct_missing_super_setup_teardown"

  const LifecycleNames := ["setUp()", "tearDown()"]
  const LifecycleKinds := [FunctionMethodInstance, FunctionMethodClass]

  /** A method the rule looks at: named `setUp()` or `tearDown()`, declared as an
      instance or a class method. */
  predicate IsLifecycleMethod(m: Node)
  {
    && m.name.Some? && m.name.value in LifecycleNames
    && m.declarationKind.Some? && m.declarationKind.value in LifecycleKinds
  }

  /** The delegation each lifecycle method owes: `super.setUp` or `super.tearDown`. */
  function ExpectedSuperCall(name: string): string
  {
    if name == "setUp()" then "super.setUp" else "super.tearDown"
  }

  /** `$0.superCallName.flatMap($0.call) != nil`. */
  predicate CallsSuper(m: Node)
  {
    match SuperCallName(m.name)
    case None => false
    case Some(callee) => CallTo(m, callee).Some?
  }

  /** The methods of a test class that break the rule, in document order: the
      lifecycle methods with no direct child calling the super implementation. */
  function MethodsMissingSuper(testCase: Node): (r: seq<Node>)
    ensures forall m :: m in r <==>
      (m in testCase.substructure && IsLifecycleMethod(m) &&
       forall i :: 0 <= i < |m.substructure| ==> !IsCallTo(m.substructure[i], ExpectedSuperCall(m.name.value)))
  {
    SuperCallNameOfSetUp();
    SuperCallNameOfTearDown();
    Filter(Methods(testCase, LifecycleNames, LifecycleKinds), (m: Node) => !CallsSuper(m))
  }

  /** One violation per method missing its super call, at the method's name. */
  function ClassViolations(testCase: Node, severity: ViolationSeverity): (r: seq<StyleViolation>)
    ensures |r| == |MethodsMissingSuper(testCase)|
    ensures forall i :: 0 <= i < |r| ==>
      r[i] == StyleViolation(Identifier, severity, NameOffsetOrZero(MethodsMissingSuper(testCase)[i]))
  {
    var methods := MethodsMissingSuper(testCase);
    seq(|methods|, i requires 0 <= i < |methods| =>
      StyleViolation(Identifier, severity, NameOffsetOrZero(methods[i])))
  }

  /** The per-class step of `validate`, as a function value. */
  function ClassViolationsWith(severity: ViolationSeverity): Node -> seq<StyleViolation>
  {
    (c: Node) => ClassViolations(c, severity)
  }

  /** `validate(file:)`: the violations of every top-level test class, class by
      class. A violation is reported exactly when some test class yields it. */
  function Validate(file: Node, configuration: ClassConfiguration.Settings): (r: seq<StyleViolation>)
    ensures forall v :: v in r ==> v.ruleIdentifier == Identifier && v.severity == configuration.severity
    ensures forall v :: v in r <==>
      exists c :: c in file.substructure && IsSubclassOf(c, configuration.testClasses) &&
        v in ClassViolations(c, configuration.severity)
  {
    var classes := Classes(file, configuration.testClasses);
    var r := FlatMap(classes, ClassViolationsWith(configuration.severity));
    assert forall v :: v in r <==> exists c :: c in classes && v in ClassViolations(c, configuration.severity) by {
      forall v | v in r ensures exists c :: c in classes && v in ClassViolations(c, configuration.severity) {
        var i :| 0 <= i < |classes| && v in ClassViolationsWith(configuration.severity)(classes[i]);
        assert classes[i] in classes;
      }
      forall v, c | c in classes && v in ClassViolations(c, configuration.severity) ensures v in r {
        var i :| 0 <= i < |classes| && classes[i] == c;
      }
    }
    r
  }

  /** What one top-level declaration yields: the violations of its class when it
      is a test class, nothing otherwise; a file without declarations yields nothing.
      With `ValidateAppend` this determines `Validate` on every file. */
  lemma ValidateOne(file: Node, c: Node, configuration: ClassConfiguration.Settings)
    ensures Validate(WithDeclarations(file, []), configuration) == []
    ensures Validate(WithDeclarations(file, [c]), configuration) ==
      if IsSubclassOf(c, configuration.testClasses) then ClassViolations(c, configuration.severity) else []
  {
    var f := ClassViolationsWith(configuration.severity);
    assert FlatMap([c], f) == f(c) + FlatMap([], f);
  }

  /** A file whose top-level declarations include no test class has no violations,
      whatever its structs or other classes declare. */
  lemma NoTestClassNoViolations(file: Node, configuration: ClassConfiguration.Settings)
    requires forall i :: 0 <= i < |file.substructure| ==> !IsSubclassOf(file.substructure[i], configuration.testClasses)
    ensures Validate(file, configuration) == []
  {
    FilterNone(file.substructure, (c: Node) => IsSubclassOf(c, configuration.testClasses));
  }

  /** A test class whose lifecycle methods all call their super implementation
      directly, or which has none, has no violations. */
  lemma DelegatingClassIsClean(testCase: Node, severity: ViolationSeverity)
    requires forall i :: 0 <= i < |testCase.substructure| && IsLifecycleMethod(testCase.substructure[i]) ==>
      CallTo(testCase.substructure[i], ExpectedSuperCall(testCase.substructure[i].name.value)).Some?
    ensures ClassViolations(testCase, severity) == []
  {
    var candidates := Methods(testCase, LifecycleNames, LifecycleKinds);
    forall i | 0 <= i < |candidates| ensures CallsSuper(candidates[i]) {
      var m := candidates[i];
      assert m in candidates;
      var k :| 0 <= k < |testCase.substructure| && testCase.substructure[k] == m;
      SuperCallNameOfSetUp();
      SuperCallNameOfTearDown();
    }
    FilterNone(candidates, (m: Node) => !CallsSuper(m));
  }

  /** Violations follow document order: the violations of a file whose top-level
      declarations are `a` followed by `b` are those of `a` followed by those of `b`. */
  lemma {:induction false} ValidateAppend(file: Node, a: seq<Node>, b: seq<Node>, configuration: ClassConfiguration.Settings)
    ensures Validate(WithDeclarations(file, a + b), configuration) ==
      Validate(WithDeclarations(file, a), configuration) + Validate(WithDeclarations(file, b), configuration)
  {
    var p := (c: Node) => IsSubclassOf(c, configuration.testClasses);
    FilterAppend(a, b, p);
    FlatMapAppend(Filter(a, p), Filter(b, p), ClassViolationsWith(configuration.severity));
  }

  /** A call to `print`, the only statement of the hooks in the examples below. */
  const PrintCall := Node(None, Some(ExpressionKind.Call), Some("print"), Some(0), None, None, [], [])

  function Hook(kind: DeclarationKind, name: string, offset: int): Node
  {
    Node(Some(kind), None, Some(name), Some(offset), Some(offset + 10), Some(20), [], [PrintCall])
  }

  lemma PrintingHookMissesSuper(kind: DeclarationKind, name: string, offset: int)
    requires kind in LifecycleKinds && name in LifecycleNames
    ensures IsMethodAmong(Hook(kind, name, offset), LifecycleNames, LifecycleKinds)
    ensures !CallsSuper(Hook(kind, name, offset))
  {
    SuperCallNameOfSetUp();
    SuperCallNameOfTearDown();
    var callee := SuperCallName(Some(name)).value;
    assert callee != "print" by {
      assert callee[0] == 's' != 'p';
    }
  }

  /** The class of the rule's triggering example: instance and class
      `setUp`/`tearDown` overrides that only print, named at offsets `a` to `d`. */
  function UndelegatingHooks(a: int, b: int, c: int, d: int): seq<Node>
  {
    [Hook(FunctionMethodInstance, "setUp()", a), Hook(FunctionMethodInstance, "tearDown()", b),
     Hook(FunctionMethodClass, "setUp()", c), Hook(FunctionMethodClass, "tearDown()", d)]
  }

  function UndelegatingFile(a: int, b: int, c: int, d: int): Node
  {
    var testCase := Node(Some(Class), None, Some("TestCase"), Some(6), Some(25), Some(220), ["XCTestCase"],
                         UndelegatingHooks(a, b, c, d));
    Node(None, None, None, None, Some(0), Some(250), [], [testCase])
  }

  lemma UndelegatingHooksAllMissSuper(testCase: Node, a: int, b: int, c: int, d: int)
    requires testCase.substructure == UndelegatingHooks(a, b, c, d)
    ensures MethodsMissingSuper(testCase) == UndelegatingHooks(a, b, c, d)
  {
    var hooks := UndelegatingHooks(a, b, c, d);
    forall i | 0 <= i < |hooks|
      ensures IsMethodAmong(hooks[i], LifecycleNames, LifecycleKinds) && !CallsSuper(hooks[i])
    {
      if i == 0 {
        PrintingHookMissesSuper(FunctionMethodInstance, "setUp()", a);
      } else if i == 1 {
        PrintingHookMissesSuper(FunctionMethodInstance, "tearDown()", b);
      } else if i == 2 {
        PrintingHookMissesSuper(FunctionMethodClass, "setUp()", c);
      } else {
        PrintingHookMissesSuper(FunctionMethodClass, "tearDown()", d);
      }
    }
    FilterAll(hooks, (m: Node) => IsMethodAmong(m, LifecycleNames, LifecycleKinds));
    FilterAll(hooks, (m: Node) => !CallsSuper(m));
  }

  /** The rule's triggering example: the four overrides are four independent
      violations, at the four method names, in document order. */
  lemma FourOverridesWithoutSuper(a: int, b: int, c: int, d: int)
    ensures Validate(UndelegatingFile(a, b, c, d), ClassConfiguration.Default) ==
      [StyleViolation(Identifier, Warning, a), StyleViolation(Identifier, Warning, b),
       StyleViolation(Identifier, Warning, c), StyleViolation(Identifier, Warning, d)]
  {
    var file := UndelegatingFile(a, b, c, d);
    var testCase := file.substructure[0];
    assert testCase.inheritedTypes[0] in ["XCTestCase"];
    FilterAll(file.substructure, (n: Node) => IsSubclassOf(n, ["XCTestCase"]));
    UndelegatingHooksAllMissSuper(testCase, a, b, c, d);
    var f := ClassViolationsWith(Warning);
    assert FlatMap([testCase], f) == f(testCase) + FlatMap([], f);
  }
}
