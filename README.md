# XCTest hygiene rules of SwiftLint, modelled in Dafny

This project models three opt-in SwiftLint rules that inspect XCTest classes. It also
models the structure queries and the two configuration types those rules use.

- `xct_missing_super_setup_teardown` reports a `setUp()` or `tearDown()` (instance
  or class method) of a test class that does not call `super.setUp` / `super.tearDown`
  as a direct child.
- `xct_nullify_stored_properties` reports stored properties of a test class that its
  `tearDown()` does not set to `nil`.
- `xct_reset_shared_state` reports calls matching a configured set-up pattern anywhere
  in a test class when `tearDown()` does not match the paired tear-down pattern.

A test class is a top-level class of the file that lists one of the configured test
base classes among its inherited types. Each rule is a total, pure function. It maps
the file's structure tree (a `Node`), the configuration and a regular-expression
search to an ordered list of `StyleViolation`s (rule identifier, severity, byte
offset).

Files and modules:

- `wrappers.dfy` (`Wrappers`): `Option`, `Result`, `Outcome`. These stand for Swift
  optionals and `throws`.
- `seqs.dfy` (`Seqs`): order-preserving `Filter`, `First` and `FlatMap`. These stand
  for Swift's `filter`, `first(where:)` and `flatMap`.
- `source_kitten_dictionary.dfy` (`SourceKittenDictionary`): the `Node` tree, the
  one-level queries, Swift's `split(separator:)` and `superCallName`.
- `swiftlint_file.dfy` (`SwiftLintFile`): `BodyRange` and the `Matcher` type of the
  scoped search.
- `violations.dfy` (`Violations`): severities, violation records, the severity parse.
- `config_values.dfy` (`ConfigValues`): the untyped configuration value, the `as?`
  casts, and the severity and `test_classes` steps that both configurations share.
- `class_configuration.dfy` (`ClassConfiguration`): `XCTClassConfiguration`.
- `reset_shared_state_configuration.dfy` (`ResetSharedStateConfiguration`): `Pattern`
  and `XCTResetSharedStateConfiguration`.
- `missing_super_rule.dfy`, `nullify_rule.dfy`, `reset_shared_state_rule.dfy`: the
  three rules, with their properties and the source's description examples as lemmas.

Each configuration is a class whose `Apply` method updates its fields in place. The
method is proved equal to a pure function `Applied`, and the properties of `apply`
are stated on `Applied`.

Behaviours of the code that the model keeps:

- The default test base class is `XCTestCase`.
- Test base classes are an ordered list that `apply` appends to, duplicates
  included.
- A `tearDown()` without a body range still counts as present. Its search is given
  no range (`None`).
- When `patterns` is missing or malformed, the shared-state configuration's `apply`
  throws. By then it has already applied `severity` and `test_classes`, and those
  updates persist.

## Model

| member | source | states |
|---|---|---|
| Seqs.Filter | Source/SwiftLintFramework/Extensions/SourceKittenDictionary+Extensions.swift:5 | `filter` keeps exactly the elements satisfying the predicate and never lengthens the sequence |
| Seqs.FilterAppend | Source/SwiftLintFramework/Extensions/SourceKittenDictionary+Extensions.swift:5 | filtering distributes over concatenation, so kept elements keep their original order |
| Seqs.First | Source/SwiftLintFramework/Extensions/SourceKittenDictionary+Extensions.swift:26 | `first(where:)` is nil exactly when nothing matches, otherwise the head of the filtered sequence |
| Seqs.FirstIsEarliest | Source/SwiftLintFramework/Extensions/SourceKittenDictionary+Extensions.swift:26 | `first(where:)` returns the earliest matching element |
| Seqs.FlatMap | Source/SwiftLintFramework/Rules/Idiomatic/XCTMissingSuperSetUpTearDownRule.swift:60 | `flatMap` is empty iff every part is empty; an element is in the result iff it is in the part of some input element |
| Seqs.FlatMapAppend | Source/SwiftLintFramework/Rules/Idiomatic/XCTMissingSuperSetUpTearDownRule.swift:60 | `flatMap` distributes over concatenation: parts appear in input order |
| SourceKittenDictionary.Classes | Source/SwiftLintFramework/Extensions/SourceKittenDictionary+Extensions.swift:4-10 | the result holds exactly the direct children that are class declarations inheriting a type in `overrides`; empty `overrides` gives no classes |
| SourceKittenDictionary.AllStoredProperties | Source/SwiftLintFramework/Extensions/SourceKittenDictionary+Extensions.swift:12-16 | exactly the direct children of kind `varInstance` with no body length (computed properties excluded) |
| SourceKittenDictionary.Methods | Source/SwiftLintFramework/Extensions/SourceKittenDictionary+Extensions.swift:18-23 | exactly the direct children having both a name in `names` and a kind in `declarationKinds` |
| SourceKittenDictionary.Method | Source/SwiftLintFramework/Extensions/SourceKittenDictionary+Extensions.swift:25-29 | nil iff no direct child is an instance method of that name; otherwise such a child |
| SourceKittenDictionary.MethodIsFirst | Source/SwiftLintFramework/Extensions/SourceKittenDictionary+Extensions.swift:25-29 | `method(_:)` returns the earliest instance method of that name |
| SourceKittenDictionary.ClassMethod | Source/SwiftLintFramework/Extensions/SourceKittenDictionary+Extensions.swift:31-35 | nil iff no direct child is a class method of that name; otherwise such a child |
| SourceKittenDictionary.ClassMethodIsFirst | Source/SwiftLintFramework/Extensions/SourceKittenDictionary+Extensions.swift:31-35 | `classMethod(_:)` returns the earliest class method of that name |
| SourceKittenDictionary.CallTo | Source/SwiftLintFramework/Extensions/SourceKittenDictionary+Extensions.swift:37-41 | nil iff no direct child is a call expression with that name; otherwise such a child (deeper calls are not seen) |
| SourceKittenDictionary.CallToIsFirst | Source/SwiftLintFramework/Extensions/SourceKittenDictionary+Extensions.swift:37-41 | `call(_:)` returns the earliest matching call |
| SourceKittenDictionary.Split | Source/SwiftLintFramework/Extensions/SourceKittenDictionary+Extensions.swift:44 | `split(separator:)` pieces are non-empty and free of the separator |
| SourceKittenDictionary.SplitKeepsEverythingElse | Source/SwiftLintFramework/Extensions/SourceKittenDictionary+Extensions.swift:44 | concatenating the pieces gives the string with every separator removed |
| SourceKittenDictionary.SplitAround | Source/SwiftLintFramework/Extensions/SourceKittenDictionary+Extensions.swift:44 | the first separator ends a piece: `w(rest` splits into `w` (dropped when empty) followed by the pieces of `rest` |
| SourceKittenDictionary.SuperCallName | Source/SwiftLintFramework/Extensions/SourceKittenDictionary+Extensions.swift:43-45 | a result needs a name, starts with `super.`, is longer than `super.` and has no `(`; a non-empty name without `(` gives `super.` + name |
| SourceKittenDictionary.SuperCallNameNone | Source/SwiftLintFramework/Extensions/SourceKittenDictionary+Extensions.swift:43-45 | the result is nil iff the name is nil or consists only of `(` characters |
| SourceKittenDictionary.SuperCallNameBeforeParenthesis | Source/SwiftLintFramework/Extensions/SourceKittenDictionary+Extensions.swift:44 | a name `w(...` with non-empty `w` gives `super.w` |
| SourceKittenDictionary.SuperCallNameOfSetUp | Source/SwiftLintFramework/Extensions/SourceKittenDictionary+Extensions.swift:43-45 | `setUp()` gives `super.setUp` |
| SourceKittenDictionary.SuperCallNameOfTearDown | Source/SwiftLintFramework/Extensions/SourceKittenDictionary+Extensions.swift:43-45 | `tearDown()` gives `super.tearDown` |
| SwiftLintFile.BodyRange | Source/SwiftLintFramework/Rules/Idiomatic/XCTNullifyStoredPropertiesRule.swift:114-123 | nil iff body offset or body length is missing; otherwise the range those two give |
| Violations.ParseSeverity | Source/SwiftLintFramework/Rules/RuleConfigurations/XCTClassConfiguration.swift:16-18 | a severity string is accepted iff, lower-cased, it is `warning` or `error`, and yields that severity |
| ConfigValues.StringAt | Source/SwiftLintFramework/Rules/RuleConfigurations/XCTClassConfiguration.swift:16 | `configuration[key] as? String` succeeds iff the key holds a string, and yields it |
| ConfigValues.StringListAt | Source/SwiftLintFramework/Rules/RuleConfigurations/XCTClassConfiguration.swift:20 | `as? [String]` succeeds iff the key holds a list of strings only, and yields them in order |
| ConfigValues.AsStringDictionary | Source/SwiftLintFramework/Rules/RuleConfigurations/XCTResetSharedStateConfiguration.swift:13 | `as? [String: String]` succeeds iff every entry is a string, keeping the same keys and values |
| ConfigValues.StringDictionaryListAt | Source/SwiftLintFramework/Rules/RuleConfigurations/XCTResetSharedStateConfiguration.swift:51 | `as? [[String: String]]` succeeds iff the key holds a list of string dictionaries |
| ClassConfiguration.Applied | Source/SwiftLintFramework/Rules/RuleConfigurations/XCTClassConfiguration.swift:11-23 | a non-dictionary throws and changes nothing; apply succeeds iff any severity string parses; a throw changes nothing; old test classes are always a prefix of the new; a `test_classes` string list is appended, else the list is unchanged; a missing or non-string severity is kept |
| ClassConfiguration.XCTestCaseIsKept | Source/SwiftLintFramework/Rules/RuleConfigurations/XCTClassConfiguration.swift:3 | after any apply to a new configuration, `XCTestCase` is still the first test class |
| ClassConfiguration.XCTClassConfiguration.constructor | Source/SwiftLintFramework/Rules/RuleConfigurations/XCTClassConfiguration.swift:2-3 | defaults: severity warning, test classes `["XCTestCase"]` |
| ClassConfiguration.XCTClassConfiguration.Apply | Source/SwiftLintFramework/Rules/RuleConfigurations/XCTClassConfiguration.swift:11-23 | the in-place update leaves exactly the state and outcome `Applied` describes |
| ResetSharedStateConfiguration.PatternFromConfiguration | Source/SwiftLintFramework/Rules/RuleConfigurations/XCTResetSharedStateConfiguration.swift:11-20 | succeeds iff the value is a string dictionary with `set_up` and `tear_down`, and copies those two |
| ResetSharedStateConfiguration.PatternsFromConfiguration | Source/SwiftLintFramework/Rules/RuleConfigurations/XCTResetSharedStateConfiguration.swift:55 | `try map` succeeds iff every entry converts; the result has the same length and each entry's pattern in order |
| ResetSharedStateConfiguration.Applied | Source/SwiftLintFramework/Rules/RuleConfigurations/XCTResetSharedStateConfiguration.swift:38-56 | non-dictionary or bad severity throws with nothing changed; otherwise an accepted severity string takes effect (a missing one keeps the old severity) and a `test_classes` string list is appended, even if `patterns` then throws; success iff `patterns` is a list of string dictionaries each with both keys; success replaces the patterns with exactly the converted entries; a throw keeps the old patterns |
| ResetSharedStateConfiguration.AppliedReplacesPatterns | Source/SwiftLintFramework/Rules/RuleConfigurations/XCTResetSharedStateConfiguration.swift:55 | an empty `patterns` list is accepted and removes the default pattern |
| ResetSharedStateConfiguration.XCTResetSharedStateConfiguration.constructor | Source/SwiftLintFramework/Rules/RuleConfigurations/XCTResetSharedStateConfiguration.swift:23-27 | defaults: warning, `["XCTestCase"]`, the single `MySharedStateComponent` pattern pair |
| ResetSharedStateConfiguration.XCTResetSharedStateConfiguration.Apply | Source/SwiftLintFramework/Rules/RuleConfigurations/XCTResetSharedStateConfiguration.swift:38-56 | the in-place update leaves exactly the state and outcome `Applied` describes |
| XCTMissingSuperSetUpTearDownRule.MethodsMissingSuper | Source/SwiftLintFramework/Rules/Idiomatic/XCTMissingSuperSetUpTearDownRule.swift:61-68 | exactly the direct children named `setUp()`/`tearDown()` of instance or class method kind with no direct child calling `super.setUp`/`super.tearDown` respectively |
| XCTMissingSuperSetUpTearDownRule.ClassViolations | Source/SwiftLintFramework/Rules/Idiomatic/XCTMissingSuperSetUpTearDownRule.swift:70-76 | one violation per offending method, in order, at its name offset (0 if absent), with the configured severity |
| XCTMissingSuperSetUpTearDownRule.Validate | Source/SwiftLintFramework/Rules/Idiomatic/XCTMissingSuperSetUpTearDownRule.swift:57-78 | every violation carries this rule and the configured severity; a violation is reported iff some top-level test class yields it |
| XCTMissingSuperSetUpTearDownRule.NoTestClassNoViolations | Source/SwiftLintFramework/Rules/Idiomatic/XCTMissingSuperSetUpTearDownRule.swift:58 | a file without a top-level test class (e.g. only a struct with `setUp`) has no violations |
| XCTMissingSuperSetUpTearDownRule.DelegatingClassIsClean | Source/SwiftLintFramework/Rules/Idiomatic/XCTMissingSuperSetUpTearDownRule.swift:66-68 | a test class whose lifecycle methods all call super, or which has none, has no violations |
| XCTMissingSuperSetUpTearDownRule.ValidateAppend | Source/SwiftLintFramework/Rules/Idiomatic/XCTMissingSuperSetUpTearDownRule.swift:58-60 | violations are ordered class by class in document order |
| XCTMissingSuperSetUpTearDownRule.ValidateOne | Source/SwiftLintFramework/Rules/Idiomatic/XCTMissingSuperSetUpTearDownRule.swift:57-78 | a file without declarations yields nothing; a single declaration yields its class violations when it is a test class and nothing otherwise (with `ValidateAppend` this fixes the whole result) |
| XCTMissingSuperSetUpTearDownRule.PrintingHookMissesSuper | Source/SwiftLintFramework/Rules/Idiomatic/XCTMissingSuperSetUpTearDownRule.swift:41-52 | a lifecycle method whose only call is `print` is a candidate that does not call super |
| XCTMissingSuperSetUpTearDownRule.FourOverridesWithoutSuper | Source/SwiftLintFramework/Rules/Idiomatic/XCTMissingSuperSetUpTearDownRule.swift:39-53 | the triggering example yields four violations, one per instance/class `setUp`/`tearDown`, at their names, in order |
| XCTNullifyStoredPropertiesRule.PropertiesViolated | Source/SwiftLintFramework/Rules/Idiomatic/XCTNullifyStoredPropertiesRule.swift:81-95 | without instance `tearDown()` all stored properties; otherwise exactly the stored properties that have a name for which `\s+name\s*=\s*nil` has no match in tearDown's body range |
| XCTNullifyStoredPropertiesRule.PropertyViolations | Source/SwiftLintFramework/Rules/Idiomatic/XCTNullifyStoredPropertiesRule.swift:101-110 | one violation per property, in order, at its name offset (0 if absent), with the configured severity |
| XCTNullifyStoredPropertiesRule.Validate | Source/SwiftLintFramework/Rules/Idiomatic/XCTNullifyStoredPropertiesRule.swift:77-99 | every violation carries this rule and the configured severity; a violation is reported iff some top-level test class yields it |
| XCTNullifyStoredPropertiesRule.NoTearDownIgnoresSearch | Source/SwiftLintFramework/Rules/Idiomatic/XCTNullifyStoredPropertiesRule.swift:83-86 | without `tearDown()` the search is irrelevant and every stored property is reported |
| XCTNullifyStoredPropertiesRule.NilledPropertyIsClean | Source/SwiftLintFramework/Rules/Idiomatic/XCTNullifyStoredPropertiesRule.swift:88-95 | a property whose nil assignment is found in `tearDown()` is not reported |
| XCTNullifyStoredPropertiesRule.ComputedPropertyIsClean | Source/SwiftLintFramework/Rules/Idiomatic/XCTNullifyStoredPropertiesRule.swift:81 | a property with a body is never reported |
| XCTNullifyStoredPropertiesRule.UnnamedPropertyIsClean | Source/SwiftLintFramework/Rules/Idiomatic/XCTNullifyStoredPropertiesRule.swift:89 | with `tearDown()` present, an unnamed property is never reported |
| XCTNullifyStoredPropertiesRule.ValidateAppend | Source/SwiftLintFramework/Rules/Idiomatic/XCTNullifyStoredPropertiesRule.swift:78-80 | violations are ordered class by class in document order |
| XCTNullifyStoredPropertiesRule.ValidateOne | Source/SwiftLintFramework/Rules/Idiomatic/XCTNullifyStoredPropertiesRule.swift:77-99 | a file without declarations yields nothing; a single declaration yields its class violations when it is a test class and nothing otherwise (with `ValidateAppend` this fixes the whole result) |
| XCTNullifyStoredPropertiesRule.PartlyNilledStructure | Source/SwiftLintFramework/Rules/Idiomatic/XCTNullifyStoredPropertiesRule.swift:62-72 | in the example, `tearDown()` is found and the three `var`/`let` declarations are the stored properties |
| XCTNullifyStoredPropertiesRule.PartlyNilledProperties | Source/SwiftLintFramework/Rules/Idiomatic/XCTNullifyStoredPropertiesRule.swift:62-72 | in the example, `api` and `config` are the offending properties and `data` is not |
| XCTNullifyStoredPropertiesRule.PartlyNilledExample | Source/SwiftLintFramework/Rules/Idiomatic/XCTNullifyStoredPropertiesRule.swift:62-72 | the example yields exactly two violations, at `api` and `config` |
| XCTResetSharedStateRule.UnresetSetUps | Source/SwiftLintFramework/Rules/Idiomatic/XCTResetSharedStateRule.swift:86-107 | a pattern contributes either nothing or all its set-up matches in the class body; it contributes them iff there is a match and either no instance `tearDown()` or no tear-down match in its body |
| XCTResetSharedStateRule.ViolatedOffsets | Source/SwiftLintFramework/Rules/Idiomatic/XCTResetSharedStateRule.swift:82-108 | a class without body range contributes nothing; the result is empty iff every pattern contributes nothing |
| XCTResetSharedStateRule.ClassViolations | Source/SwiftLintFramework/Rules/Idiomatic/XCTResetSharedStateRule.swift:109-115 | one violation per contributed offset, in order, with the configured severity |
| XCTResetSharedStateRule.Validate | Source/SwiftLintFramework/Rules/Idiomatic/XCTResetSharedStateRule.swift:77-117 | every violation carries this rule and the configured severity; a violation is reported iff some top-level test class yields it |
| XCTResetSharedStateRule.PatternsAreIndependent | Source/SwiftLintFramework/Rules/Idiomatic/XCTResetSharedStateRule.swift:85-108 | the offsets for patterns `a + b` are those for `a` followed by those for `b` |
| XCTResetSharedStateRule.ViolatedOffsetsOne | Source/SwiftLintFramework/Rules/Idiomatic/XCTResetSharedStateRule.swift:85-108 | for a class with a body range and one pattern pair, the offsets are exactly what `UnresetSetUps` gives for that pair with the class's instance `tearDown()` (with `PatternsAreIndependent` this fixes the offsets for every pattern list) |
| XCTResetSharedStateRule.NoTearDownReportsEverySetUp | Source/SwiftLintFramework/Rules/Idiomatic/XCTResetSharedStateRule.swift:94-96 | without an instance `tearDown()` every set-up match of every pattern is reported, pattern by pattern |
| XCTResetSharedStateRule.TearDownResettingEverythingIsClean | Source/SwiftLintFramework/Rules/Idiomatic/XCTResetSharedStateRule.swift:98-106 | when every tear-down pattern matches in `tearDown()`, the class has no violations |
| XCTResetSharedStateRule.ValidateAppend | Source/SwiftLintFramework/Rules/Idiomatic/XCTResetSharedStateRule.swift:79-81 | violations are ordered class by class in document order |
| XCTResetSharedStateRule.ValidateOne | Source/SwiftLintFramework/Rules/Idiomatic/XCTResetSharedStateRule.swift:77-117 | a file without declarations yields nothing; a single declaration yields its class violations when it is a test class and nothing otherwise (with `ValidateAppend` this fixes the whole result) |
| XCTResetSharedStateRule.SetUpInTestMethodOffsets | Source/SwiftLintFramework/Rules/Idiomatic/XCTResetSharedStateRule.swift:67-73 | in the example, the set-up call inside an ordinary test method is the one offset reported |
| XCTResetSharedStateRule.SetUpInTestMethodExample | Source/SwiftLintFramework/Rules/Idiomatic/XCTResetSharedStateRule.swift:67-73 | the example yields exactly one violation, at the set-up call |

## Left out

- SourceKitten's parsing is outside the model. The structure tree is an input. Declaration and expression kinds are limited to the ones the rules test, plus a few others.
- The regular-expression engine and the comment/string classification behind `match(pattern:excludingSyntaxKinds:range:)` are outside the model. The rules take the search as a `Matcher` parameter and are proved for every such search. Nothing is assumed about what the search does with a `None` range, which is what a `tearDown()` without a body range passes.
- SourceKittenDictionary.Classes: names are compared code point by code point, not up to Unicode canonical equivalence as Swift's `String ==` compares them, so a test base class spelled in another normalisation form is not matched. `IsMethodAmong`, `IsNamedDeclaration` and `IsCallTo` compare the same way; the rules call those only with fixed ASCII names, where both comparisons agree.
- SourceKittenDictionary.Split: splits on the characters of the model's strings, one element per code point. Swift splits a `String` on extended grapheme clusters, so `(` followed by a combining mark is not a separator in Swift; grapheme segmentation is not modelled.
- SwiftLintFile.BodyRange: does not model the failure of the byte-range to `NSRange` conversion, because that is encoding plumbing. Offsets are kept as plain byte offsets.
- XCTResetSharedStateRule.UnresetSetUps: the search returns byte offsets directly. The conversion of match locations back to byte offsets is not modelled.
- Violations.ParseSeverity: `SeverityConfiguration` is not part of this model. Its parse is modelled as ASCII lower-casing followed by a comparison with `warning` and `error`. Unicode case mapping is not modelled.
- Line and column locations, rule descriptions, `consoleDescription` and the rule registry conformances are not modelled. They are presentation or registration.
- ConfigValues: Swift's dynamic `as?` bridging is modelled only for the shapes the configurations test. These are strings, lists, string-keyed dictionaries, and other scalars, which no cast accepts.
- The unescaped interpolation of a property name into the nil-assignment pattern is kept as in the source. What a name with pattern metacharacters then matches is up to the search.
