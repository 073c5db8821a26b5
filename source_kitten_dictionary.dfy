/** The parsed structure of a Swift file as SourceKitten reports it, and the
    one-level queries the XCTest rules ask of it
    (Source/SwiftLintFramework/Extensions/SourceKittenDictionary+Extensions.swift). */
module SourceKittenDictionary {
  import opened Wrappers
  import opened Seqs

  /** The declaration kinds the rules distinguish, plus the others they never select. */
  datatype DeclarationKind =
    | Class | Struct | Enum | Extension | Protocol
    | VarInstance | VarClass | VarStatic | VarLocal
    | FunctionMethodInstance | FunctionMethodClass | FunctionMethodStatic | FunctionFree

  datatype ExpressionKind = Call | Argument | Closure | ArrayLiteral

  /** One structure dictionary: a declaration or expression with its optional
      keys and its ordered direct children. Offsets are byte offsets. */
  datatype Node = Node(
    declarationKind: Option<DeclarationKind>,
    expressionKind: Option<ExpressionKind>,
    name: Option<string>,
    nameOffset: Option<int>,
    bodyOffset: Option<int>,
    bodyLength: Option<int>,
    inheritedTypes: seq<string>,
    substructure: seq<Node>)

  /** The same node with `declarations` as its direct children: a file cut down
      to some of its top-level declarations. */
  function WithDeclarations(file: Node, declarations: seq<Node>): (r: Node)
    ensures r.substructure == declarations
    ensures r.(substructure := file.substructure) == file
  {
    file.(substructure := declarations)
  }

  /** `nameOffset ?? 0`: where a violation about a declaration is reported. */
  function NameOffsetOrZero(n: Node): int
  {
    match n.nameOffset
    case None => 0
    case Some(offset) => offset
  }

  /** A direct child that `classes(overrides:)` keeps: a class declaration that
      names at least one of `overrides` among its inherited types. */
  predicate IsSubclassOf(n: Node, overrides: seq<string>)
  {
    n.declarationKind == Some(Class) && exists t :: t in n.inheritedTypes && t in overrides
  }

  /** `classes(overrides:)`: the direct children that are classes inheriting from
      one of `overrides`, in document order. Nested classes are never visited. */
  function Classes(node: Node, overrides: seq<string>): (r: seq<Node>)
    ensures forall c :: c in r <==> c in node.substructure && IsSubclassOf(c, overrides)
    ensures overrides == [] ==> r == []
  {
    var r := Filter(node.substructure, (c: Node) => IsSubclassOf(c, overrides));
    assert r != [] ==> r[0] in r;
    r
  }

  /** A stored property: an instance variable without a body, which excludes
      computed properties. */
  predicate IsStoredProperty(n: Node)
  {
    n.declarationKind == Some(VarInstance) && n.bodyLength.None?
  }

  /** `allStoredProperties`: the direct children that are stored properties, in order. */
  function AllStoredProperties(node: Node): (r: seq<Node>)
    ensures forall p :: p in r <==> p in node.substructure && IsStoredProperty(p)
  {
    Filter(node.substructure, IsStoredProperty)
  }

  /** What `methods(names:declarationKinds:)` keeps: a child that has both a name
      and a declaration kind, with the kind among `kinds` and the name among `names`. */
  predicate IsMethodAmong(n: Node, names: seq<string>, kinds: seq<DeclarationKind>)
  {
    match (n.name, n.declarationKind)
    case (Some(name), Some(kind)) => kind in kinds && name in names
    case _ => false
  }

  function Methods(node: Node, names: seq<string>, kinds: seq<DeclarationKind>): (r: seq<Node>)
    ensures forall m :: m in r <==>
      m in node.substructure && m.name.Some? && m.declarationKind.Some? &&
      m.name.value in names && m.declarationKind.value in kinds
  {
    Filter(node.substructure, (m: Node) => IsMethodAmong(m, names, kinds))
  }

  predicate IsNamedDeclaration(n: Node, kind: DeclarationKind, name: string)
  {
    n.declarationKind == Some(kind) && n.name == Some(name)
  }

  /** `method(_:)`: the first direct child that is an instance method called `name`. */
  function Method(node: Node, name: string): (r: Option<Node>)
    ensures r.None? <==> forall i :: 0 <= i < |node.substructure| ==>
      !IsNamedDeclaration(node.substructure[i], FunctionMethodInstance, name)
    ensures r.Some? ==>
      r.value in node.substructure && IsNamedDeclaration(r.value, FunctionMethodInstance, name)
  {
    var p := (m: Node) => IsNamedDeclaration(m, FunctionMethodInstance, name);
    FirstNone(node.substructure, p);
    First(node.substructure, p)
  }

  /** `classMethod(_:)`: the first direct child that is a class method called `name`. */
  function ClassMethod(node: Node, name: string): (r: Option<Node>)
    ensures r.None? <==> forall i :: 0 <= i < |node.substructure| ==>
      !IsNamedDeclaration(node.substructure[i], FunctionMethodClass, name)
    ensures r.Some? ==>
      r.value in node.substructure && IsNamedDeclaration(r.value, FunctionMethodClass, name)
  {
    var p := (m: Node) => IsNamedDeclaration(m, FunctionMethodClass, name);
    FirstNone(node.substructure, p);
    First(node.substructure, p)
  }

  predicate IsCallTo(n: Node, callee: string)
  {
    n.expressionKind == Some(ExpressionKind.Call) && n.name == Some(callee)
  }

  /** `call(_:)`: the first direct child that is a call expression to `callee`.
      Calls nested inside other children are not looked at. */
  function CallTo(node: Node, callee: string): (r: Option<Node>)
    ensures r.None? <==> forall i :: 0 <= i < |node.substructure| ==> !IsCallTo(node.substructure[i], callee)
    ensures r.Some? ==> r.value in node.substructure && IsCallTo(r.value, callee)
  {
    var p := (c: Node) => IsCallTo(c, callee);
    FirstNone(node.substructure, p);
    First(node.substructure, p)
  }

  /** `method(_:)` returns the earliest matching child, even when later children
      share its kind and name. */
  lemma MethodIsFirst(node: Node, name: string, i: nat)
    requires i < |node.substructure| && IsNamedDeclaration(node.substructure[i], FunctionMethodInstance, name)
    requires forall j :: 0 <= j < i ==> !IsNamedDeclaration(node.substructure[j], FunctionMethodInstance, name)
    ensures Method(node, name) == Some(node.substructure[i])
  {
    FirstIsEarliest(node.substructure, (m: Node) => IsNamedDeclaration(m, FunctionMethodInstance, name), i);
  }

  lemma ClassMethodIsFirst(node: Node, name: string, i: nat)
    requires i < |node.substructure| && IsNamedDeclaration(node.substructure[i], FunctionMethodClass, name)
    requires forall j :: 0 <= j < i ==> !IsNamedDeclaration(node.substructure[j], FunctionMethodClass, name)
    ensures ClassMethod(node, name) == Some(node.substructure[i])
  {
    FirstIsEarliest(node.substructure, (m: Node) => IsNamedDeclaration(m, FunctionMethodClass, name), i);
  }

  lemma CallToIsFirst(node: Node, callee: string, i: nat)
    requires i < |node.substructure| && IsCallTo(node.substructure[i], callee)
    requires forall j :: 0 <= j < i ==> !IsCallTo(node.substructure[j], callee)
    ensures CallTo(node, callee) == Some(node.substructure[i])
  {
    FirstIsEarliest(node.substructure, (c: Node) => IsCallTo(c, callee), i);
  }

  /** The longest prefix of `s` that does not contain `sep`. */
  function TakeUntil(s: string, sep: char): (w: string)
    ensures w <= s && sep !in w
    ensures |w| == |s| || s[|w|] == sep
  {
    if s == [] || s[0] == sep then [] else [s[0]] + TakeUntil(s[1..], sep)
  }

  /** Swift's `split(separator:)` with its defaults, over the characters of the
      model's strings: the maximal runs of characters other than `sep`, with the empty pieces between adjacent separators (and at
      either end) omitted. */
  function Split(s: string, sep: char): (pieces: seq<string>)
    ensures forall i :: 0 <= i < |pieces| ==> |pieces[i]| > 0 && sep !in pieces[i]
    decreases |s|
  {
    if s == [] then []
    else if s[0] == sep then Split(s[1..], sep)
    else
      var w := TakeUntil(s, sep);
      [w] + Split(s[|w|..], sep)
  }

  /** `s` with every occurrence of `sep` deleted. */
  function Without(s: string, sep: char): string
  {
    if s == [] then [] else (if s[0] == sep then [] else [s[0]]) + Without(s[1..], sep)
  }

  function Concat(pieces: seq<string>): string
  {
    if pieces == [] then [] else pieces[0] + Concat(pieces[1..])
  }

  lemma {:induction false} WithoutAppend(a: string, b: string, sep: char)
    ensures Without(a + b, sep) == Without(a, sep) + Without(b, sep)
  {
    if a == [] {
      assert a + b == b;
    } else {
      assert (a + b)[1..] == a[1..] + b;
      WithoutAppend(a[1..], b, sep);
    }
  }

  lemma {:induction false} WithoutNoSeparator(s: string, sep: char)
    requires sep !in s
    ensures Without(s, sep) == s
  {
    if s != [] {
      WithoutNoSeparator(s[1..], sep);
    }
  }

  /** Splitting loses only separators: the pieces, put back together, are the
      string with its separators removed. */
  lemma {:induction false} SplitKeepsEverythingElse(s: string, sep: char)
    ensures Concat(Split(s, sep)) == Without(s, sep)
    decreases |s|
  {
    if s == [] {
    } else if s[0] == sep {
      SplitKeepsEverythingElse(s[1..], sep);
    } else {
      var w := TakeUntil(s, sep);
      var rest := s[|w|..];
      assert s == w + rest;
      SplitKeepsEverythingElse(rest, sep);
      WithoutAppend(w, rest, sep);
      WithoutNoSeparator(w, sep);
      assert ([w] + Split(rest, sep))[1..] == Split(rest, sep);
    }
  }

  /** A non-empty string without the separator is a single piece. */
  lemma SplitNoSeparator(s: string, sep: char)
    ensures s != [] && sep !in s ==> Split(s, sep) == [s]
  {
    if s != [] && sep !in s {
      var w := TakeUntil(s, sep);
      assert w == s;
      assert s[|w|..] == [];
    }
  }

  lemma {:induction false} TakeUntilPrefix(w: string, rest: string, sep: char)
    requires sep !in w
    ensures TakeUntil(w + [sep] + rest, sep) == w
  {
    if w != [] {
      assert (w + [sep] + rest)[1..] == w[1..] + [sep] + rest;
      TakeUntilPrefix(w[1..], rest, sep);
    }
  }

  /** Where `split` breaks: at the first separator. The run `w` before it is a
      piece of its own unless it is empty, and the rest is split on its own.
      With `SplitNoSeparator` this determines `Split` on every string. */
  lemma SplitAround(w: string, rest: string, sep: char)
    requires sep !in w
    ensures Split(w + [sep] + rest, sep) == (if w == [] then [] else [w]) + Split(rest, sep)
  {
    var s := w + [sep] + rest;
    if w == [] {
      assert s[1..] == rest;
    } else {
      TakeUntilPrefix(w, rest, sep);
      assert s[|w|..] == [sep] + rest;
      assert ([sep] + rest)[1..] == rest;
    }
  }

  /** `superCallName`: "super." followed by the name's first piece before a `(`.
      `None` when there is no name or the name is nothing but parentheses. */
  function SuperCallName(name: Option<string>): (r: Option<string>)
    ensures r.Some? ==> name.Some? && |r.value| > 6 && r.value[..6] == "super." && '(' !in r.value
    ensures name.Some? && name.value != [] && '(' !in name.value ==> r == Some("super." + name.value)
  {
    match name
    case None => None
    case Some(n) =>
      var pieces := Split(n, '(');
      SplitNoSeparator(n, '(');
      if pieces == [] then None else Some("super." + pieces[0])
  }

  /** The result is `None` exactly when there is no name or every character of it is `(`. */
  lemma {:induction false} SuperCallNameNone(name: Option<string>)
    ensures SuperCallName(name).None? <==>
      name.None? || forall i :: 0 <= i < |name.value| ==> name.value[i] == '('
  {
    if name.Some? {
      var n := name.value;
      SplitKeepsEverythingElse(n, '(');
      OnlySeparators(n, '(');
    }
  }

  lemma {:induction false} OnlySeparators(s: string, sep: char)
    ensures Without(s, sep) == [] <==> forall i :: 0 <= i < |s| ==> s[i] == sep
  {
    if s != [] {
      OnlySeparators(s[1..], sep);
      if forall i :: 0 <= i < |s[1..]| ==> s[1..][i] == sep {
        forall i | 1 <= i < |s| ensures s[i] == sep {
          assert s[i] == s[1..][i - 1];
        }
      }
    }
  }

  /** A name made of a non-empty identifier, a `(` and anything after it gives
      "super." and that identifier. */
  lemma SuperCallNameBeforeParenthesis(w: string, rest: string)
    requires w != [] && '(' !in w
    ensures SuperCallName(Some(w + "(" + rest)) == Some("super." + w)
  {
    var n := w + "(" + rest;
    TakeUntilPrefix(w, rest, '(');
    assert n[0] == w[0];
  }

  /** The two lifecycle method names SourceKitten reports give the two super calls. */
  lemma SuperCallNameOfSetUp()
    ensures SuperCallName(Some("setUp()")) == Some("super.setUp")
  {
    var w, rest := "setUp", ")";
    assert '(' !in w;
    SuperCallNameBeforeParenthesis(w, rest);
    assert w + "(" + rest == "setUp()";
    assert "super." + w == "super.setUp";
  }

  lemma SuperCallNameOfTearDown()
    ensures SuperCallName(Some("tearDown()")) == Some("super.tearDown")
  {
    var w, rest := "tearDown", ")";
    assert '(' !in w;
    SuperCallNameBeforeParenthesis(w, rest);
    assert w + "(" + rest == "tearDown()";
    assert "super." + w == "super.tearDown";
  }
}
