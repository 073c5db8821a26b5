/** What the rules ask of the file besides its structure: the body range of a
    declaration (Source/SwiftLintFramework/Rules/Idiomatic/XCTNullifyStoredPropertiesRule.swift)
    and the scoped regular-expression search. */
module SwiftLintFile {
  import opened Wrappers
  import opened SourceKittenDictionary

  /** A byte range of the file. */
  datatype Range = Range(offset: int, length: int)

  /** `bodyRange(of:)`: the range a declaration's body offset and length give,
      or `None` when either key is missing. */
  function BodyRange(node: Node): (r: Option<Range>)
    ensures r.None? <==> node.bodyOffset.None? || node.bodyLength.None?
    ensures r.Some? ==> r.value.offset == node.bodyOffset.value && r.value.length == node.bodyLength.value
  {
    match (node.bodyOffset, node.bodyLength)
    case (Some(offset), Some(length)) => Some(Range(offset, length))
    case _ => None
  }

  /** `match(pattern:excludingSyntaxKinds:range:)` with comments and string
      literals excluded: the byte offsets at which `pattern` matches inside the
      given range, in order. The regular-expression engine and the syntax
      classification are outside this model, so a rule receives the search as a
      parameter of this type and is proved for every such search. */
  type Matcher = (string, Option<Range>) -> seq<int>
}
