/**
  An abstract view of the part of a Swift syntax tree that the HotReload
  macro inspects. Trivia (whitespace and comments), source locations and the
  textual `description` of nodes are not represented; where the macro compares
  text, the tree already holds the trimmed text.
 */
module Syntax {
  import opened Wrappers

  /** Swift keywords. The six access-control keywords and the `some`/`any`
      specifiers are named; a few other declaration modifiers stand for the
      rest, and `OtherKeyword` for every keyword not named here. */
  datatype Keyword =
    | Public | Private | Fileprivate | Internal | Package | Open
    | SomeSpecifier | AnySpecifier
    | Static | Final | Mutating | Nonisolated
    | OtherKeyword

  /** The kind of a token: a keyword, an identifier, or anything else. */
  datatype TokenKind =
    | KeywordToken(keyword: Keyword)
    | Identifier(text: string)
    | OtherToken

  /** The access-control keywords of Swift. */
  const VisibilityKeywords: set<Keyword> := {Public, Private, Fileprivate, Internal, Package, Open}

  /** Whether a modifier token is an access-control keyword. */
  function IsVisibilityKeyword(t: TokenKind): (r: bool)
    ensures r <==> t.KeywordToken? && t.keyword in VisibilityKeywords
  {
    match t
    case KeywordToken(Public) | KeywordToken(Private) | KeywordToken(Fileprivate)
       | KeywordToken(Internal) | KeywordToken(Package) | KeywordToken(Open) => true
    case _ => false
  }

  /** The source spelling of an access-control keyword. */
  function VisibilitySpelling(k: Keyword): (s: string)
    requires k in VisibilityKeywords
    ensures |s| >= 4 && ' ' !in s
    ensures s in {"public", "private", "fileprivate", "internal", "package", "open"}
  {
    match k
    case Public => "public"
    case Private => "private"
    case Fileprivate => "fileprivate"
    case Internal => "internal"
    case Package => "package"
    case Open => "open"
  }

  /** A type reference. `MemberType` holds the text of its base type with
      surrounding whitespace already trimmed, and the member's name. */
  datatype TypeRef =
    | IdentifierType(name: string)
    | MemberType(baseText: string, name: string)
    | SomeOrAnyType(specifier: TokenKind, constraint: TypeRef)
    | OtherType

  /** The pattern of a binding: a plain identifier, or any other pattern
      (tuple, wildcard, ...). */
  datatype Pattern = IdentifierPattern(identifier: string) | OtherPattern

  /** One binding of a `var`/`let` declaration, with its optional type annotation. */
  datatype PatternBinding = PatternBinding(pattern: Pattern, typeAnnotation: Option<TypeRef>)

  /** A declaration modifier (`public`, `static`, ...), identified by its token. */
  datatype Modifier = Modifier(name: TokenKind)

  /** A member of a type's member block. */
  datatype Member = VariableDecl(bindings: seq<PatternBinding>) | OtherMember

  /** The kinds of declaration groups other than a struct. */
  datatype DeclKind = Enum | Class | Actor | Protocol | Extension

  /** The declaration a member macro is attached to. `inheritance` is `None`
      when the declaration has no inheritance clause at all. */
  datatype Decl =
    | StructDecl(name: string, inheritance: Option<seq<TypeRef>>, modifiers: seq<Modifier>, members: seq<Member>)
    | OtherDecl(kind: DeclKind)
}
