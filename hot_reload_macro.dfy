/**
  The HotReload member macro: the three guards that decide whether a
  declaration may receive the hot-reload boilerplate, and the boilerplate
  itself, as a structured record rather than Swift source text.
 */
module HotReloadMacro {
  import opened Wrappers
  import opened Syntax

  // ---------------------------------------------------------------------
  // Reference definitions: what the guards are meant to recognise, stated
  // as the complete list of accepted shapes.
  // ---------------------------------------------------------------------

  /** The two spellings of SwiftUI's `View` protocol the macro recognises. */
  ghost predicate NamesView(t: TypeRef) {
    t == IdentifierType("View") || t == MemberType("SwiftUI", "View")
  }

  /** The two annotations accepted on `body`: `some View` and `some SwiftUI.View`. */
  ghost predicate IsSomeViewAnnotation(t: TypeRef) {
    || t == SomeOrAnyType(KeywordToken(SomeSpecifier), IdentifierType("View"))
    || t == SomeOrAnyType(KeywordToken(SomeSpecifier), MemberType("SwiftUI", "View"))
  }

  /** A binding `body: some View` (or `body: some SwiftUI.View`). */
  ghost predicate DeclaresViewBody(b: PatternBinding) {
    && b.pattern == IdentifierPattern("body")
    && b.typeAnnotation.Some?
    && IsSomeViewAnnotation(b.typeAnnotation.value)
  }

  /** A variable declaration one of whose bindings declares the view body. */
  ghost predicate MemberDeclaresViewBody(m: Member) {
    m.VariableDecl? && exists j :: 0 <= j < |m.bindings| && DeclaresViewBody(m.bindings[j])
  }

  /** The struct's own inheritance clause lists `View` or `SwiftUI.View`. */
  ghost predicate ConformsToView(inheritance: Option<seq<TypeRef>>) {
    inheritance.Some? && exists i :: 0 <= i < |inheritance.value| && NamesView(inheritance.value[i])
  }

  /** One of the struct's members declares the view body. */
  ghost predicate HasViewBody(members: seq<Member>) {
    exists i :: 0 <= i < |members| && MemberDeclaresViewBody(members[i])
  }

  /** The declaration passes all three guards. */
  ghost predicate Expandable(d: Decl) {
    d.StructDecl? && ConformsToView(d.inheritance) && HasViewBody(d.members)
  }

  /** Index `i` holds the first access-control modifier. */
  ghost predicate FirstVisibilityAt(mods: seq<Modifier>, i: int) {
    && 0 <= i < |mods|
    && IsVisibilityKeyword(mods[i].name)
    && forall j :: 0 <= j < i ==> !IsVisibilityKeyword(mods[j].name)
  }

  // ---------------------------------------------------------------------
  // The guards
  // ---------------------------------------------------------------------

  /** Whether a type is `View`, bare or qualified as `SwiftUI.View`. */
  function IsViewType(t: TypeRef): (r: bool)
    ensures r <==> NamesView(t)
  {
    match t
    case IdentifierType(name) => name == "View"
    case MemberType(baseText, name) => name == "View" && baseText == "SwiftUI"
    case _ => false
  }

  /** Whether some type of an inheritance list is `View`. */
  function ContainsViewType(types: seq<TypeRef>): (r: bool)
    ensures r <==> exists i :: 0 <= i < |types| && NamesView(types[i])
  {
    if types == [] then false
    else if IsViewType(types[0]) then true
    else
      var rest := ContainsViewType(types[1..]);
      assert forall i :: 0 < i < |types| ==> types[i] == types[1..][i - 1];
      rest
  }

  /** Whether a binding is `body` annotated with `some` and a `View` constraint;
      an `any` specifier, a missing annotation or a non-identifier pattern fail. */
  function IsBodyBinding(b: PatternBinding): (r: bool)
    ensures r <==> DeclaresViewBody(b)
  {
    && b.pattern.IdentifierPattern?
    && b.pattern.identifier == "body"
    && b.typeAnnotation.Some?
    && b.typeAnnotation.value.SomeOrAnyType?
    && b.typeAnnotation.value.specifier == KeywordToken(SomeSpecifier)
    && IsViewType(b.typeAnnotation.value.constraint)
  }

  /** Whether some binding of a variable declaration is the view body. */
  function ContainsBodyBinding(bindings: seq<PatternBinding>): (r: bool)
    ensures r <==> exists j :: 0 <= j < |bindings| && DeclaresViewBody(bindings[j])
  {
    if bindings == [] then false
    else if IsBodyBinding(bindings[0]) then true
    else
      var rest := ContainsBodyBinding(bindings[1..]);
      assert forall j :: 0 < j < |bindings| ==> bindings[j] == bindings[1..][j - 1];
      rest
  }

  /** Whether a struct's members declare `var body: some View`. */
  function HasBodyProperty(members: seq<Member>): (r: bool)
    ensures r <==> HasViewBody(members)
  {
    if members == [] then false
    else if members[0].VariableDecl? && ContainsBodyBinding(members[0].bindings) then true
    else
      var rest := HasBodyProperty(members[1..]);
      assert forall i :: 0 < i < |members| ==> members[i] == members[1..][i - 1];
      rest
  }

  /** The first access-control modifier of a declaration, if any. */
  function FirstVisibility(mods: seq<Modifier>): (r: Option<TokenKind>)
    ensures r.None? <==> forall i :: 0 <= i < |mods| ==> !IsVisibilityKeyword(mods[i].name)
    ensures r.Some? ==> exists i :: FirstVisibilityAt(mods, i) && mods[i].name == r.value
  {
    if mods == [] then None
    else if IsVisibilityKeyword(mods[0].name) then
      assert FirstVisibilityAt(mods, 0);
      Some(mods[0].name)
    else
      var rest := FirstVisibility(mods[1..]);
      assert forall i :: 0 < i < |mods| ==> mods[i] == mods[1..][i - 1];
      assert forall k :: FirstVisibilityAt(mods[1..], k) ==> FirstVisibilityAt(mods, k + 1);
      rest
  }

  // ---------------------------------------------------------------------
  // Diagnostics and generated code
  // ---------------------------------------------------------------------

  /** The three diagnostics the macro can emit, each on the declaration. */
  datatype Diagnostic =
    | NotAttachedToStruct
    | MissingViewConformance(structName: string)
    | MissingViewBody(structName: string)
  {
    /** The diagnostic's message; the two struct diagnostics start with the
        struct's name. */
    function Message(): (m: string)
      ensures !NotAttachedToStruct? ==> |structName| < |m| && m[..|structName|] == structName
    {
      match this
      case NotAttachedToStruct => "HotReload macro must be attached to a struct"
      case MissingViewConformance(name) => name + " must conform to the View protocol"
      case MissingViewBody(name) => name + " must have a view body"
    }
  }

  /** A member the macro adds. Every member carries its access modifier. */
  datatype GeneratedMember =
      /** `@<wrapper> <access> var <name>` */
    | WrappedProperty(wrapper: string, access: Option<TokenKind>, name: string)
      /** `<access> typealias <name> = <aliased>` */
    | TypeAlias(access: Option<TokenKind>, name: string, aliased: string)
      /** `<attributes> <access> var <name>: <typeName> { <result> }` */
    | ComputedProperty(attributes: seq<string>, access: Option<TokenKind>, name: string,
                       typeName: string, result: string)

  /** A block of generated members guarded by `#if <condition> ... #endif`. */
  datatype GeneratedDecl = IfConfig(condition: string, members: seq<GeneratedMember>)

  /** The result of an expansion: diagnostics reported on the declaration,
      and the declarations added to it. */
  datatype ExpansionResult = ExpansionResult(diagnostics: seq<Diagnostic>, declarations: seq<GeneratedDecl>)

  /** The names the macro's declaration says it introduces (`named(...)`). */
  const IntroducedNames: seq<string> := ["__observeInjection", "Body", "__body"]

  function MemberName(m: GeneratedMember): string {
    m.name
  }

  /** The debug-only block of three members, with `access` on the type alias
      and on `__body`; the observation property is always private. */
  function HotReloadBlock(access: Option<TokenKind>): (g: GeneratedDecl)
    ensures g.condition == "DEBUG" && |g.members| == 3
    ensures g.members[0].WrappedProperty? && g.members[0].access == Some(KeywordToken(Private))
    ensures g.members[0].wrapper == "ObserveInjection"
    ensures g.members[1].TypeAlias? && g.members[1].access == access && g.members[1].aliased == "AnyView"
    ensures g.members[2].ComputedProperty? && g.members[2].access == access
    ensures g.members[2].typeName == g.members[1].aliased
    ensures g.members[2].result == "AnyView(body)"
    ensures "@_implements(View, body)" in g.members[2].attributes
    ensures forall k :: 0 <= k < 3 ==> MemberName(g.members[k]) == IntroducedNames[k]
  {
    IfConfig("DEBUG", [
      WrappedProperty("ObserveInjection", Some(KeywordToken(Private)), "__observeInjection"),
      TypeAlias(access, "Body", "AnyView"),
      ComputedProperty(["@_implements(View, body)", "@_disfavoredOverload", "@ViewBuilder"],
                       access, "__body", "AnyView", "AnyView(body)")
    ])
  }

  /** The text placed before `typealias` and `var __body`: the access keyword
      followed by one space, or nothing. */
  function AccessPrefix(access: Option<TokenKind>): (s: string)
    requires access.Some? ==> IsVisibilityKeyword(access.value)
    ensures access.None? <==> s == ""
    ensures access.Some? ==> |s| >= 5 && s[|s| - 1] == ' ' && ' ' !in s[..|s| - 1]
    ensures access.Some? ==> s[..|s| - 1] == VisibilitySpelling(access.value.keyword)
  {
    match access
    case None => ""
    case Some(t) =>
      var s := VisibilitySpelling(t.keyword) + " ";
      assert s[..|s| - 1] == VisibilitySpelling(t.keyword);
      s
  }

  // ---------------------------------------------------------------------
  // The expansion
  // ---------------------------------------------------------------------

  /** The member-macro expansion: three guards in order, the first failure
      giving exactly one diagnostic and nothing else; otherwise one block. */
  function Expansion(d: Decl): (r: ExpansionResult)
    ensures |r.diagnostics| + |r.declarations| == 1
    ensures !d.StructDecl? ==> r.diagnostics == [NotAttachedToStruct]
    ensures d.StructDecl? && !ConformsToView(d.inheritance) ==>
              r.diagnostics == [MissingViewConformance(d.name)]
    ensures d.StructDecl? && ConformsToView(d.inheritance) && !HasViewBody(d.members) ==>
              r.diagnostics == [MissingViewBody(d.name)]
    ensures r.declarations != [] <==> Expandable(d)
    ensures Expandable(d) ==> r.declarations == [HotReloadBlock(FirstVisibility(d.modifiers))]
  {
    match d
    case OtherDecl(_) =>
      ExpansionResult([NotAttachedToStruct], [])
    case StructDecl(name, inheritance, modifiers, members) =>
      if !(inheritance.Some? && ContainsViewType(inheritance.value)) then
        ExpansionResult([MissingViewConformance(name)], [])
      else if !HasBodyProperty(members) then
        ExpansionResult([MissingViewBody(name)], [])
      else
        ExpansionResult([], [HotReloadBlock(FirstVisibility(modifiers))])
  }
}
