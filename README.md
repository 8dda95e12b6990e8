# HotReload member macro — Dafny model

The `@HotReload` macro of the Inject package adds hot-reload boilerplate to a
SwiftUI view: an `@ObserveInjection` property, a `Body = AnyView` type alias
and an `__body` accessor that wraps the original `body` in `AnyView`. Before
it generates anything, the macro checks three things in a fixed order:

1. the declaration is a struct;
2. the struct's own inheritance clause lists `View` or `SwiftUI.View`;
3. the struct has a `var body: some View` (or `some SwiftUI.View`) binding.

The first check that fails gives exactly one diagnostic and no generated code.
When all three pass, the macro copies the struct's first access-control
modifier onto the type alias and the accessor, and returns one `#if DEBUG`
block.

The model is pure, like the Swift code:

- `wrappers.dfy` (module `Wrappers`): `Option`.
- `syntax.dfy` (module `Syntax`): an abstract syntax tree standing in for
  SwiftSyntax. It covers tokens and keywords, type references, patterns,
  bindings, members, modifiers and declarations. It also holds
  `TokenKind.isVisibilityKeyword`.
- `hot_reload_macro.dfy` (module `HotReloadMacro`): the guards `isViewType`
  and `hasBodyProperty`, the access-modifier lookup, the diagnostics, the
  generated block and `expansion`. Each guard is proved equal to a reference
  predicate that lists the accepted shapes outright (`NamesView`,
  `IsSomeViewAnnotation`, `HasViewBody`, …). `Expansion`'s contract is stated
  with those predicates.
- `hot_reload_properties.dfy` (module `HotReloadProperties`): lemmas that
  relate several calls (where the access modifier comes from, what the output
  depends on, how to tell diagnostics apart) and concrete declarations.

`expansion` also receives the attribute node, the list of protocols and the
expansion context. It never reads the node or the protocols, and it uses the
context only to report diagnostics. `Expansion` therefore takes just the
declaration and returns its diagnostics as a list. Each diagnostic is attached
to the declaration node, so the model keeps only the diagnostic's kind and
message.

Three points of the generated code's behaviour:

- The expansion returns one generated declaration: a `#if DEBUG … #endif`
  block holding three members (HotReloadMacro.swift:103-119).
- `__observeInjection` is always `private` (line 107). Only the type alias
  and `__body` take the struct's access modifier.
- The access modifier used is the first access-control keyword among the
  modifiers (line 100). Later ones are ignored, not rejected.

## Model

| member | source | states |
|---|---|---|
| `Syntax.IsVisibilityKeyword` | Sources/HotReloadMacro/HotReloadMacro.swift:16-30 | true exactly for the keyword tokens `public`, `private`, `fileprivate`, `internal`, `package`, `open`; false for every other keyword, identifier or token |
| `Syntax.VisibilitySpelling` | Sources/HotReloadMacro/HotReloadMacro.swift:19-24 | each access-control keyword is spelled as one of the six Swift keywords, with no space in it (that distinct keywords get distinct spellings is `VisibilitySpellingInjective`) |
| `HotReloadMacro.IsViewType` | Sources/HotReloadMacro/HotReloadMacro.swift:34-45 | accepts exactly the bare identifier type `View` and the member type `View` whose trimmed base text is `SwiftUI`; `Foo.View`, `some View` and every other form are rejected |
| `HotReloadMacro.ContainsViewType` | Sources/HotReloadMacro/HotReloadMacro.swift:85 | true iff some type of the inheritance list is `View` or `SwiftUI.View` |
| `HotReloadMacro.IsBodyBinding` | Sources/HotReloadMacro/HotReloadMacro.swift:53-65 | a binding qualifies iff its pattern is the identifier `body` and its annotation is exactly `some View` or `some SwiftUI.View`; `any`, a missing annotation or any other pattern fails |
| `HotReloadMacro.ContainsBodyBinding` | Sources/HotReloadMacro/HotReloadMacro.swift:53 | true iff some binding of a variable declaration qualifies as the view body |
| `HotReloadMacro.HasBodyProperty` | Sources/HotReloadMacro/HotReloadMacro.swift:47-67 | true iff some member is a variable declaration that has a qualifying `body` binding; other kinds of member never qualify |
| `HotReloadMacro.FirstVisibility` | Sources/HotReloadMacro/HotReloadMacro.swift:100 | none iff no modifier is an access-control keyword; otherwise the token of the first such modifier, with none before it |
| `HotReloadMacro.Diagnostic.Message` | Sources/HotReloadMacro/HotReloadMacro.swift:78-98 | the conformance and body messages start with the struct's name (that distinct diagnostics have distinct messages is `MessageDeterminesDiagnostic`) |
| `HotReloadMacro.HotReloadBlock` | Sources/HotReloadMacro/HotReloadMacro.swift:103-119 | one `#if DEBUG` block of three members in fixed order. First the private `__observeInjection` property, with the `ObserveInjection` wrapper, then `typealias Body = AnyView`, then `__body` of type `AnyView` marked `@_implements(View, body)` and returning `AnyView(body)`. The alias and `__body` carry the given access modifier. The names match the `named(...)` list of the macro's declaration |
| `HotReloadMacro.AccessPrefix` | Sources/HotReloadMacro/HotReloadMacro.swift:100-101 | with no modifier the prefix is empty; otherwise it is that keyword's own spelling followed by exactly one space |
| `HotReloadMacro.Expansion` | Sources/HotReloadMacro/HotReloadMacro.swift:69-120 | always exactly one diagnostic or exactly one generated declaration, never both. The checks run in order: a non-struct gets the struct diagnostic; a struct without `View` in its own clause gets the conformance diagnostic naming it, whatever its members; a conforming struct without a view body gets the body diagnostic naming it. Output is produced iff all three checks pass, and it is the block for the first access-control modifier |
| `HotReloadProperties.FirstVisibilityAtUnique` | Sources/HotReloadMacro/HotReloadMacro.swift:100 | there is at most one first access-control modifier |
| `HotReloadProperties.FirstVisibilityConcat` | Sources/HotReloadMacro/HotReloadMacro.swift:100 | in `a + b` the lookup finds `a`'s first access keyword if `a` has one, otherwise `b`'s |
| `HotReloadProperties.VisibilityPropagated` | Sources/HotReloadMacro/HotReloadMacro.swift:100-114 | when the first access keyword is at index `i`, the type alias and `__body` both carry exactly that token, rendered as the keyword plus a space, while `__observeInjection` stays `private` |
| `HotReloadProperties.NoVisibilityNoPrefix` | Sources/HotReloadMacro/HotReloadMacro.swift:100-114 | with no access keyword, the alias and `__body` have no modifier and an empty prefix; `__observeInjection` is still `private` |
| `HotReloadProperties.OutputDependsOnlyOnVisibility` | Sources/HotReloadMacro/HotReloadMacro.swift:100-119 | two valid structs with the same first access keyword expand identically, whatever their names, conformances, other modifiers and members |
| `HotReloadProperties.MessageDeterminesDiagnostic` | Sources/HotReloadMacro/HotReloadMacro.swift:79-96 | equal messages come from the same diagnostic kind and the same struct name |
| `HotReloadProperties.VisibilitySpellingInjective` | Sources/HotReloadMacro/HotReloadMacro.swift:19-24 | two access-control keywords with the same spelling are the same keyword |
| `HotReloadProperties.AccessPrefixDeterminesModifier` | Sources/HotReloadMacro/HotReloadMacro.swift:100-101 | the rendered prefix determines the access modifier it was rendered from; none and a keyword never give the same prefix |
| `HotReloadProperties.AbsentClauseLikeEmptyClause` | Sources/HotReloadMacro/HotReloadMacro.swift:84-88 | a struct with no inheritance clause is treated exactly like one with an empty clause: it gets only the conformance diagnostic (a conformance declared in an extension is not seen) |
| `HotReloadProperties.ConformanceCheckedFirst` | Sources/HotReloadMacro/HotReloadMacro.swift:85-98 | when no listed type names `View`, the only diagnostic is the conformance one, whatever the members |
| `HotReloadProperties.PlainViewExpands` | Sources/HotReloadMacro/HotReloadMacro.swift:103-119 | `struct Foo: View { var body: some View }` gives no diagnostic, one block and no access prefix |
| `HotReloadProperties.PublicViewExpands` | Sources/HotReloadMacro/HotReloadMacro.swift:100-114 | `public struct Foo: SwiftUI.View` with a view body gets `public ` on the alias and on `__body` |
| `HotReloadProperties.FirstAccessKeywordWins` | Sources/HotReloadMacro/HotReloadMacro.swift:100 | with modifiers `final public private`, the block carries `public` |
| `HotReloadProperties.EnumRejected` | Sources/HotReloadMacro/HotReloadMacro.swift:78-81 | any enum declaration gets only "HotReload macro must be attached to a struct" and no output |
| `HotReloadProperties.NoConformanceRejected` | Sources/HotReloadMacro/HotReloadMacro.swift:84-88 | `struct Foo` with a view body but no clause gets only the conformance diagnostic, whose message starts with `Foo` |
| `HotReloadProperties.ForeignViewRejected` | Sources/HotReloadMacro/HotReloadMacro.swift:39-42 | conforming to `Bar.View` is not conforming to `View` |
| `HotReloadProperties.AnyViewBodyRejected` | Sources/HotReloadMacro/HotReloadMacro.swift:58-59 | `var body: any View` is not a view body |
| `HotReloadProperties.UnannotatedBodyRejected` | Sources/HotReloadMacro/HotReloadMacro.swift:57 | a `body` with no type annotation is not a view body |
| `HotReloadProperties.QualifiedBodyInLaterBindingAccepted` | Sources/HotReloadMacro/HotReloadMacro.swift:47-67 | a `body: some SwiftUI.View` binding is found after another member and after another binding of the same declaration |

Identical input gives identical output for every function here, since Dafny
functions are deterministic. No separate lemma states it.

## Left out

- SwiftSyntax is replaced by the datatypes of `Syntax`. Trivia, source
  locations and node `description` text are not modelled.
- The trimming of the member type's base text is not modelled:
  `MemberType.baseText` holds the text already trimmed of whitespace and
  newlines.
- The struct name in a diagnostic is its identifier text. Any trivia the name
  token would bring into the interpolated message is not modelled.
- Trimming the access modifier and setting its trailing trivia to one space
  is modelled as `AccessPrefix`. Other trivia is not modelled.
- `MacroExpansionContext.diagnose` is a host effect. Diagnostics are returned
  as a list; the node each one is attached to (always the declaration) is not
  recorded.
- The generated code is a structured record (`GeneratedDecl`), not Swift
  source text. The byte-exact template, its blank lines and its re-parsing by
  the compiler are not modelled.
- The plugin entry point `MyMacroPlugin` (Sources/HotReloadMacro/HotReloadMacro.swift:123-128)
  and the `#if HotReloadMacro` / `#if !os(watchOS)` gating are host
  registration and build configuration.
- Package.swift is build configuration only. Sources/Inject/HotReload.swift is
  used only for the member names it declares (`IntroducedNames`).
- The runtime behaviour of `ObserveInjection` and `AnyView` belongs to the UI
  framework and is not part of this model.
- `HotReloadProperties.NoConformanceRejected`: states only that the message
  starts with the struct's name. The full message text is given by
  `Diagnostic.Message`'s definition, not by this lemma.
