/**
  Properties of the HotReload expansion that relate several calls or several
  members: where the access modifier comes from, which diagnostics can be
  told apart, and the behaviour on typical declarations.
 */
module HotReloadProperties {
  import opened Wrappers
  import opened Syntax
  import opened HotReloadMacro

  // ---------------------------------------------------------------------
  // Access control
  // ---------------------------------------------------------------------

  /** At most one index is the first access-control modifier. */
  lemma FirstVisibilityAtUnique(mods: seq<Modifier>, i: int, j: int)
    requires FirstVisibilityAt(mods, i) && FirstVisibilityAt(mods, j)
    ensures i == j
  {
  }

  /** Looking for the first access-control modifier in `a + b` finds the one in
      `a` if there is one, and otherwise the one in `b`. */
  lemma {:induction false} FirstVisibilityConcat(a: seq<Modifier>, b: seq<Modifier>)
    ensures FirstVisibility(a + b) == if FirstVisibility(a).Some? then FirstVisibility(a) else FirstVisibility(b)
  {
    if a != [] {
      assert (a + b)[0] == a[0];
      assert (a + b)[1..] == a[1..] + b;
      if !IsVisibilityKeyword(a[0].name) {
        FirstVisibilityConcat(a[1..], b);
      }
    } else {
      assert a + b == b;
    }
  }

  /** Visibility propagation: when the declaration's first access-control
      modifier is at index `i`, the type alias and `__body` carry exactly that
      keyword, rendered as the keyword and one space, while
      `__observeInjection` stays private. */
  lemma VisibilityPropagated(d: Decl, i: int)
    requires Expandable(d) && FirstVisibilityAt(d.modifiers, i)
    ensures |Expansion(d).declarations| == 1
    ensures var g := Expansion(d).declarations[0];
      && g.members[0].access == Some(KeywordToken(Private))
      && g.members[1].access == Some(d.modifiers[i].name)
      && g.members[2].access == Some(d.modifiers[i].name)
      && AccessPrefix(g.members[1].access) == VisibilitySpelling(d.modifiers[i].name.keyword) + " "
  {
  }

  /** With no access-control modifier, the type alias and `__body` get no
      prefix at all, and `__observeInjection` is still private. */
  lemma NoVisibilityNoPrefix(d: Decl)
    requires Expandable(d)
    requires forall i :: 0 <= i < |d.modifiers| ==> !IsVisibilityKeyword(d.modifiers[i].name)
    ensures |Expansion(d).declarations| == 1
    ensures var g := Expansion(d).declarations[0];
      && g.members[0].access == Some(KeywordToken(Private))
      && g.members[1].access == None && g.members[2].access == None
      && AccessPrefix(g.members[1].access) == "" && AccessPrefix(g.members[2].access) == ""
  {
  }

  /** The generated block depends on nothing but the first access-control
      modifier: not on the struct's name, other modifiers, conformances or members. */
  lemma OutputDependsOnlyOnVisibility(d1: Decl, d2: Decl)
    requires Expandable(d1) && Expandable(d2)
    requires FirstVisibility(d1.modifiers) == FirstVisibility(d2.modifiers)
    ensures Expansion(d1) == Expansion(d2)
  {
  }

  // ---------------------------------------------------------------------
  // Diagnostics
  // ---------------------------------------------------------------------

  /** A diagnostic's message determines its kind and the struct it names. */
  lemma MessageDeterminesDiagnostic(x: Diagnostic, y: Diagnostic)
    requires x.Message() == y.Message()
    ensures x == y
  {
    var m := x.Message();
    assert m[|m| - 1] == y.Message()[|m| - 1];
    if x.MissingViewConformance? && y.MissingViewConformance? {
      var suffix := " must conform to the View protocol";
      assert m == x.structName + suffix && m == y.structName + suffix;
      assert x.structName == m[..|m| - |suffix|] == y.structName;
    } else if x.MissingViewBody? && y.MissingViewBody? {
      var suffix := " must have a view body";
      assert m == x.structName + suffix && m == y.structName + suffix;
      assert x.structName == m[..|m| - |suffix|] == y.structName;
    }
  }

  /** Distinct access-control keywords are spelled differently. */
  lemma VisibilitySpellingInjective(j: Keyword, k: Keyword)
    requires j in VisibilityKeywords && k in VisibilityKeywords
    requires VisibilitySpelling(j) == VisibilitySpelling(k)
    ensures j == k
  {
  }

  /** The rendered access prefix determines the modifier it came from: the
      text before the space is that keyword's own spelling. */
  lemma AccessPrefixDeterminesModifier(a: Option<TokenKind>, b: Option<TokenKind>)
    requires a.Some? ==> IsVisibilityKeyword(a.value)
    requires b.Some? ==> IsVisibilityKeyword(b.value)
    requires AccessPrefix(a) == AccessPrefix(b)
    ensures a == b
  {
    if a.Some? && b.Some? {
      var s, t := VisibilitySpelling(a.value.keyword), VisibilitySpelling(b.value.keyword);
      assert AccessPrefix(a) == s + " " && AccessPrefix(b) == t + " ";
      assert s == (s + " ")[..|s|];
      assert t == (t + " ")[..|t|];
      VisibilitySpellingInjective(a.value.keyword, b.value.keyword);
    }
  }

  /** A struct without an inheritance clause is rejected exactly like one with
      an empty clause: a conformance declared in an extension is not seen. */
  lemma AbsentClauseLikeEmptyClause(name: string, mods: seq<Modifier>, members: seq<Member>)
    ensures Expansion(StructDecl(name, None, mods, members))
         == Expansion(StructDecl(name, Some([]), mods, members))
         == ExpansionResult([MissingViewConformance(name)], [])
  {
  }

  /** The body guard runs only after the conformance guard: a struct with no
      `View` conformance is reported as such whatever its members are. */
  lemma ConformanceCheckedFirst(name: string, mods: seq<Modifier>, members: seq<Member>, types: seq<TypeRef>)
    requires forall i :: 0 <= i < |types| ==> !NamesView(types[i])
    ensures Expansion(StructDecl(name, Some(types), mods, members)).diagnostics
         == [MissingViewConformance(name)]
  {
  }

  // ---------------------------------------------------------------------
  // Typical declarations
  // ---------------------------------------------------------------------

  /** `var body: some View` */
  function SomeViewBody(): Member {
    VariableDecl([PatternBinding(IdentifierPattern("body"),
                                 Some(SomeOrAnyType(KeywordToken(SomeSpecifier), IdentifierType("View"))))])
  }

  /** `struct Foo: View { var body: some View }` expands to the block with no
      access prefix. */
  lemma PlainViewExpands()
    ensures var r := Expansion(StructDecl("Foo", Some([IdentifierType("View")]), [], [SomeViewBody()]));
      && r.diagnostics == []
      && r.declarations == [HotReloadBlock(None)]
      && AccessPrefix(r.declarations[0].members[1].access) == ""
  {
  }

  /** `public struct Foo: SwiftUI.View { var body: some View }`: both the type
      alias and `__body` are prefixed with `public `. */
  lemma PublicViewExpands()
    ensures var r := Expansion(StructDecl("Foo", Some([MemberType("SwiftUI", "View")]),
                                          [Modifier(KeywordToken(Public))], [SomeViewBody()]));
      && r.diagnostics == []
      && r.declarations == [HotReloadBlock(Some(KeywordToken(Public)))]
      && AccessPrefix(r.declarations[0].members[1].access) == "public "
      && AccessPrefix(r.declarations[0].members[2].access) == "public "
  {
  }

  /** `final public private struct ...`: the first access-control keyword wins
      and other modifiers are skipped. */
  lemma FirstAccessKeywordWins(members: seq<Member>)
    requires HasViewBody(members)
    ensures Expansion(StructDecl("Foo", Some([IdentifierType("View")]),
                                 [Modifier(KeywordToken(Final)), Modifier(KeywordToken(Public)),
                                  Modifier(KeywordToken(Private))], members)).declarations
         == [HotReloadBlock(Some(KeywordToken(Public)))]
  {
  }

  /** Any enum declaration, whatever it conforms to or declares, is rejected
      as not a struct. */
  lemma EnumRejected()
    ensures Expansion(OtherDecl(Enum)) == ExpansionResult([NotAttachedToStruct], [])
    ensures NotAttachedToStruct.Message() == "HotReload macro must be attached to a struct"
  {
  }

  /** `struct Foo { var body: some View }` is reported as missing the conformance,
      and the message names `Foo`. */
  lemma NoConformanceRejected()
    ensures Expansion(StructDecl("Foo", None, [], [SomeViewBody()]))
         == ExpansionResult([MissingViewConformance("Foo")], [])
    ensures MissingViewConformance("Foo").Message()[..3] == "Foo"
  {
  }

  /** `struct Foo: Bar.View` does not count as conforming to `View`. */
  lemma ForeignViewRejected()
    ensures Expansion(StructDecl("Foo", Some([MemberType("Bar", "View")]), [], [SomeViewBody()]))
         == ExpansionResult([MissingViewConformance("Foo")], [])
  {
  }

  /** `struct Foo: View { var body: any View }` is reported as missing a view body. */
  lemma AnyViewBodyRejected()
    ensures var body := VariableDecl([PatternBinding(IdentifierPattern("body"),
                                      Some(SomeOrAnyType(KeywordToken(AnySpecifier), IdentifierType("View"))))]);
      Expansion(StructDecl("Foo", Some([IdentifierType("View")]), [], [body]))
        == ExpansionResult([MissingViewBody("Foo")], [])
  {
  }

  /** A struct whose `body` has no type annotation is reported as missing a view body. */
  lemma UnannotatedBodyRejected()
    ensures var body := VariableDecl([PatternBinding(IdentifierPattern("body"), None)]);
      Expansion(StructDecl("Foo", Some([IdentifierType("View")]), [], [body]))
        == ExpansionResult([MissingViewBody("Foo")], [])
  {
  }

  /** `var title = "", body: some SwiftUI.View` after another member is found. */
  lemma QualifiedBodyInLaterBindingAccepted()
    ensures var body := VariableDecl([PatternBinding(IdentifierPattern("title"), None),
                                      PatternBinding(IdentifierPattern("body"),
                                        Some(SomeOrAnyType(KeywordToken(SomeSpecifier), MemberType("SwiftUI", "View"))))]);
      Expansion(StructDecl("Foo", Some([IdentifierType("Equatable"), IdentifierType("View")]), [],
                           [OtherMember, body])).declarations
        == [HotReloadBlock(None)]
  {
  }
}
