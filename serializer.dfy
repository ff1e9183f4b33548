/** The filter-expression serializer (getFilters in src/index.ts): renders a
    filter tree as the compact string the API reads as its `filters`
    parameter. A comparison renders as property, operator and value; a
    group joins its children's renderings with its combinator; a nested group
    is parenthesised exactly when it has more than one child; the root group
    adds no parentheses of its own. */
module Serializer {
  import opened Strings
  import opened Types

  function ComparisonToken(n: FilterNode): (t: string)
    ensures |t| == 2 && t[1] == '='
  {
    if n.Equals? then "==" else "!="
  }

  /** The rendered value of a comparison: the string itself, or the any-of
      values joined with the any-of combinator. */
  function ValueText(n: FilterNode): string
  {
    match n
    case NotEquals(_, t) => t
    case Equals(_, Plain(t)) => t
    case Equals(_, AnyOf(op, vs)) => Join(vs, AnyOfToken(op))
  }

  /** A comparison: its property name, then its two-character operator
      token, then its value. */
  function LeafText(n: FilterNode): string
  {
    PropertyName(n.property) + ComparisonToken(n) + ValueText(n)
  }

  /** getFilters: the children's renderings joined with the group's
      combinator. */
  function Serialize(g: Filters): string
    decreases g, 1
  {
    Join(ChildTexts(g), [CombinatorChar(g.operator)])
  }

  /** The rendering of each child of `g`, in order. */
  function ChildTexts(g: Filters): (r: seq<string>)
    ensures |r| == |g.children|
    decreases g, 0
  {
    seq(|g.children|, i requires 0 <= i < |g.children| => ChildText(g.children[i]))
  }

  /** How a child appears inside its parent's rendering. */
  function ChildText(c: Child): string
    decreases c, 2
  {
    match c
    case Leaf(n) => LeafText(n)
    case Nested(h) => if |h.children| > 1 then "(" + Serialize(h) + ")" else Serialize(h)
  }

  // ---------------------------------------------------------------------
  // Comparisons

  /** A `!=` comparison renders as property, "!=" and its string. */
  lemma NotEqualsRendering(op: Combinator, p: Property, v: string)
    ensures Serialize(Filters(op, [Leaf(NotEquals(p, v))])) == PropertyName(p) + "!=" + v
  {
    SingleChildGroup(op, Leaf(NotEquals(p, v)));
  }

  /** An `==` comparison with an any-of list renders as property, "==" and
      the values joined with "|", with no parentheses around the list. */
  lemma AnyOfRendering(op: Combinator, p: Property, vs: seq<string>)
    ensures Serialize(Filters(op, [Leaf(Equals(p, AnyOf(Pipe, vs)))])) == PropertyName(p) + "==" + Join(vs, "|")
  {
    SingleChildGroup(op, Leaf(Equals(p, AnyOf(Pipe, vs))));
  }

  /** An any-of list of one value renders as that plain value. */
  lemma SingletonAnyOf(p: Property, v: string)
    ensures LeafText(Equals(p, AnyOf(Pipe, [v]))) == LeafText(Equals(p, Plain(v)))
  {
  }

  // ---------------------------------------------------------------------
  // Groups

  /** A group without children renders as the empty string, at the root
      and nested. */
  lemma EmptyGroup(op: Combinator)
    ensures Serialize(Filters(op, [])) == ""
    ensures ChildText(Nested(Filters(op, []))) == ""
  {
  }

  /** A group with one child renders as that child, whatever its
      combinator, and adds no parentheses when nested. */
  lemma SingleChildGroup(op: Combinator, c: Child)
    ensures Serialize(Filters(op, [c])) == ChildText(c)
    ensures ChildText(Nested(Filters(op, [c]))) == ChildText(c)
  {
    assert ChildTexts(Filters(op, [c])) == [ChildText(c)];
  }

  /** Splitting a group's children in two splits its rendering at one
      combinator token. */
  lemma GroupConcat(op: Combinator, cs1: seq<Child>, cs2: seq<Child>)
    requires |cs1| > 0 && |cs2| > 0
    ensures Serialize(Filters(op, cs1 + cs2))
         == Serialize(Filters(op, cs1)) + [CombinatorChar(op)] + Serialize(Filters(op, cs2))
  {
    var t, t1, t2 := ChildTexts(Filters(op, cs1 + cs2)), ChildTexts(Filters(op, cs1)), ChildTexts(Filters(op, cs2));
    assert t == t1 + t2;
    JoinAppend(t1, t2, [CombinatorChar(op)]);
  }

  // ---------------------------------------------------------------------
  // Parenthesisation

  /** No rendered value anywhere in the tree contains a parenthesis. */
  ghost predicate ValuesNoParens(g: Filters)
    decreases g, 1
  {
    forall i :: 0 <= i < |g.children| ==> ChildValuesNoParens(g.children[i])
  }

  ghost predicate ChildValuesNoParens(c: Child)
    decreases c, 2
  {
    match c
    case Leaf(n) => NoParens(ValueText(n))
    case Nested(h) => ValuesNoParens(h)
  }

  lemma LeafNoParens(n: FilterNode)
    requires NoParens(ValueText(n))
    ensures NoParens(LeafText(n))
  {
    PropertyNameChars(n.property);
    var a, b, v := PropertyName(n.property), ComparisonToken(n), ValueText(n);
    forall i | 0 <= i < |a + b + v|
      ensures (a + b + v)[i] != '(' && (a + b + v)[i] != ')'
    {
      if i < |a| {
        assert (a + b + v)[i] == a[i];
        assert NameChar(a[i]);
      } else if i < |a| + |b| {
        assert (a + b + v)[i] == b[i - |a|];
      } else {
        assert (a + b + v)[i] == v[i - |a| - |b|];
      }
    }
  }

  /** With parenthesis-free values, every rendering is balanced. */
  lemma {:induction false} SerializeBalanced(g: Filters)
    requires ValuesNoParens(g)
    ensures Balanced(Serialize(g))
    decreases g, 1
  {
    var ts := ChildTexts(g);
    forall i | 0 <= i < |ts|
      ensures Balanced(ts[i])
    {
      ChildBalanced(g.children[i]);
    }
    var sep := [CombinatorChar(g.operator)];
    assert NoParens(sep);
    JoinBalanced(ts, sep);
  }

  lemma {:induction false} ChildBalanced(c: Child)
    requires ChildValuesNoParens(c)
    ensures Balanced(ChildText(c))
    decreases c, 2
  {
    match c
    case Leaf(n) =>
      LeafNoParens(n);
      NoParensBalanced(LeafText(n));
    case Nested(h) =>
      SerializeBalanced(h);
      if |h.children| > 1 {
        Wrapped(Serialize(h));
      }
  }

  /** A nested group with two or more children appears in its parent
      wrapped in one pair of parentheses. When no value holds a
      parenthesis, the opening parenthesis is closed by the last character
      and by no earlier one. */
  lemma NestedGroupParenthesised(g: Filters)
    requires |g.children| > 1
    requires ValuesNoParens(g)
    ensures ChildText(Nested(g)) == "(" + Serialize(g) + ")"
    ensures Balanced(ChildText(Nested(g)))
    ensures forall k :: 0 < k < |ChildText(Nested(g))| ==> Depth(ChildText(Nested(g))[..k]) > 0
  {
    SerializeBalanced(g);
    Wrapped(Serialize(g));
  }

  // ---------------------------------------------------------------------
  // The root: children joined by the root's combinator, unwrapped

  /** The leaves that reach the top level of a rendering (directly, or
      through chains of single-child groups) have values without `c`. */
  ghost predicate ChildTopClean(c: Child, ch: char)
    decreases c
  {
    match c
    case Leaf(n) => forall i :: 0 <= i < |ValueText(n)| ==> ValueText(n)[i] != ch
    case Nested(h) => |h.children| != 1 || ChildTopClean(h.children[0], ch)
  }

  lemma LeafWithout(n: FilterNode, ch: char)
    requires ch == ';' || ch == '|'
    requires forall i :: 0 <= i < |ValueText(n)| ==> ValueText(n)[i] != ch
    ensures forall i :: 0 <= i < |LeafText(n)| ==> LeafText(n)[i] != ch
  {
    PropertyNameChars(n.property);
    var a, b, v := PropertyName(n.property), ComparisonToken(n), ValueText(n);
    forall i | 0 <= i < |a + b + v|
      ensures (a + b + v)[i] != ch
    {
      if i < |a| {
        assert (a + b + v)[i] == a[i];
        assert NameChar(a[i]);
      } else if i < |a| + |b| {
        assert (a + b + v)[i] == b[i - |a|];
      } else {
        assert (a + b + v)[i] == v[i - |a| - |b|];
      }
    }
  }

  /** A child's rendering is balanced and has the combinator `ch` at depth
      zero nowhere. */
  lemma {:induction false} ChildPiece(c: Child, ch: char)
    requires ch == ';' || ch == '|'
    requires ChildValuesNoParens(c) && ChildTopClean(c, ch)
    ensures Balanced(ChildText(c))
    ensures Depth(ChildText(c)) == 0 && NoTopLevel(ChildText(c), ch, 0)
    decreases c
  {
    ChildBalanced(c);
    match c
    case Leaf(n) =>
      LeafWithout(n, ch);
    case Nested(h) =>
      if |h.children| > 1 {
        NestedGroupParenthesised(h);
        var t := ChildText(c);
        assert t[0] == '(' && t[|t| - 1] == ')';
      } else if |h.children| == 1 {
        assert h == Filters(h.operator, [h.children[0]]);
        SingleChildGroup(h.operator, h.children[0]);
        ChildPiece(h.children[0], ch);
      }
  }

  /** The root's rendering, split at its own combinator outside
      parentheses, gives back its children's renderings one by one: the
      combinator tokens at depth zero are exactly the boundaries between
      children, and the root adds no parentheses of its own. */
  lemma RootPieces(g: Filters)
    requires |g.children| > 0
    requires ValuesNoParens(g)
    requires forall i :: 0 <= i < |g.children| ==> ChildTopClean(g.children[i], CombinatorChar(g.operator))
    ensures SplitTop(Serialize(g), CombinatorChar(g.operator)) == ChildTexts(g)
  {
    var ch := CombinatorChar(g.operator);
    var ts := ChildTexts(g);
    forall i | 0 <= i < |ts|
      ensures Depth(ts[i]) == 0 && NoTopLevel(ts[i], ch, 0)
    {
      ChildPiece(g.children[i], ch);
    }
    SplitTopJoin(ts, ch);
  }

  // ---------------------------------------------------------------------
  // Single-child groups are transparent

  /** Replaces every nested single-child group by its child. */
  function Collapse(g: Filters): (r: Filters)
    ensures r.operator == g.operator && |r.children| == |g.children|
    decreases g, 1
  {
    Filters(g.operator, seq(|g.children|, i requires 0 <= i < |g.children| => CollapseChild(g.children[i])))
  }

  function CollapseChild(c: Child): Child
    decreases c, 2
  {
    match c
    case Leaf(_) => c
    case Nested(h) => if |h.children| == 1 then CollapseChild(h.children[0]) else Nested(Collapse(h))
  }

  /** No nested group has exactly one child. */
  ghost predicate NoSingletons(g: Filters)
    decreases g, 1
  {
    forall i :: 0 <= i < |g.children| ==> ChildNoSingletons(g.children[i])
  }

  ghost predicate ChildNoSingletons(c: Child)
    decreases c, 2
  {
    match c
    case Leaf(_) => true
    case Nested(h) => |h.children| != 1 && NoSingletons(h)
  }

  /** Collapsing single-child groups leaves the rendering unchanged and
      leaves none behind. */
  lemma {:induction false} CollapsePreservesRendering(g: Filters)
    ensures Serialize(Collapse(g)) == Serialize(g)
    ensures NoSingletons(Collapse(g))
    decreases g, 1
  {
    var r := Collapse(g);
    forall i | 0 <= i < |g.children|
      ensures ChildText(r.children[i]) == ChildText(g.children[i])
      ensures ChildNoSingletons(r.children[i])
    {
      CollapseChildPreservesRendering(g.children[i]);
    }
    assert ChildTexts(r) == ChildTexts(g);
  }

  lemma {:induction false} CollapseChildPreservesRendering(c: Child)
    ensures ChildText(CollapseChild(c)) == ChildText(c)
    ensures ChildNoSingletons(CollapseChild(c))
    decreases c, 2
  {
    match c
    case Leaf(_) =>
    case Nested(h) =>
      if |h.children| == 1 {
        CollapseChildPreservesRendering(h.children[0]);
        assert h == Filters(h.operator, [h.children[0]]);
        SingleChildGroup(h.operator, h.children[0]);
      } else {
        CollapsePreservesRendering(h);
      }
  }

  // ---------------------------------------------------------------------
  // Scenarios

  /** The filter tree of the repository's test: page is any of two
      patterns, and hostname is "socket.dev". */
  function TestFilters(): Filters
  {
    Filters(And, [
      Leaf(Equals(EventPage, AnyOf(Pipe, ["/dashboard*", "/love*"]))),
      Leaf(Equals(EventHostname, Plain("socket.dev")))
    ])
  }

  /** The test's any-of comparison on the page. */
  lemma PageLeafText()
    ensures LeafText(Equals(EventPage, AnyOf(Pipe, ["/dashboard*", "/love*"]))) == "event:page==/dashboard*|/love*"
  {
    JoinPair("/dashboard*", "/love*", "|");
    assert PropertyName(EventPage) == "event:page";
  }

  /** The test's plain comparison on the hostname. */
  lemma HostnameLeafText()
    ensures LeafText(Equals(EventHostname, Plain("socket.dev"))) == "event:hostname==socket.dev"
  {
    assert PropertyName(EventHostname) == "event:hostname";
  }

  /** The test's two comparisons render as its two pieces. */
  lemma TestFiltersPieces()
    ensures ChildTexts(TestFilters()) == ["event:page==/dashboard*|/love*", "event:hostname==socket.dev"]
  {
    PageLeafText();
    HostnameLeafText();
  }

  /** The test's filters are its two pieces around the AND token. */
  lemma TestFiltersJoined()
    ensures Serialize(TestFilters()) == "event:page==/dashboard*|/love*" + ";" + "event:hostname==socket.dev"
  {
    TestFiltersPieces();
    JoinPair("event:page==/dashboard*|/love*", "event:hostname==socket.dev", ";");
  }

  /** The test's filters render as the string the API expects for them. */
  lemma TestFiltersRendering()
    ensures Serialize(TestFilters()) == "event:page==/dashboard*|/love*;event:hostname==socket.dev"
  {
    var a, b := "event:page==/dashboard*|/love*", "event:hostname==socket.dev";
    assert a + ";" + b == "event:page==/dashboard*|/love*;event:hostname==socket.dev";
    TestFiltersJoined();
  }

  /** A group of two children renders as their renderings around one
      combinator token. */
  lemma TwoChildGroup(op: Combinator, c1: Child, c2: Child)
    ensures Serialize(Filters(op, [c1, c2])) == ChildText(c1) + [CombinatorChar(op)] + ChildText(c2)
  {
    assert ChildTexts(Filters(op, [c1, c2])) == [ChildText(c1), ChildText(c2)];
    JoinPair(ChildText(c1), ChildText(c2), [CombinatorChar(op)]);
  }

  /** An AND group of two comparisons, for the scenario below. */
  function OsAndDevice(): Filters
  {
    Filters(And, [Leaf(Equals(VisitOs, Plain("Mac"))), Leaf(NotEquals(VisitDevice, "Tablet"))])
  }

  /** Its two comparisons around the AND token. */
  lemma OsAndDeviceJoined()
    ensures Serialize(OsAndDevice()) == "visit:os==Mac" + ";" + "visit:device!=Tablet"
  {
    var os, device := Leaf(Equals(VisitOs, Plain("Mac"))), Leaf(NotEquals(VisitDevice, "Tablet"));
    assert ChildText(os) == "visit:os==Mac" by {
      assert PropertyName(VisitOs) == "visit:os";
    }
    assert ChildText(device) == "visit:device!=Tablet" by {
      assert PropertyName(VisitDevice) == "visit:device";
    }
    TwoChildGroup(And, os, device);
  }

  lemma OsAndDeviceRendering()
    ensures Serialize(OsAndDevice()) == "visit:os==Mac;visit:device!=Tablet"
  {
    var a, b := "visit:os==Mac", "visit:device!=Tablet";
    assert a + ";" + b == "visit:os==Mac;visit:device!=Tablet";
    OsAndDeviceJoined();
  }

  /** An OR root over that AND group and one more comparison. */
  function MixedFilters(): Filters
  {
    Filters(Or, [Nested(OsAndDevice()), Leaf(Equals(EventGoal, Plain("Signup")))])
  }

  /** The AND group is parenthesised; the root joins it to the comparison
      with its own combinator and adds no parentheses of its own. */
  lemma MixedCombinators()
    ensures Serialize(MixedFilters())
         == "(" + Serialize(OsAndDevice()) + ")" + "|" + LeafText(Equals(EventGoal, Plain("Signup")))
  {
    assert |OsAndDevice().children| == 2;
    TwoChildGroup(Or, Nested(OsAndDevice()), Leaf(Equals(EventGoal, Plain("Signup"))));
  }

  /** A root whose only child is a two-child group shows that group's
      parentheses: the root adds none of its own, and removes none. */
  lemma RootOverNestedGroup()
    ensures Serialize(Filters(Or, [Nested(OsAndDevice())])) == "(" + Serialize(OsAndDevice()) + ")"
  {
    assert |OsAndDevice().children| == 2;
    SingleChildGroup(Or, Nested(OsAndDevice()));
  }

  /** A root with a single comparison renders as that comparison alone. */
  lemma SingleComparisonRoot()
    ensures Serialize(Filters(Or, [Leaf(NotEquals(VisitBrowser, "Safari"))])) == "visit:browser!=Safari"
  {
  }
}
