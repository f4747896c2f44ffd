/** What `weak_canonical` promises of every path string. */
module PathTheorems {
  import opened Paths

  // ----- shapes

  predicate Readable(components: seq<Component>) {
    forall i :: 0 <= i < |components| ==> components[i].CurDir? || Proper(components[i])
  }

  /** Relative: ".." only as a leading run. */
  predicate RelativeForm(components: seq<Component>) {
    && AllProper(components)
    && (forall i, j :: 0 <= i < j < |components| && components[j].ParentDir? ==> components[i].ParentDir?)
  }

  /** Absolute: the root, and no "..". */
  predicate AbsoluteForm(components: seq<Component>) {
    && components != [] && components[0].RootDir?
    && AllProper(components[1..])
    && (forall i :: 1 <= i < |components| ==> components[i].Normal?)
  }

  predicate CanonicalForm(absolute: bool, components: seq<Component>) {
    if absolute then AbsoluteForm(components) else RelativeForm(components)
  }

  lemma {:induction false} BodyReadable(s: seq<char>, first: bool)
    ensures Readable(Body(s, first)) && (!first ==> AllProper(Body(s, first)))
    decreases |s|
  {
    var i := Slash(s);
    if i < |s| {
      BodyReadable(s[i+1..], false);
    }
  }

  lemma {:induction false} CanonConcat(absolute: bool, buffer: seq<Component>, a: seq<Component>, b: seq<Component>)
    ensures Canon(absolute, buffer, a + b) == Canon(absolute, Canon(absolute, buffer, a), b)
    decreases |b|
  {
    if b == [] {
      assert a + b == a;
    } else {
      assert (a + b)[..|a + b|-1] == a + b[..|b|-1];
      CanonConcat(absolute, buffer, a, b[..|b|-1]);
    }
  }

  lemma StepKeepsForm(absolute: bool, buffer: seq<Component>, component: Component)
    requires CanonicalForm(absolute, buffer) && (component.CurDir? || Proper(component))
    ensures CanonicalForm(absolute, Canonicalised(absolute, buffer, component))
  {
    if absolute {
      var next := Canonicalised(absolute, buffer, component);
      if component.ParentDir? && buffer != [RootDir] {
        assert next[1..] == buffer[1..][..|buffer|-2];
      } else if component.Normal? {
        assert next[1..] == buffer[1..] + [component];
      }
    }
  }

  lemma {:induction false} CanonKeepsForm(absolute: bool, buffer: seq<Component>, components: seq<Component>)
    requires CanonicalForm(absolute, buffer) && Readable(components)
    ensures CanonicalForm(absolute, Canon(absolute, buffer, components))
  {
    if components != [] {
      var init := components[..|components|-1];
      CanonKeepsForm(absolute, buffer, init);
      StepKeepsForm(absolute, Canon(absolute, buffer, init), components[|components|-1]);
    }
  }

  /** An absolute path starts from the root. */
  lemma FromRoot(path: seq<char>)
    requires IsAbsolute(path)
    ensures CanonicalPath(path) == Canon(true, [RootDir], Body(path[1..], false))
  {
    var body := Body(path[1..], false);
    CanonConcat(true, [], [RootDir], body);
    assert Canon(true, [], [RootDir]) == [RootDir] by {
      assert [RootDir][..0] == [];
    }
  }

  /** Absolute results contain no "..", relative results only as a leading run. */
  lemma CanonicalShape(path: seq<char>)
    ensures CanonicalForm(IsAbsolute(path), CanonicalPath(path))
  {
    if IsAbsolute(path) {
      FromRoot(path);
      BodyReadable(path[1..], false);
      CanonKeepsForm(true, [RootDir], Body(path[1..], false));
    } else {
      BodyReadable(path, true);
      CanonKeepsForm(false, [], Components(path));
    }
  }

  // ----- idempotence

  lemma {:induction false} CanonOfRelative(components: seq<Component>)
    requires RelativeForm(components)
    ensures Canon(false, [], components) == components
  {
    if components != [] {
      var init, last := components[..|components|-1], components[|components|-1];
      CanonOfRelative(init);
      assert components == init + [last];
      if last.ParentDir? {
        assert AllParents(init);
      }
    }
  }

  lemma {:induction false} CanonOfNames(buffer: seq<Component>, names: seq<Component>)
    requires forall i :: 0 <= i < |names| ==> names[i].Normal?
    ensures Canon(true, buffer, names) == buffer + names
  {
    if names != [] {
      CanonOfNames(buffer, names[..|names|-1]);
      assert buffer + names == (buffer + names[..|names|-1]) + [names[|names|-1]];
    }
  }

  lemma RenderReads(absolute: bool, components: seq<Component>)
    requires CanonicalForm(absolute, components)
    ensures Components(Render(components)) == components && IsAbsolute(Render(components)) == absolute
    ensures Render(components) == "" <==> components == []
  {
    hide Body;
    if absolute {
      var rest := components[1..];
      BodyOfJoined(rest, false);
      assert components == [RootDir] + rest;
      assert ("/" + Joined(rest))[1..] == Joined(rest);
    } else {
      BodyOfJoined(components, true);
      if components != [] {
        JoinedStarts(components);
        hide Joined;
      }
    }
  }

  lemma CanonicalIsFixed(absolute: bool, components: seq<Component>)
    requires CanonicalForm(absolute, components)
    ensures Canon(absolute, [], components) == components
    ensures CanonicalPath(Render(components)) == components
  {
    RenderReads(absolute, components);
    if absolute {
      var rest := components[1..];
      assert components == [RootDir] + rest;
      CanonConcat(true, [], [RootDir], rest);
      assert [RootDir][..0] == [];
      assert Canon(true, [], [RootDir]) == [RootDir];
      CanonOfNames([RootDir], rest);
    } else {
      CanonOfRelative(components);
    }
  }

  /** Canonicalising twice changes nothing. */
  lemma Idempotent(path: seq<char>)
    ensures Render(CanonicalPath(Render(CanonicalPath(path)))) == Render(CanonicalPath(path))
  {
    CanonicalShape(path);
    CanonicalIsFixed(IsAbsolute(path), CanonicalPath(path));
  }

  // ----- composition

  /** `Path::join` with a relative rest. */
  function PathJoin(path: seq<char>, rest: seq<char>): seq<char> {
    if path == "" || path[|path|-1] == '/' then path + rest else path + "/" + rest
  }

  lemma {:induction false} BodyConcat(a: seq<char>, b: seq<char>, first: bool)
    ensures Body(a + "/" + b, first) == Body(a, first) + Body(b, false)
    decreases |a|
  {
    var i := Slash(a);
    if i == |a| {
      assert a[..i] == a;
      BodyOfPiece(a, b, first);
    } else {
      var head, tail := a[..i], a[i+1..];
      assert '/' !in head && a == head + "/" + tail;
      hide Body, Slash, PieceOf;
      assert a + "/" + b == head + "/" + (tail + "/" + b);
      BodyOfPiece(head, tail + "/" + b, first);
      BodyOfPiece(head, tail, first);
      BodyConcat(tail, b, false);
      Associative(PieceOf(head, first), Body(tail, false), Body(b, false));
    }
  }

  lemma Associative(a: seq<Component>, b: seq<Component>, c: seq<Component>)
    ensures (a + b) + c == a + (b + c)
  {
  }

  lemma TrailingSlash(a: seq<char>, first: bool)
    ensures Body(a + "/", first) == Body(a, first)
  {
    assert Body("", false) == [];
    assert a + "/" + "" == a + "/";
    BodyConcat(a, "", first);
    hide Body;
    assert Body(a, first) + [] == Body(a, first);
  }

  /** Without the separator it may end in. */
  function Trimmed(a: seq<char>): seq<char>
    requires a != ""
  {
    if a[|a|-1] == '/' then a[..|a|-1] else a
  }

  lemma TrimmedReads(a: seq<char>, b: seq<char>, first: bool)
    requires a != ""
    ensures PathJoin(a, b) == Trimmed(a) + "/" + b && Body(a, first) == Body(Trimmed(a), first)
  {
    hide Body;
    if a[|a|-1] == '/' {
      assert a == Trimmed(a) + "/";
      TrailingSlash(Trimmed(a), first);
      assert a + b == Trimmed(a) + "/" + b;
    }
  }

  lemma BodyJoin(a: seq<char>, b: seq<char>, first: bool)
    requires a != ""
    ensures Body(PathJoin(a, b), first) == Body(a, first) + Body(b, false)
  {
    hide Body, PathJoin;
    TrimmedReads(a, b, first);
    BodyConcat(Trimmed(a), b, first);
  }

  lemma JoinAfterRoot(q: seq<char>, rest: seq<char>)
    ensures PathJoin("/" + q, rest) == "/" + (if q == "" then rest else PathJoin(q, rest))
  {
    assert ("/" + q)[|q|] == if q == "" then '/' else q[|q|-1];
    assert "/" + q + rest == "/" + (q + rest);
    assert "/" + q + "/" + rest == "/" + (q + "/" + rest);
  }

  lemma JoinReads(path: seq<char>, rest: seq<char>)
    requires path != ""
    ensures Components(PathJoin(path, rest)) == Components(path) + Body(rest, false)
    ensures IsAbsolute(PathJoin(path, rest)) == IsAbsolute(path)
  {
    if IsAbsolute(path) {
      var q := path[1..];
      assert path == "/" + q;
      assert q == "" ==> Body(q, false) == [];
      JoinAfterRoot(q, rest);
      var tail := if q == "" then rest else PathJoin(q, rest);
      assert ("/" + tail)[1..] == tail;
      assert Body(tail, false) == Body(q, false) + Body(rest, false) by {
        if q != "" {
          BodyJoin(q, rest, false);
        } else {
          assert [] + Body(rest, false) == Body(rest, false);
        }
      }
      hide Body, PathJoin;
      Associative([RootDir], Body(q, false), Body(rest, false));
    } else {
      BodyJoin(path, rest, true);
      hide Body;
    }
  }

  /** A leading "." makes no difference. */
  lemma LeadingDot(absolute: bool, buffer: seq<Component>, s: seq<char>)
    ensures Canon(absolute, buffer, Body(s, true)) == Canon(absolute, buffer, Body(s, false))
  {
    var i := Slash(s);
    if s[..i] == "." {
      var rest := Body(s, false);
      assert Body(s, true) == [CurDir] + rest;
      CanonConcat(absolute, buffer, [CurDir], rest);
      assert [CurDir][..0] == [];
      assert Canon(absolute, buffer, [CurDir]) == buffer;
    } else {
      assert PieceOf(s[..i], true) == PieceOf(s[..i], false);
    }
  }

  /** Canonicalising a prefix first changes nothing. */
  lemma Compositional(path: seq<char>, rest: seq<char>)
    requires !IsAbsolute(rest)
    ensures CanonicalPath(PathJoin(Render(CanonicalPath(path)), rest)) == CanonicalPath(PathJoin(path, rest))
  {
    if path == "" {
      assert CanonicalPath("") == [] by {
        assert Body("", true) == [];
      }
    } else {
      CanonicalShape(path);
      JoinReads(path, rest);
      hide Body, Components, CanonicalForm;
      JoinCanonical(IsAbsolute(path), CanonicalPath(path), rest);
      CanonConcat(IsAbsolute(path), [], Components(path), Body(rest, false));
    }
  }

  lemma JoinCanonical(absolute: bool, c: seq<Component>, rest: seq<char>)
    requires CanonicalForm(absolute, c) && !IsAbsolute(rest)
    ensures CanonicalPath(PathJoin(Render(c), rest)) == Canon(absolute, c, Body(rest, false))
  {
    RenderReads(absolute, c);
    CanonicalIsFixed(absolute, c);
    hide Body, Render;
    if c == [] {
      assert !absolute && PathJoin("", rest) == rest;
      LeadingDot(false, [], rest);
    } else {
      JoinReads(Render(c), rest);
      CanonConcat(absolute, [], c, Body(rest, false));
    }
  }

  // ----- meaning

  /** Where a component leads from a directory, named by the path to it; nothing lies above the root. */
  function Enter(place: seq<Name>, component: Component): seq<Name> {
    match component
    case RootDir => []
    case CurDir => place
    case ParentDir => if place == [] then [] else place[..|place|-1]
    case Normal(name) => place + [name]
  }

  function Walk(place: seq<Name>, components: seq<Component>): seq<Name> {
    if components == [] then place
    else Enter(Walk(place, components[..|components|-1]), components[|components|-1])
  }

  lemma {:induction false} WalkConcat(place: seq<Name>, a: seq<Component>, b: seq<Component>)
    ensures Walk(place, a + b) == Walk(Walk(place, a), b)
    decreases |b|
  {
    if b == [] {
      assert a + b == a;
    } else {
      assert (a + b)[..|a + b|-1] == a + b[..|b|-1];
      WalkConcat(place, a, b[..|b|-1]);
    }
  }

  lemma StepKeepsPlace(place: seq<Name>, absolute: bool, buffer: seq<Component>, component: Component)
    requires CanonicalForm(absolute, buffer) && (component.CurDir? || Proper(component))
    ensures Walk(place, Canonicalised(absolute, buffer, component)) == Enter(Walk(place, buffer), component)
  {
    if component.ParentDir? {
      if absolute && buffer == [RootDir] {
        assert [RootDir][..0] == [];
        assert Walk(place, buffer) == [];
      } else if !absolute && AllParents(buffer) {
        assert (buffer + [ParentDir])[..|buffer|] == buffer;
      } else {
        assert buffer[|buffer|-1].Normal?;
      }
    } else if component.Normal? {
      assert (buffer + [component])[..|buffer|] == buffer;
    }
  }

  lemma {:induction false} CanonKeepsPlace(place: seq<Name>, absolute: bool, buffer: seq<Component>,
                                           components: seq<Component>)
    requires CanonicalForm(absolute, buffer) && Readable(components)
    ensures Walk(place, Canon(absolute, buffer, components)) == Walk(Walk(place, buffer), components)
  {
    if components != [] {
      var init, last := components[..|components|-1], components[|components|-1];
      CanonKeepsPlace(place, absolute, buffer, init);
      CanonKeepsForm(absolute, buffer, init);
      StepKeepsPlace(place, absolute, Canon(absolute, buffer, init), last);
    }
  }

  /** The canonical path leads where the path does, from every directory. */
  lemma SamePlace(place: seq<Name>, path: seq<char>)
    ensures Walk(place, CanonicalPath(path)) == Walk(place, Components(path))
  {
    if IsAbsolute(path) {
      var body := Body(path[1..], false);
      FromRoot(path);
      BodyReadable(path[1..], false);
      CanonKeepsPlace(place, true, [RootDir], body);
      WalkConcat(place, [RootDir], body);
    } else {
      BodyReadable(path, true);
      CanonKeepsPlace(place, false, [], Components(path));
    }
  }

  // ----- completeness

  /** A name no path has, so that what was there before a walk can be told from what it adds. */
  const MARK: Name := "/"

  function Marks(n: nat): seq<Name> {
    seq(n, _ => MARK)
  }

  function Parents(components: seq<Component>): (n: nat)
    ensures n <= |components|
  {
    if components != [] && components[0].ParentDir? then 1 + Parents(components[1..]) else 0
  }

  function NamesOf(components: seq<Component>): seq<Name>
    requires forall i :: 0 <= i < |components| ==> components[i].Normal?
  {
    seq(|components|, i requires 0 <= i < |components| => components[i].name)
  }

  lemma {:induction false} WalkNames(place: seq<Name>, names: seq<Component>)
    requires forall i :: 0 <= i < |names| ==> names[i].Normal?
    ensures Walk(place, names) == place + NamesOf(names)
  {
    if names == [] {
      assert place + NamesOf(names) == place;
    } else {
      var init := names[..|names|-1];
      WalkNames(place, init);
      assert NamesOf(names) == NamesOf(init) + [names[|names|-1].name];
      assert place + NamesOf(names) == (place + NamesOf(init)) + [names[|names|-1].name];
    }
  }

  lemma {:induction false} WalkParents(n: nat, parents: seq<Component>)
    requires |parents| <= n && AllParents(parents)
    ensures Walk(Marks(n), parents) == Marks(n - |parents|)
  {
    if parents != [] {
      WalkParents(n, parents[..|parents|-1]);
      assert Marks(n - |parents| + 1)[..n - |parents|] == Marks(n - |parents|);
    }
  }

  /** A relative form is its ".."s and then its names. */
  lemma {:induction false} SplitRelative(components: seq<Component>)
    requires RelativeForm(components)
    ensures var k := Parents(components);
      && AllParents(components[..k])
      && (forall i :: k <= i < |components| ==> components[i].Normal?)
  {
    if components != [] && components[0].ParentDir? {
      SplitRelative(components[1..]);
    }
  }

  lemma WalkRelative(n: nat, components: seq<Component>)
    requires RelativeForm(components) && |components| <= n
    ensures var k := Parents(components);
      && (forall i :: 0 <= i < |components[k..]| ==> components[k..][i].Normal?)
      && Walk(Marks(n), components) == Marks(n - k) + NamesOf(components[k..])
  {
    var k := Parents(components);
    SplitRelative(components);
    assert components == components[..k] + components[k..];
    WalkConcat(Marks(n), components[..k], components[k..]);
    WalkParents(n, components[..k]);
    WalkNames(Marks(n - k), components[k..]);
  }

  lemma WalkAbsolute(place: seq<Name>, components: seq<Component>)
    requires AbsoluteForm(components)
    ensures Walk(place, components) == NamesOf(components[1..])
  {
    assert components == [RootDir] + components[1..];
    WalkConcat(place, [RootDir], components[1..]);
    assert [RootDir][..0] == [];
    assert Walk(place, [RootDir]) == [];
    WalkNames([], components[1..]);
    assert [] + NamesOf(components[1..]) == NamesOf(components[1..]);
  }

  lemma NamesDiffer(a: seq<Component>, b: seq<Component>)
    requires forall i :: 0 <= i < |a| ==> a[i].Normal?
    requires forall i :: 0 <= i < |b| ==> b[i].Normal?
    requires NamesOf(a) == NamesOf(b)
    ensures a == b
  {
    assert |NamesOf(a)| == |a| && |NamesOf(b)| == |b|;
    forall i | 0 <= i < |a| ensures a[i] == b[i] {
      assert NamesOf(a)[i] == a[i].name && NamesOf(b)[i] == b[i].name;
    }
  }

  lemma MarkAt(n: nat, names: seq<Name>, i: nat)
    requires i < n
    ensures (Marks(n) + names)[i] == MARK
  {
  }

  lemma AfterMarks(n: nat, names: seq<Name>)
    ensures |names| > 0 ==> (Marks(n) + names)[n] == names[0]
    ensures (Marks(n) + names)[n..] == names && |Marks(n) + names| == n + |names|
  {
  }

  lemma NotFewerMarks(m: nat, n: nat, a: seq<Name>, b: seq<Name>)
    requires Marks(m) + a == Marks(n) + b && MARK !in a
    ensures n <= m
  {
    if m < n {
      AfterMarks(m, a);
      AfterMarks(n, b);
      MarkAt(n, b, m);
      hide Marks;
      assert false;
    }
  }

  lemma SameAfterMarks(m: nat, n: nat, a: seq<Name>, b: seq<Name>)
    requires Marks(m) + a == Marks(n) + b && MARK !in a && MARK !in b
    ensures m == n && a == b
  {
    NotFewerMarks(m, n, a, b);
    NotFewerMarks(n, m, b, a);
    AfterMarks(m, a);
    AfterMarks(n, b);
  }

  lemma NoMark(components: seq<Component>)
    requires AllProper(components) && (forall i :: 0 <= i < |components| ==> components[i].Normal?)
    ensures MARK !in NamesOf(components)
  {
  }

  /** The names a canonical form ends in. */
  function Tail(absolute: bool, components: seq<Component>): (tail: seq<Component>)
    requires CanonicalForm(absolute, components)
    ensures AllProper(tail) && forall i :: 0 <= i < |tail| ==> tail[i].Normal?
  {
    if absolute then components[1..]
    else
      SplitRelative(components);
      components[Parents(components)..]
  }

  /** How much of a place `n` deep is left before the names of a canonical form. */
  function Left(n: nat, absolute: bool, components: seq<Component>): nat
    requires |components| <= n
  {
    if absolute then 0 else n - Parents(components)
  }

  lemma NoMarksLeft(names: seq<Name>)
    ensures Marks(0) + names == names
  {
  }

  lemma WalkFormRelative(n: nat, components: seq<Component>)
    requires RelativeForm(components) && |components| < n
    ensures Walk(Marks(n), components) == Marks(n - Parents(components)) + NamesOf(Tail(false, components))
  {
    hide Walk, NamesOf, Marks;
    WalkRelative(n, components);
  }

  lemma WalkFormAbsolute(n: nat, components: seq<Component>)
    requires AbsoluteForm(components)
    ensures Walk(Marks(n), components) == Marks(0) + NamesOf(Tail(true, components))
  {
    hide Walk, NamesOf, Marks;
    WalkAbsolute(Marks(n), components);
    NoMarksLeft(NamesOf(components[1..]));
  }

  lemma WalkForm(n: nat, absolute: bool, components: seq<Component>)
    requires CanonicalForm(absolute, components) && |components| < n
    ensures Walk(Marks(n), components) == Marks(Left(n, absolute, components)) + NamesOf(Tail(absolute, components))
    ensures MARK !in NamesOf(Tail(absolute, components))
    ensures absolute <==> Left(n, absolute, components) == 0
  {
    hide Walk, NamesOf, Marks, Tail, RelativeForm, AbsoluteForm;
    NoMark(Tail(absolute, components));
    if absolute {
      WalkFormAbsolute(n, components);
    } else {
      WalkFormRelative(n, components);
    }
  }

  lemma SameParts(first: bool, a: seq<Component>, second: bool, b: seq<Component>)
    requires CanonicalForm(first, a) && CanonicalForm(second, b) && first == second
    requires Tail(first, a) == Tail(second, b) && (!first ==> Parents(a) == Parents(b))
    ensures a == b
  {
    if first {
      assert a == [RootDir] + a[1..] && b == [RootDir] + b[1..];
    } else {
      var k := Parents(a);
      SplitRelative(a);
      SplitRelative(b);
      assert a[..k] == b[..k];
      assert a == a[..k] + a[k..] && b == b[..k] + b[k..];
    }
  }

  /** Two canonical forms that lead to the same place from every directory are the same. */
  lemma FormsDetermined(first: bool, a: seq<Component>, second: bool, b: seq<Component>)
    requires CanonicalForm(first, a) && CanonicalForm(second, b)
    requires Walk(Marks(|a| + |b| + 1), a) == Walk(Marks(|a| + |b| + 1), b)
    ensures a == b && first == second
  {
    hide Walk, CanonicalForm, NamesOf, Marks, Tail;
    var n := |a| + |b| + 1;
    WalkForm(n, first, a);
    WalkForm(n, second, b);
    SameAfterMarks(Left(n, first, a), Left(n, second, b), NamesOf(Tail(first, a)), NamesOf(Tail(second, b)));
    NamesDiffer(Tail(first, a), Tail(second, b));
    SameParts(first, a, second, b);
  }

  /** From every directory to the same place. */
  ghost predicate SamePlaces(a: seq<Component>, b: seq<Component>) {
    forall place :: Walk(place, a) == Walk(place, b)
  }

  lemma SamePlaceSameResult(p: seq<char>, q: seq<char>)
    requires SamePlaces(Components(p), Components(q))
    ensures CanonicalPath(p) == CanonicalPath(q)
  {
    hide CanonicalPath, Components, CanonicalForm, Walk, Marks;
    var a, b := CanonicalPath(p), CanonicalPath(q);
    CanonicalShape(p);
    CanonicalShape(q);
    var place := Marks(|a| + |b| + 1);
    SamePlace(place, p);
    SamePlace(place, q);
    FormsDetermined(IsAbsolute(p), a, IsAbsolute(q), b);
  }

  lemma SameResultSamePlace(p: seq<char>, q: seq<char>, place: seq<Name>)
    requires Render(CanonicalPath(p)) == Render(CanonicalPath(q))
    ensures Walk(place, Components(p)) == Walk(place, Components(q))
  {
    hide CanonicalPath, Components, CanonicalForm, Walk, Render;
    CanonicalShape(p);
    CanonicalShape(q);
    RenderReads(IsAbsolute(p), CanonicalPath(p));
    RenderReads(IsAbsolute(q), CanonicalPath(q));
    SamePlace(place, p);
    SamePlace(place, q);
  }

  /**
   `weak_canonical` decides lexical equivalence: two paths get the same result if and only if they lead
   to the same place from every directory.
  */
  lemma SameResultIffSamePlaces(p: seq<char>, q: seq<char>)
    ensures Render(CanonicalPath(p)) == Render(CanonicalPath(q)) <==> SamePlaces(Components(p), Components(q))
  {
    hide CanonicalPath, Components, Walk, Render;
    if Render(CanonicalPath(p)) == Render(CanonicalPath(q)) {
      forall place ensures Walk(place, Components(p)) == Walk(place, Components(q)) {
        SameResultSamePlace(p, q, place);
      }
    }
    if SamePlaces(Components(p), Components(q)) {
      SamePlaceSameResult(p, q);
    }
  }
}
