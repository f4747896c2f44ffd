/**
 Unix path strings as `std::path` reads them, and the lexical canonicalisation of the HTTP layer. A
 `PathBuf` under construction is the list of the components pushed onto it.
 */
module Paths {
  type Name = seq<char>

  datatype Component = RootDir | CurDir | ParentDir | Normal(name: Name)

  // ----- reading a path

  /** Position of the first separator, or the length. */
  function Slash(s: seq<char>): (i: nat)
    ensures i <= |s| && '/' !in s[..i] && (i < |s| ==> s[i] == '/')
  {
    if s == [] || s[0] == '/' then 0
    else
      var i := 1 + Slash(s[1..]);
      assert s[..i] == [s[0]] + s[1..][..i-1];
      i
  }

  /** One piece between separators; "." counts only at the very start of a relative path. */
  function PieceOf(piece: seq<char>, first: bool): seq<Component> {
    if piece == "" then []
    else if piece == "." then (if first then [CurDir] else [])
    else if piece == ".." then [ParentDir]
    else [Normal(piece)]
  }

  function Body(s: seq<char>, first: bool): seq<Component>
    decreases |s|
  {
    var i := Slash(s);
    PieceOf(s[..i], first) + if i < |s| then Body(s[i+1..], false) else []
  }

  predicate IsAbsolute(path: seq<char>) {
    path != [] && path[0] == '/'
  }

  /** `Path::components`. */
  function Components(path: seq<char>): seq<Component> {
    if IsAbsolute(path) then [RootDir] + Body(path[1..], false) else Body(path, true)
  }

  // ----- writing one

  function Text(component: Component): seq<char> {
    match component
    case RootDir => "/"
    case CurDir => "."
    case ParentDir => ".."
    case Normal(name) => name
  }

  function Joined(components: seq<Component>): seq<char> {
    if components == [] then ""
    else if |components| == 1 then Text(components[0])
    else Text(components[0]) + "/" + Joined(components[1..])
  }

  /** The string of a `PathBuf` built by pushing these components. */
  function Render(components: seq<Component>): seq<char> {
    if components != [] && components[0].RootDir? then "/" + Joined(components[1..]) else Joined(components)
  }

  predicate ProperName(name: Name) {
    name != "" && name != "." && name != ".." && '/' !in name
  }

  /** A component below the root that is neither "." nor a separator. */
  predicate Proper(component: Component) {
    component.ParentDir? || (component.Normal? && ProperName(component.name))
  }

  predicate AllProper(components: seq<Component>) {
    forall i :: 0 <= i < |components| ==> Proper(components[i])
  }

  lemma {:induction false} SlashIn(a: seq<char>, b: seq<char>)
    requires '/' !in a
    ensures Slash(a + "/" + b) == |a|
    decreases |a|
  {
    if a != [] {
      assert (a + "/" + b)[1..] == a[1..] + "/" + b;
      SlashIn(a[1..], b);
    }
  }

  lemma {:induction false} NoSlash(a: seq<char>)
    requires '/' !in a
    ensures Slash(a) == |a|
  {
    if a != [] {
      NoSlash(a[1..]);
    }
  }

  lemma BodyOfPiece(a: seq<char>, b: seq<char>, first: bool)
    requires '/' !in a
    ensures Body(a + "/" + b, first) == PieceOf(a, first) + Body(b, false)
    ensures Body(a, first) == PieceOf(a, first)
  {
    SlashIn(a, b);
    assert (a + "/" + b)[..|a|] == a && (a + "/" + b)[|a|+1..] == b;
    NoSlash(a);
    assert a[..|a|] == a;
  }

  lemma ProperPiece(component: Component, first: bool)
    requires Proper(component)
    ensures PieceOf(Text(component), first) == [component] && '/' !in Text(component) && Text(component) != ""
  {
  }

  lemma EmptyBody(first: bool)
    ensures Body("", first) == []
  {
  }

  /** Reading back what was written gives the same components, with or without a trailing separator. */
  lemma {:induction false} BodyOfJoined(components: seq<Component>, first: bool)
    requires AllProper(components)
    ensures Body(Joined(components), first) == components
    ensures components != [] ==> Body(Joined(components) + "/", first) == components
    decreases |components|
  {
    hide Body, Slash, PieceOf, Text;
    EmptyBody(first);
    EmptyBody(false);
    if components != [] {
      var head, rest := components[0], components[1..];
      ProperPiece(head, first);
      assert components == [head] + rest;
      if rest == [] {
        BodyOfPiece(Text(head), "", first);
        assert Text(head) + "/" + "" == Text(head) + "/";
      } else {
        BodyOfPiece(Text(head), Joined(rest), first);
        BodyOfPiece(Text(head), Joined(rest) + "/", first);
        JoinedWithSlash(Text(head), Joined(rest));
        BodyOfJoined(rest, false);
      }
    }
  }

  lemma JoinedWithSlash(a: seq<char>, b: seq<char>)
    ensures a + "/" + (b + "/") == a + "/" + b + "/"
  {
  }

  /** What is written for components below the root starts with none. */
  lemma JoinedStarts(components: seq<Component>)
    requires AllProper(components) && components != []
    ensures Joined(components) != "" && Joined(components)[0] != '/'
  {
    ProperPiece(components[0], true);
  }

  // ----- weak_canonical

  predicate AllParents(components: seq<Component>) {
    forall i :: 0 <= i < |components| ==> components[i].ParentDir?
  }

  /** `PathBuf::pop`: the root has no parent. */
  function Pop(buffer: seq<Component>): seq<Component> {
    if buffer == [] || buffer == [RootDir] then buffer else buffer[..|buffer|-1]
  }

  /** `PathBuf::push`: the root replaces what was there. */
  function Push(buffer: seq<Component>, component: Component): seq<Component> {
    if component.RootDir? then [RootDir] else buffer + [component]
  }

  function Canonicalised(absolute: bool, buffer: seq<Component>, component: Component): seq<Component> {
    match component
    case ParentDir =>
      if absolute then (if Pop(buffer) == [] then [RootDir] else Pop(buffer))
      else if AllParents(buffer) then Push(buffer, ParentDir)
      else Pop(buffer)
    case CurDir => buffer
    case _ => Push(buffer, component)
  }

  /** What the loop of `weak_canonical` makes of the components, starting from a buffer. */
  function Canon(absolute: bool, buffer: seq<Component>, components: seq<Component>): seq<Component> {
    if components == [] then buffer
    else Canonicalised(absolute, Canon(absolute, buffer, components[..|components|-1]), components[|components|-1])
  }

  function CanonicalPath(path: seq<char>): seq<Component> {
    Canon(IsAbsolute(path), [], Components(path))
  }

  method WeakCanonical(path: seq<char>) returns (canonical: seq<char>)
    ensures canonical == Render(CanonicalPath(path))
  {
    var components := Components(path);
    var result: seq<Component> := [];
    for i := 0 to |components|
      invariant result == Canon(IsAbsolute(path), [], components[..i])
    {
      assert components[..i+1][..i] == components[..i];
      match components[i] {
        case ParentDir =>
          if IsAbsolute(path) {
            result := Pop(result);
            if result == [] {
              result := Push(result, RootDir);
            }
          } else if AllParents(result) {
            result := Push(result, ParentDir);
          } else {
            result := Pop(result);
          }
        case CurDir =>
        case other => result := Push(result, other);
      }
    }
    assert components[..|components|] == components;
    canonical := Render(result);
  }
}
