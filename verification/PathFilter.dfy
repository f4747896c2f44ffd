/** `filter_files`: which listed files belong to a requested path. */
module PathFilter {
  import opened Wrappers
  import opened Paths
  import opened PathTheorems

  /** A listed file as the HTTP layer sees it, its name as text. */
  datatype FileEntry = FileEntry(fileName: seq<char>, fileSize: nat, permissions: nat, isDirectory: bool)

  // ----- strings the filter compares

  function TrimEnd(s: seq<char>): seq<char> {
    if s != "" && s[|s|-1] == '/' then TrimEnd(s[..|s|-1]) else s
  }

  /** With a leading and a trailing separator. */
  function Slashed(canonical: seq<char>): seq<char> {
    var leading := if IsAbsolute(canonical) then canonical else "/" + canonical;
    if leading[|leading|-1] == '/' then leading else leading + "/"
  }

  function Normalized(name: seq<char>): seq<char> {
    if IsAbsolute(name) then name else "/" + name
  }

  /** The shortest prefix, of `n` characters or more, that reads as `target`. */
  function ShortestPrefix(path: seq<char>, target: seq<Component>, n: nat): seq<char>
    requires n <= |path|
    decreases |path| - n
  {
    if n == |path| || Components(path[..n]) == target then path[..n] else ShortestPrefix(path, target, n + 1)
  }

  /** `Path::parent`: the path up to its last component, without separators behind it. */
  function Parent(path: seq<char>): Option<seq<char>> {
    var components := Components(path);
    if components == [] || components[|components|-1].RootDir? then None
    else Some(ShortestPrefix(path, components[..|components|-1], 0))
  }

  /** The parent with a trailing separator, as the recursive branch looks at it. */
  function ParentDirectory(path: seq<char>): seq<char> {
    match Parent(path)
    case None => ""
    case Some(s) => if s != "" && s[|s|-1] != '/' then s + "/" else s
  }

  function ParentText(path: seq<char>): seq<char> {
    match Parent(path)
    case None => ""
    case Some(s) => s
  }

  /** The condition under which one file is kept. */
  predicate Matches(name: seq<char>, absPath: seq<char>, recursive: bool) {
    var normalized, noTrail := Normalized(name), TrimEnd(absPath);
    if recursive then
      normalized == absPath || Components(absPath) <= Components(ParentDirectory(normalized)) || normalized == noTrail
    else
      ParentText(normalized) == absPath || ParentText(normalized) == noTrail || normalized == noTrail
  }

  function Matching(files: seq<FileEntry>, absPath: seq<char>, recursive: bool): seq<FileEntry> {
    if files == [] then []
    else
      var last := files[|files|-1];
      Matching(files[..|files|-1], absPath, recursive) +
      if Matches(last.fileName, absPath, recursive) then [last] else []
  }

  // ----- the code

  /** Whether `path` is `dir` or lies below it, component by component. */
  method IsWithin(path: seq<char>, dir: seq<char>) returns (within: bool)
    ensures within <==> Components(dir) <= Components(path)
  {
    var pathComponents, dirComponents := Components(path), Components(dir);
    var i := 0;
    while true
      invariant i <= |pathComponents| && i <= |dirComponents|
      invariant forall j :: 0 <= j < i ==> pathComponents[j] == dirComponents[j]
      decreases |dirComponents| - i
    {
      if i == |dirComponents| {
        return true;
      }
      if i == |pathComponents| || pathComponents[i] != dirComponents[i] {
        return false;
      }
      i := i + 1;
    }
  }

  /** The test made for one file. */
  method KeepFile(fileName: seq<char>, absPath: seq<char>, noTrail: seq<char>, recursive: bool) returns (keep: bool)
    requires noTrail == TrimEnd(absPath)
    ensures keep <==> Matches(fileName, absPath, recursive)
  {
    hide Components, TrimEnd, ParentDirectory, ParentText, Normalized;
    var normalized := Normalized(fileName);
    if recursive {
      var within := IsWithin(ParentDirectory(normalized), absPath);
      keep := normalized == absPath || within || normalized == noTrail;
    } else {
      var parent := ParentText(normalized);
      keep := parent == absPath || parent == noTrail || normalized == noTrail;
    }
  }

  method FilterFiles(files: seq<FileEntry>, filePath: seq<char>, recursive: bool) returns (matched: seq<FileEntry>)
    ensures matched == Matching(files, Slashed(Render(CanonicalPath(filePath))), recursive)
    ensures (forall i :: 0 <= i < |files| ==> CanonicalName(files[i].fileName)) ==>
            matched == Belonging(files, Target(filePath), recursive)
  {
    hide Render, CanonicalPath, Matches, CanonicalName, Belonging, Target, TrimEnd;
    var absPath := WeakCanonical(filePath);
    if !IsAbsolute(absPath) {
      absPath := "/" + absPath;
    }
    if absPath[|absPath|-1] != '/' {
      absPath := absPath + "/";
    }
    assert absPath == Slashed(Render(CanonicalPath(filePath)));
    hide Slashed;
    var noTrail := TrimEnd(absPath);
    matched := [];
    for i := 0 to |files|
      invariant matched == Matching(files[..i], absPath, recursive)
    {
      assert files[..i+1][..i] == files[..i];
      var keep := KeepFile(files[i].fileName, absPath, noTrail, recursive);
      if keep {
        matched := matched + [files[i]];
      }
    }
    assert files[..|files|] == files;
    if forall i :: 0 <= i < |files| ==> CanonicalName(files[i].fileName) {
      MatchingBelongs(files, filePath, recursive);
    }
  }

  // ----- what it means

  /** A name that is already canonical. */
  predicate CanonicalName(name: seq<char>) {
    Render(CanonicalPath(Normalized(name))) == Normalized(name)
  }

  /** The components below the root of the requested path. */
  function Target(filePath: seq<char>): seq<Component> {
    var canonical := CanonicalPath(filePath);
    if IsAbsolute(filePath) then canonical else [RootDir] + canonical
  }

  /** At or below the target; not recursively, the target and its direct children. */
  predicate Belongs(target: seq<Component>, entry: seq<Component>, recursive: bool) {
    if recursive then target <= entry
    else entry == target || (entry != [] && entry[..|entry|-1] == target)
  }

  function Belonging(files: seq<FileEntry>, target: seq<Component>, recursive: bool): seq<FileEntry> {
    if files == [] then []
    else
      var last := files[|files|-1];
      Belonging(files[..|files|-1], target, recursive) +
      if Belongs(target, Components(Normalized(last.fileName)), recursive) then [last] else []
  }

  /** The root and proper components below it. */
  predicate Rooted(components: seq<Component>) {
    components != [] && components[0].RootDir? && AllProper(components[1..])
  }

  lemma {:induction false} JoinedEnds(components: seq<Component>)
    requires AllProper(components) && components != []
    ensures Joined(components) != "" && Joined(components)[|Joined(components)|-1] != '/'
  {
    if |components| == 1 {
      ProperPiece(components[0], true);
    } else {
      JoinedEnds(components[1..]);
    }
  }

  lemma AfterRoot(s: seq<char>)
    ensures Components("/" + s) == [RootDir] + Body(s, false)
  {
    hide Body;
    assert ("/" + s)[1..] == s;
  }

  lemma SlashBehind(s: seq<char>)
    ensures "/" + s + "/" == "/" + (s + "/")
    ensures s != "" ==> ("/" + s)[|"/" + s|-1] == s[|s|-1]
  {
  }

  lemma RootedReads(components: seq<Component>)
    requires Rooted(components)
    ensures Components(Render(components)) == components
    ensures components != [RootDir] ==>
      && Components(Render(components) + "/") == components
      && |Render(components)| > 1 && Render(components)[|Render(components)|-1] != '/'
    ensures components == [RootDir] ==> Render(components) == "/"
  {
    var rest := components[1..];
    assert components == [RootDir] + rest;
    assert rest == [] ==> Joined(rest) == "";
    hide Body, Components, Joined;
    BodyOfJoined(rest, false);
    AfterRoot(Joined(rest));
    AfterRoot(Joined(rest) + "/");
    SlashBehind(Joined(rest));
    if rest != [] {
      JoinedEnds(rest);
    }
  }

  lemma TrimRendered(components: seq<Component>)
    requires Rooted(components)
    ensures components != [RootDir] ==> TrimEnd(Render(components) + "/") == Render(components)
    ensures TrimEnd("/") == ""
  {
    RootedReads(components);
    hide Render;
    var s := Render(components);
    assert (s + "/")[..|s|] == s;
  }

  lemma RenderBelowRoot(c: seq<Component>)
    requires RelativeForm(c)
    ensures Rooted([RootDir] + c) && Render([RootDir] + c) == "/" + Render(c)
  {
    hide Joined;
    assert ([RootDir] + c)[1..] == c;
  }

  lemma SlashedRendered(target: seq<Component>)
    requires Rooted(target)
    ensures Slashed(Render(target)) == if target == [RootDir] then "/" else Render(target) + "/"
  {
    RootedReads(target);
    hide Components;
  }

  lemma SlashedAlready(s: seq<char>)
    requires !IsAbsolute(s)
    ensures Slashed(s) == Slashed("/" + s)
  {
    assert ("/" + s)[0] == '/';
  }

  lemma SlashedRelative(c: seq<Component>)
    requires RelativeForm(c)
    ensures Slashed(Render(c)) == Slashed("/" + Render(c))
  {
    hide Components, Render, RelativeForm, Slashed;
    assert CanonicalForm(false, c);
    RenderReads(false, c);
    SlashedAlready(Render(c));
  }

  lemma TargetRooted(filePath: seq<char>)
    ensures Rooted(Target(filePath))
    ensures Slashed(Render(CanonicalPath(filePath))) == Slashed(Render(Target(filePath)))
  {
    CanonicalShape(filePath);
    hide CanonicalPath, Render, Slashed;
    if !IsAbsolute(filePath) {
      RenderBelowRoot(CanonicalPath(filePath));
      SlashedRelative(CanonicalPath(filePath));
    }
  }

  /** The strings the filter makes of the requested path. */
  lemma TargetReads(filePath: seq<char>)
    ensures var target, absPath := Target(filePath), Slashed(Render(CanonicalPath(filePath)));
      && Rooted(target) && Components(absPath) == target
      && absPath == (if target == [RootDir] then "/" else Render(target) + "/")
      && TrimEnd(absPath) == (if target == [RootDir] then "" else Render(target))
  {
    hide Components, CanonicalPath, Render, Slashed, Target, Rooted;
    var target := Target(filePath);
    TargetRooted(filePath);
    RootedReads(target);
    SlashedRendered(target);
    TrimRendered(target);
  }

  // ----- parents of canonical paths

  lemma {:induction false} JoinedSnoc(components: seq<Component>, last: Component)
    requires components != []
    ensures Joined(components + [last]) == Joined(components) + "/" + Text(last)
  {
    assert (components + [last])[1..] == components[1..] + [last];
    if |components| == 1 {
      assert components[1..] + [last] == [last];
    } else {
      JoinedSnoc(components[1..], last);
      Regroup(Text(components[0]), Joined(components[1..]), Text(last));
    }
  }

  lemma Regroup(a: seq<char>, b: seq<char>, c: seq<char>)
    ensures a + "/" + (b + "/" + c) == a + "/" + b + "/" + c
  {
  }

  lemma JoinedCons(head: seq<Component>, rest: seq<Component>)
    requires |head| <= 1
    ensures |Joined(head + rest)| <= (if head == [] then 0 else |Text(head[0])|) + 1 + |Joined(rest)|
    ensures rest == [] && head != [] ==> |Joined(head + rest)| == |Text(head[0])|
  {
    if head == [] {
      assert head + rest == rest;
    } else {
      assert (head + rest)[1..] == rest;
    }
  }

  lemma PieceText(piece: seq<char>, first: bool)
    ensures |PieceOf(piece, first)| <= 1
    ensures PieceOf(piece, first) != [] ==> Text(PieceOf(piece, first)[0]) == piece
  {
  }

  /** No string is shorter than the rendering of its components. */
  lemma {:induction false} JoinedIsShortest(s: seq<char>, first: bool)
    ensures |Joined(Body(s, first))| <= |s|
    decreases |s|
  {
    var i := Slash(s);
    var head := PieceOf(s[..i], first);
    PieceText(s[..i], first);
    if i < |s| {
      JoinedIsShortest(s[i+1..], false);
      hide Joined, Slash, PieceOf, Text;
      JoinedCons(head, Body(s[i+1..], false));
    } else {
      assert Body(s, first) == head + [];
      JoinedCons(head, []);
    }
  }

  lemma RenderIsShortest(path: seq<char>, components: seq<Component>)
    requires Components(path) == components && components != [] && components[0].RootDir?
    ensures |Render(components)| <= |path|
  {
    if IsAbsolute(path) {
      JoinedIsShortest(path[1..], false);
      assert components[1..] == Body(path[1..], false);
    } else {
      BodyReadable(path, true);
    }
  }

  lemma {:induction false} ShortestIs(path: seq<char>, target: seq<Component>, prefix: seq<char>, n: nat)
    requires prefix <= path && n <= |prefix| && Components(prefix) == target
    requires forall k :: n <= k < |prefix| ==> Components(path[..k]) != target
    ensures ShortestPrefix(path, target, n) == prefix
    decreases |prefix| - n
  {
    assert path[..|prefix|] == prefix;
    if n < |prefix| {
      ShortestIs(path, target, prefix, n + 1);
    }
  }

  lemma RenderExtends(components: seq<Component>)
    requires Rooted(components) && |components| > 1
    ensures Rooted(components[..|components|-1])
    ensures Render(components[..|components|-1]) <= Render(components)
  {
    var init, last := components[..|components|-1], components[|components|-1];
    assert init[1..] == components[1..][..|components|-2];
    assert components[1..] == init[1..] + [last];
    if init[1..] != [] {
      JoinedSnoc(init[1..], last);
      Prefixed(Joined(init[1..]), Text(last));
    }
  }

  lemma Prefixed(a: seq<char>, b: seq<char>)
    ensures "/" + a <= "/" + (a + "/" + b)
  {
  }

  lemma NoShorterPrefix(path: seq<char>, target: seq<Component>, k: nat)
    requires Rooted(target) && k < |Render(target)| && k <= |path|
    ensures Components(path[..k]) != target
  {
    if Components(path[..k]) == target {
      RenderIsShortest(path[..k], target);
      hide Components, Render;
      assert false;
    }
  }

  /** The parent of a canonical path is the rendering of all but its last component. */
  lemma ParentOfRooted(components: seq<Component>)
    requires Rooted(components)
    ensures |components| == 1 ==> Parent(Render(components)) == None
    ensures |components| > 1 ==>
      && Rooted(components[..|components|-1])
      && Parent(Render(components)) == Some(Render(components[..|components|-1]))
  {
    hide Components, Render;
    RootedReads(components);
    if |components| > 1 {
      var path, init := Render(components), components[..|components|-1];
      assert Proper(components[1..][|components|-2]);
      RenderExtends(components);
      RootedReads(init);
      forall k | 0 <= k < |Render(init)| ensures Components(path[..k]) != init {
        NoShorterPrefix(path, init, k);
      }
      ShortestIs(path, init, Render(init), 0);
    } else {
      assert components == [RootDir];
    }
  }

  lemma ParentReads(entry: seq<Component>)
    requires Rooted(entry)
    ensures |entry| == 1 ==> ParentText(Render(entry)) == "" && ParentDirectory(Render(entry)) == ""
    ensures |entry| > 1 ==>
      && Rooted(entry[..|entry|-1]) && ParentText(Render(entry)) == Render(entry[..|entry|-1])
      && Components(ParentDirectory(Render(entry))) == entry[..|entry|-1]
  {
    ParentOfRooted(entry);
    hide Components, Render, Parent;
    if |entry| > 1 {
      RootedReads(entry[..|entry|-1]);
    }
  }

  /** Rendering tells rooted components apart. */
  lemma RenderTellsApart(a: seq<Component>, b: seq<Component>)
    requires Rooted(a) && Rooted(b)
    ensures Render(a) == Render(b) <==> a == b
    ensures Render(a) != "" && (b != [RootDir] ==> Render(a) != Render(b) + "/")
  {
    RootedReads(a);
    RootedReads(b);
    hide Components, Render;
    assert (Render(b) + "/")[|Render(b)|] == '/';
  }

  lemma EmptyReads()
    ensures Components("") == []
  {
    EmptyBody(true);
  }

  lemma RecursiveMatches(entry: seq<Component>, target: seq<Component>, absPath: seq<char>, noTrail: seq<char>)
    requires Rooted(entry) && Rooted(target)
    requires absPath == if target == [RootDir] then "/" else Render(target) + "/"
    requires noTrail == if target == [RootDir] then "" else Render(target)
    ensures Render(entry) == absPath || target <= Components(ParentDirectory(Render(entry))) || Render(entry) == noTrail
       <==> target <= entry
  {
    ParentReads(entry);
    RenderTellsApart(entry, target);
    EmptyReads();
    assert Rooted([RootDir]);
    RootedReads([RootDir]);
    hide Render, Components, ParentDirectory;
    PrefixCases(target, entry);
  }

  lemma DirectMatches(entry: seq<Component>, target: seq<Component>, absPath: seq<char>, noTrail: seq<char>)
    requires Rooted(entry) && Rooted(target)
    requires absPath == if target == [RootDir] then "/" else Render(target) + "/"
    requires noTrail == if target == [RootDir] then "" else Render(target)
    ensures ParentText(Render(entry)) == absPath || ParentText(Render(entry)) == noTrail || Render(entry) == noTrail
       <==> entry == target || entry[..|entry|-1] == target
  {
    ParentReads(entry);
    RenderTellsApart(entry, target);
    assert Rooted([RootDir]);
    RootedReads([RootDir]);
    if |entry| > 1 {
      RenderTellsApart(entry[..|entry|-1], target);
    }
    hide Render, Components, ParentText;
  }

  /** For a canonical name, the filter's string comparisons decide exactly where the entry lies. */
  lemma MatchesBelongs(name: seq<char>, filePath: seq<char>, recursive: bool)
    requires CanonicalName(name)
    ensures Matches(name, Slashed(Render(CanonicalPath(filePath))), recursive)
       <==> Belongs(Target(filePath), Components(Normalized(name)), recursive)
  {
    var path := Normalized(name);
    var entry, target := CanonicalPath(path), Target(filePath);
    var absPath := Slashed(Render(CanonicalPath(filePath)));
    CanonicalShape(path);
    RenderReads(true, entry);
    TargetReads(filePath);
    assert Rooted(entry);
    hide Render, Components, CanonicalPath, Slashed, Target, ParentText, ParentDirectory, TrimEnd, Normalized;
    RecursiveMatches(entry, target, absPath, TrimEnd(absPath));
    DirectMatches(entry, target, absPath, TrimEnd(absPath));
  }

  lemma PrefixCases(target: seq<Component>, entry: seq<Component>)
    requires target != [] && entry != []
    ensures target <= entry <==> entry == target || target <= entry[..|entry|-1]
  {
  }

  /** In order, exactly the entries that belong to the target. */
  lemma {:induction false} MatchingBelongs(files: seq<FileEntry>, filePath: seq<char>, recursive: bool)
    requires forall i :: 0 <= i < |files| ==> CanonicalName(files[i].fileName)
    ensures Matching(files, Slashed(Render(CanonicalPath(filePath))), recursive)
         == Belonging(files, Target(filePath), recursive)
  {
    if files != [] {
      MatchesBelongs(files[|files|-1].fileName, filePath, recursive);
      hide Matches, Belongs, CanonicalName;
      MatchingBelongs(files[..|files|-1], filePath, recursive);
    }
  }
}
