/** Go's lexical path functions on Unix, and the C string arithmetic that mirrors them. */
module Paths {
  import opened Text

  predicate IsAbs(p: string) {
    p != "" && p[0] == '/'
  }

  /** A path element that names a file. */
  predicate Proper(name: string) {
    name != "" && '/' !in name && name != "." && name != ".."
  }

  predicate AllProper(names: seq<string>) {
    forall i :: 0 <= i < |names| ==> Proper(names[i])
  }

  /** Drops empty and "." elements and lets ".." remove the element before it. */
  function Resolve(parts: seq<string>, stack: seq<string>, rooted: bool): seq<string> {
    if parts == [] then stack
    else if parts[0] == "" || parts[0] == "." then Resolve(parts[1..], stack, rooted)
    else if parts[0] == ".." then
      if stack != [] && stack[|stack| - 1] != ".." then Resolve(parts[1..], stack[..|stack| - 1], rooted)
      else if rooted then Resolve(parts[1..], stack, rooted)
      else Resolve(parts[1..], stack + [".."], rooted)
    else Resolve(parts[1..], stack + [parts[0]], rooted)
  }

  /** filepath.Clean. */
  function Clean(p: string): string {
    var names := Resolve(Split(p, '/'), [], IsAbs(p));
    if IsAbs(p) then Rooted(names) else if names == [] then "." else Join(names, "/")
  }

  function Rooted(names: seq<string>): string {
    "/" + Join(names, "/")
  }

  /** Index after the last '/', or 0. */
  function AfterSlash(p: string): (i: nat)
    ensures i <= |p|
    ensures i > 0 ==> p[i - 1] == '/'
    ensures '/' !in p[i..]
  {
    if p == "" then 0
    else if p[|p| - 1] == '/' then |p|
    else
      var i := AfterSlash(p[..|p| - 1]);
      assert p[i..] == p[..|p| - 1][i..] + [p[|p| - 1]];
      i
  }

  /** filepath.Dir. */
  function Dir(p: string): string {
    Clean(p[..AfterSlash(p)])
  }

  predicate IsSlash(c: char) {
    c == '/'
  }

  /** filepath.Base. */
  function Base(p: string): string {
    if p == "" then "."
    else
      var t := TrimRightBy(IsSlash, p);
      if t == "" then "/" else t[AfterSlash(t)..]
  }

  /** filepath.Join of a non-empty path and a name. */
  function JoinPath(dir: string, name: string): string {
    Clean(dir + "/" + name)
  }

  // ---- Clean paths ----------------------------------------------------------

  lemma {:induction false} ResolveProper(parts: seq<string>, stack: seq<string>)
    requires AllProper(parts)
    ensures Resolve(parts, stack, true) == stack + parts
  {
    if parts != [] {
      assert Proper(parts[0]);
      ResolveProper(parts[1..], stack + [parts[0]]);
      assert stack + [parts[0]] + parts[1..] == stack + parts;
    }
  }

  lemma {:induction false} ResolveRooted(parts: seq<string>, stack: seq<string>)
    requires Free(parts, '/') && AllProper(stack)
    ensures AllProper(Resolve(parts, stack, true))
  {
    if parts == [] {
    } else if parts[0] == "" || parts[0] == "." {
      ResolveRooted(parts[1..], stack);
    } else if parts[0] == ".." {
      if stack != [] && stack[|stack| - 1] != ".." {
        ResolveRooted(parts[1..], stack[..|stack| - 1]);
      } else {
        ResolveRooted(parts[1..], stack);
      }
    } else {
      ResolveRooted(parts[1..], stack + [parts[0]]);
    }
  }

  lemma SplitRooted(names: seq<string>)
    requires AllProper(names)
    ensures Split(Rooted(names), '/') == [""] + if names == [] then [""] else names
  {
    var parts := [""] + names;
    assert Free(names, '/');
    SplitHead("", '/', Join(names, "/"));
    assert Rooted(names) == "" + ['/'] + Join(names, "/");
    if names != [] {
      SplitJoin(names, '/');
    }
  }

  /** The clean absolute paths are the rooted lists of proper names. */
  lemma CleanRooted(names: seq<string>)
    requires AllProper(names)
    ensures Clean(Rooted(names)) == Rooted(names) && IsAbs(Rooted(names))
  {
    NamesRooted(names);
  }

  /** The names of a cleaned absolute path. */
  function Names(p: string): seq<string> {
    Resolve(Split(p, '/'), [], true)
  }

  lemma CleanAbs(p: string)
    requires IsAbs(p)
    ensures AllProper(Names(p)) && Clean(p) == Rooted(Names(p)) && IsAbs(Clean(p))
    ensures Clean(Clean(p)) == Clean(p) && Names(Clean(p)) == Names(p)
  {
    JoinSplit(p, '/');
    ResolveRooted(Split(p, '/'), []);
    CleanRooted(Names(p));
    NamesRooted(Names(p));
  }

  lemma NamesRooted(names: seq<string>)
    requires AllProper(names)
    ensures Names(Rooted(names)) == names
  {
    SplitRooted(names);
    var parts := Split(Rooted(names), '/');
    if names == [] {
      assert parts == ["", ""] && parts[1..] == [""] && [""][1..] == [];
      assert Resolve([""], [], true) == Resolve([], [], true);
    } else {
      assert parts[1..] == names;
      ResolveProper(names, []);
      assert [] + names == names;
    }
  }

  /** Different lists of proper names are different paths. */
  lemma RootedInjective(a: seq<string>, b: seq<string>)
    requires AllProper(a) && AllProper(b) && Rooted(a) == Rooted(b)
    ensures a == b
  {
    NamesRooted(a);
    NamesRooted(b);
  }

  lemma {:induction false} JoinSnoc(names: seq<string>, name: string)
    requires names != []
    ensures Join(names + [name], "/") == Join(names, "/") + "/" + name
  {
    assert (names + [name])[1..] == names[1..] + [name];
    if |names| > 1 {
      JoinSnoc(names[1..], name);
    } else {
      assert names[1..] + [name] == [name];
    }
  }

  lemma ResolveBlanks(name: string)
    requires Proper(name)
    ensures Resolve(["", "", name], [], true) == [name]
  {
    assert ["", "", name][1..] == ["", name] && ["", name][1..] == [name];
    ResolveProper([name], []);
    assert [] + [name] == [name];
  }

  /** One more name below a clean directory. */
  lemma Below(names: seq<string>, name: string)
    requires AllProper(names) && Proper(name)
    ensures AllProper(names + [name])
    ensures Rooted(names + [name]) == (if names == [] then "" else Rooted(names)) + "/" + name
    ensures JoinPath(Rooted(names), name) == Rooted(names + [name])
  {
    if names == [] {
      assert names + [name] == [name];
      var p := Rooted([]) + "/" + name;
      assert p == "" + ['/'] + ("" + ['/'] + name);
      SplitHead("", '/', "" + ['/'] + name);
      SplitHead("", '/', name);
      SplitNone(name, '/');
      assert Split(p, '/') == ["", "", name];
      ResolveBlanks(name);
      assert AllProper([name]);
      assert IsAbs(p) && Rooted([]) == "/";
    } else {
      JoinSnoc(names, name);
      CleanRooted(names + [name]);
    }
  }

  lemma {:induction false} LastSlash(head: string, name: string)
    requires '/' !in name
    ensures AfterSlash(head + "/" + name) == |head| + 1
  {
    var p := head + "/" + name;
    if name == "" {
      assert p[|p| - 1] == '/';
    } else {
      assert p[|p| - 1] == name[|name| - 1];
      assert p[..|p| - 1] == head + "/" + name[..|name| - 1];
      LastSlash(head, name[..|name| - 1]);
    }
  }

  /** Dir and Base take a clean path apart at its last name. */
  lemma DirBase(names: seq<string>, name: string)
    requires AllProper(names) && Proper(name)
    ensures Dir(Rooted(names + [name])) == Rooted(names)
    ensures Base(Rooted(names + [name])) == name
  {
    Below(names, name);
    var head := if names == [] then "" else Rooted(names);
    var p := head + "/" + name;
    LastSlash(head, name);
    assert p[|p| - 1] == name[|name| - 1];
    assert name[|name| - 1] in name;
    assert TrimRightBy(IsSlash, p) == p;
    assert p[|head| + 1..] == name;
    assert p[..|head| + 1] == head + "/";
    CleanSlash(names);
  }

  lemma BaseOfRoot()
    ensures Base(Rooted([])) == "/" && Rooted([]) == "/"
  {
    assert TrimRightBy(IsSlash, "") == "";
    assert "/"[..0] == "";
  }

  /** Base and Dir of a clean absolute path that is not the root. */
  lemma LastName(p: string) returns (front: seq<string>)
    requires IsAbs(p) && Clean(p) == p && Base(p) != "/"
    ensures AllProper(front) && p == Rooted(front + [Base(p)])
    ensures Dir(p) == Rooted(front) && IsAbs(Dir(p)) && Clean(Dir(p)) == Dir(p)
  {
    CleanAbs(p);
    BaseOfRoot();
    var names := Names(p);
    front := names[..|names| - 1];
    var last := names[|names| - 1];
    assert names == front + [last];
    assert Proper(last);
    DirBase(front, last);
    CleanRooted(front);
  }

  lemma CleanSlash(names: seq<string>)
    requires AllProper(names)
    ensures Clean((if names == [] then "" else Rooted(names)) + "/") == Rooted(names)
  {
    if names == [] {
      CleanRooted([]);
      assert "" + "/" == Rooted([]);
    } else {
      var parts := [""] + names + [""];
      var p := Rooted(names) + "/";
      JoinSnoc([""] + names, "");
      assert ([""] + names)[1..] == names;
      assert p == Join(parts, "/");
      assert Free(parts, '/') by {
        forall i | 0 <= i < |parts|
          ensures '/' !in parts[i]
        {
          assert 1 <= i < |parts| - 1 ==> Proper(names[i - 1]);
        }
      }
      SplitJoin(parts, '/');
      assert parts[1..] == names + [""];
      ResolveTail(names, []);
      assert [] + names == names;
    }
  }

  lemma {:induction false} ResolveTail(names: seq<string>, stack: seq<string>)
    requires AllProper(names)
    ensures Resolve(names + [""], stack, true) == stack + names
  {
    if names == [] {
      assert names + [""] == [""];
      assert [""][1..] == [];
    } else {
      assert (names + [""])[1..] == names[1..] + [""];
      assert Proper(names[0]);
      ResolveTail(names[1..], stack + [names[0]]);
      assert stack + [names[0]] + names[1..] == stack + names;
    }
  }

  lemma {:induction false} ResolveLast(parts: seq<string>, name: string, stack: seq<string>, rooted: bool)
    requires Proper(name)
    ensures Resolve(parts + [name], stack, rooted) == Resolve(parts, stack, rooted) + [name]
  {
    if parts == [] {
      assert parts + [name] == [name] && [name][1..] == [];
    } else {
      assert (parts + [name])[0] == parts[0] && (parts + [name])[1..] == parts[1..] + [name];
      if parts[0] == "" || parts[0] == "." {
        ResolveLast(parts[1..], name, stack, rooted);
      } else if parts[0] == ".." {
        if stack != [] && stack[|stack| - 1] != ".." {
          ResolveLast(parts[1..], name, stack[..|stack| - 1], rooted);
        } else if rooted {
          ResolveLast(parts[1..], name, stack, rooted);
        } else {
          ResolveLast(parts[1..], name, stack + [".."], rooted);
        }
      } else {
        ResolveLast(parts[1..], name, stack + [parts[0]], rooted);
      }
    }
  }

  lemma JoinEnds(names: seq<string>, name: string)
    ensures HasSuffix(Join(names + [name], "/"), name)
  {
    if names == [] {
      assert names + [name] == [name];
    } else {
      JoinSnoc(names, name);
    }
  }

  /** A joined path ends in the name, whatever the directory is. */
  lemma JoinPathEnds(dir: string, name: string)
    requires Proper(name)
    ensures HasSuffix(JoinPath(dir, name), name)
  {
    var p := dir + "/" + name;
    SplitAppend(dir, '/', name);
    SplitNone(name, '/');
    assert p == dir + ['/'] + name;
    ResolveLast(Split(dir, '/'), name, [], IsAbs(p));
    var names := Resolve(Split(dir, '/'), [], IsAbs(p));
    JoinEnds(names, name);
  }

  lemma {:induction false} ResolveAppend(a: seq<string>, b: seq<string>, stack: seq<string>)
    ensures Resolve(a + b, stack, true) == Resolve(b, Resolve(a, stack, true), true)
  {
    if a == [] {
      assert a + b == b;
    } else {
      assert (a + b)[0] == a[0] && (a + b)[1..] == a[1..] + b;
      if a[0] == "" || a[0] == "." {
        ResolveAppend(a[1..], b, stack);
      } else if a[0] == ".." {
        ResolveAppend(a[1..], b, if stack != [] && stack[|stack| - 1] != ".." then stack[..|stack| - 1] else stack);
      } else {
        ResolveAppend(a[1..], b, stack + [a[0]]);
      }
    }
  }

  lemma CleanOf(names: seq<string>)
    requires names != [] && Free(names, '/')
    ensures Clean(Rooted(names)) == Rooted(Resolve(names, [], true))
  {
    SplitHead("", '/', Join(names, "/"));
    assert Rooted(names) == "" + ['/'] + Join(names, "/");
    SplitJoin(names, '/');
    assert ([""] + names)[1..] == names;
  }

  /** Between proper names, cleaning removes an empty name, a dot, and a name with the two dots behind it; two dots
      at the root are removed too. */
  lemma CleanRemoves(front: seq<string>, x: string, rest: seq<string>)
    requires AllProper(front) && AllProper(rest) && Proper(x)
    ensures Clean(Rooted(front + [""] + rest)) == Rooted(front + rest) && Clean(Rooted(front + ["."] + rest)) == Rooted(front + rest)
    ensures Clean(Rooted(front + [x, ".."] + rest)) == Rooted(front + rest)
    ensures front == [] ==> Clean(Rooted([".."] + rest)) == Rooted(rest)
  {
    Removed(front, [""], rest);
    Removed(front, ["."], rest);
    Removed(front, [x, ".."], rest);
    ResolvePair(front, x);
    ResolveNothing(front);
    if front == [] {
      Removed([], [".."], rest);
      assert [] + [".."] + rest == [".."] + rest && [] + rest == rest;
      assert [".."][1..] == [] && Resolve([".."], [], true) == [];
    }
  }

  lemma ResolveNothing(stack: seq<string>)
    ensures Resolve([""], stack, true) == stack && Resolve(["."], stack, true) == stack
  {
    assert [""][1..] == [] && ["."][1..] == [];
  }

  lemma ResolvePair(stack: seq<string>, x: string)
    requires AllProper(stack) && Proper(x)
    ensures Resolve([x, ".."], stack, true) == stack
  {
    assert [x, ".."][1..] == [".."] && [".."][1..] == [];
    assert (stack + [x])[|stack| + 1 - 1] == x;
    assert (stack + [x])[..|stack + [x]| - 1] == stack;
    assert Resolve([".."], stack + [x], true) == Resolve([".."][1..], stack, true);
  }

  lemma Removed(front: seq<string>, mid: seq<string>, rest: seq<string>)
    requires AllProper(front) && AllProper(rest) && mid != [] && Free(mid, '/')
    ensures Resolve(mid, front, true) == front ==> Clean(Rooted(front + mid + rest)) == Rooted(front + rest)
  {
    var names := front + mid + rest;
    forall i | 0 <= i < |names|
      ensures '/' !in names[i]
    {
      if i < |front| {
        assert Proper(front[i]);
      } else if i < |front| + |mid| {
        assert names[i] == mid[i - |front|];
      } else {
        assert Proper(rest[i - |front| - |mid|]);
      }
    }
    CleanOf(names);
    ResolveAppend(front + mid, rest, []);
    ResolveAppend(front, mid, []);
    ResolveProper(front, []);
    assert [] + front == front;
    ResolveProper(rest, front);
  }
}
