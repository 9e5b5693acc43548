/** The two pieces of Go's path/filepath the handler uses to name its
    temporary files, for slash-separated paths. */
module FilePath {

  const Separator: char := '/'

  /** filepath.Join of a directory and one name. The lexical clean-up Join
      also performs is not modelled: the names joined here hold no separator. */
  function Join(dir: string, name: string): string
  {
    if dir == [] then name else dir + [Separator] + name
  }

  /** filepath.Ext: the suffix of path from its final dot, provided that dot
      lies in the last path element; the empty string when there is none. */
  function Ext(path: string): string
    decreases |path|
  {
    if path == [] then []
    else
      var last := path[|path| - 1];
      if last == Separator then []
      else if last == '.' then [last]
      else
        var e := Ext(path[..|path| - 1]);
        if e == [] then [] else e + [last]
  }

  /** Some dot of the path lies in its last element (no separator follows it). */
  ghost predicate DotInLastElement(path: string)
  {
    exists i :: 0 <= i < |path| && path[i] == '.' && Separator !in path[i..]
  }

  /** The extension is empty or a dot followed by no other dot and no
      separator, and it is a suffix of the path. */
  lemma {:induction false} ExtShape(path: string)
    ensures var e := Ext(path);
      (e == [] || e[0] == '.') &&
      |e| <= |path| && e == path[|path| - |e|..] &&
      Separator !in e &&
      (e != [] ==> '.' !in e[1..])
    decreases |path|
  {
    if path != [] {
      var last := path[|path| - 1];
      var p := path[..|path| - 1];
      if last != Separator && last != '.' {
        ExtShape(p);
        var e := Ext(p);
        if e != [] {
          assert path == p + [last];
          assert path[|path| - |e| - 1..] == p[|p| - |e|..] + [last];
          assert (e + [last])[1..] == e[1..] + [last];
          assert Separator !in e + [last];
        }
      }
    }
  }

  /** The extension is non-empty exactly when some dot lies in the last
      path element. */
  lemma {:induction false} ExtFindsLastElementDot(path: string)
    ensures Ext(path) != [] <==> DotInLastElement(path)
    decreases |path|
  {
    if path != [] {
      var last := path[|path| - 1];
      var p := path[..|path| - 1];
      if last == Separator {
        forall i | 0 <= i < |path|
          ensures Separator in path[i..]
        {
          assert path[i..][|path| - 1 - i] == Separator;
        }
      } else if last == '.' {
        assert path[|path| - 1..] == [last];
      } else {
        ExtFindsLastElementDot(p);
        assert path == p + [last];
        forall i | 0 <= i < |p|
          ensures path[i..] == p[i..] + [last]
        {
        }
        if Ext(p) != [] {
          var k :| 0 <= k < |p| && p[k] == '.' && Separator !in p[k..];
          assert Separator !in path[k..];
        } else {
          forall k | 0 <= k < |path| && path[k] == '.'
            ensures Separator in path[k..]
          {
            assert k < |p| && Separator in p[k..];
          }
        }
      }
    }
  }

  /** A single path element that Go's lexical clean-up leaves as it is:
      non-empty, without a separator, and neither "." nor "..". */
  predicate PlainName(name: string)
  {
    name != [] && Separator !in name && name != "." && name != ".."
  }

  /** Joining one directory with two different plain names gives two
      different paths. */
  lemma JoinInjective(dir: string, a: string, b: string)
    requires PlainName(a) && PlainName(b)
    ensures a != b ==> Join(dir, a) != Join(dir, b)
  {
    if dir != [] {
      assert a == Join(dir, a)[|dir| + 1..];
      assert b == Join(dir, b)[|dir| + 1..];
    }
  }
}
