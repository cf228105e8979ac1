/** The parts of `pathlib.PurePath` the modelled code reads: joining, the final name and its suffix. */
module Paths {
  import opened Text

  /** `Path(base) / path`: an absolute path replaces the base, a relative one goes below it. */
  function JoinPath(base: string, path: string): (r: string)
    ensures StartsWith(path, "/") ==> r == path
    ensures !StartsWith(path, "/") ==> StartsWith(r, base) && EndsWith(r, "/" + path)
  {
    if StartsWith(path, "/") then path
    else
      assert (base + "/" + path)[..|base|] == base;
      assert (base + "/" + path)[|base|..] == "/" + path;
      base + "/" + path
  }

  /** The path without its trailing slashes. */
  function TrimSlashes(path: string): (r: string)
    ensures StartsWith(path, r)
    ensures r == [] || r[|r| - 1] != '/'
  {
    if path != [] && path[|path| - 1] == '/' then TrimSlashes(path[..|path| - 1]) else path
  }

  /** What follows the last slash. */
  function LastComponent(path: string): (r: string)
    ensures '/' !in r
    ensures EndsWith(path, r)
    ensures |r| < |path| ==> path[|path| - |r| - 1] == '/'
  {
    if path == [] || path[|path| - 1] == '/' then []
    else
      var prev := LastComponent(path[..|path| - 1]);
      LastComponentStep(path[..|path| - 1], path[|path| - 1], prev);
      assert path == path[..|path| - 1] + [path[|path| - 1]];
      prev + [path[|path| - 1]]
  }

  /** A last character other than a slash extends the last component of the rest. */
  lemma LastComponentStep(q: string, c: char, prev: string)
    requires c != '/' && '/' !in prev && EndsWith(q, prev)
    requires |prev| < |q| ==> q[|q| - |prev| - 1] == '/'
    ensures '/' !in prev + [c] && EndsWith(q + [c], prev + [c])
    ensures |prev| < |q| ==> (q + [c])[|q| - |prev| - 1] == '/'
  {
    assert (q + [c])[|q| - |prev|..] == q[|q| - |prev|..] + [c];
  }

  /** `Path(p).name`: the final component, trailing slashes ignored. */
  function BaseName(path: string): (r: string)
  {
    LastComponent(TrimSlashes(path))
  }

  /**
   * The name holds no slash and ends the path up to its trailing slashes,
   * right after a slash or at the start.
   */
  lemma BaseNameSpec(path: string)
    ensures '/' !in BaseName(path)
    ensures var t := TrimSlashes(path);
      && EndsWith(t, BaseName(path))
      && (|BaseName(path)| < |t| ==> t[|t| - |BaseName(path)| - 1] == '/')
      && AllSlashes(path[|t|..])
  {
    TrimmedTail(path);
  }

  predicate AllSlashes(s: string)
  {
    forall i :: 0 <= i < |s| ==> s[i] == '/'
  }

  lemma {:induction false} TrimmedTail(path: string)
    ensures AllSlashes(path[|TrimSlashes(path)|..])
  {
    if path != [] && path[|path| - 1] == '/' {
      TrimmedTail(path[..|path| - 1]);
      var t := TrimSlashes(path);
      assert path[|t|..] == path[..|path| - 1][|t|..] + ['/'];
    }
  }

  /** `Path.suffix`: from the last dot of the name, unless the dot is first or last. */
  function Suffix(name: string): string
  {
    var i := RFind(name, ".");
    if 0 < i < |name| - 1 then name[i..] else ""
  }

  /**
   * A suffix is a proper tail of the name made of a dot and at least one
   * more character, none of them a dot, and the name has a suffix exactly
   * when its last dot is neither its first nor its last character.
   */
  lemma SuffixSpec(name: string)
    ensures var x := Suffix(name);
      x != "" ==> && 2 <= |x| < |name| && EndsWith(name, x) && x[0] == '.' && '.' !in x[1..]
    ensures Suffix(name) == "" <==> !exists i :: 0 < i < |name| - 1 && name[i] == '.' && '.' !in name[i + 1..]
  {
    var i := RFind(name, ".");
    if 0 < i < |name| - 1 {
      var x := name[i..];
      assert name[i..i + 1] == ".";
      assert '.' !in x[1..] by {
        forall k | 0 <= k < |x[1..]| ensures x[1..][k] != '.' {
          assert !OccursAt(name, ".", i + 1 + k);
          assert name[i + 1 + k..i + 2 + k] == [x[1..][k]];
        }
      }
    } else {
      forall j | 0 < j < |name| - 1 && name[j] == '.'
        ensures '.' in name[j + 1..]
      {
        assert name[j..j + 1] == ".";
        assert OccursAt(name, ".", j);
        assert i > j;
        assert name[i..i + 1] == ".";
        assert name[j + 1..][i - j - 1] == '.';
      }
    }
  }
}
