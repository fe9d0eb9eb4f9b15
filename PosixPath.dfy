/** The `pathlib.PurePosixPath` accessors the orchestrator uses: `name`, `suffix`, `stem` and `/`. */
module PosixPath {
  import opened Wrappers
  import opened Text

  /** `Path(p).name`: the last component, trailing slashes ignored. */
  function Name(p: string): (r: string)
    ensures '/' !in r
  {
    var q := RStrip(p, '/');
    match RFind(q, "/")
    case Some(i) =>
      assert forall j :: i < j < |q| ==> q[j] != '/' by {
        forall j | i < j < |q| ensures q[j] != '/' {
          assert q[j..j + 1] == [q[j]];
          assert !OccursAt(q, "/", j);
        }
      }
      q[i + 1..]
    case None =>
      assert forall j :: 0 <= j < |q| ==> q[j] != '/' by {
        forall j | 0 <= j < |q| ensures q[j] != '/' {
          assert q[j..j + 1] == [q[j]];
          assert !OccursAt(q, "/", j);
        }
      }
      q
  }

  /** Where the suffix of a name starts, when it has one: at its last '.', neither first nor last. */
  function SuffixStart(name: string): (r: Option<nat>)
    ensures r.Some? ==> 0 < r.value < |name| - 1 && name[r.value] == '.'
    ensures r.Some? ==> forall j :: r.value < j < |name| ==> name[j] != '.'
  {
    match RFind(name, ".")
    case Some(i) =>
      if 0 < i < |name| - 1 then
        assert name[i..i + 1] == ".";
        assert forall j :: i < j < |name| ==> name[j] != '.' by {
          forall j | i < j < |name| ensures name[j] != '.' {
            assert name[j..j + 1] == [name[j]];
            assert !OccursAt(name, ".", j);
          }
        }
        Some(i)
      else None
    case None => None
  }

  /** `Path(p).suffix`: "" or a '.' followed by at least one character and no further '.'. */
  function Suffix(p: string): (r: string)
    ensures r == [] || (|r| >= 2 && r[0] == '.' && '.' !in r[1..] && '/' !in r)
  {
    var name := Name(p);
    match SuffixStart(name)
    case Some(i) => name[i..]
    case None => ""
  }

  /** `Path(p).stem`: the name without its suffix. */
  function Stem(p: string): (r: string)
    ensures r + Suffix(p) == Name(p)
  {
    var name := Name(p);
    match SuffixStart(name)
    case Some(i) => name[..i]
    case None => name
  }

  /** `Path(dir) / rel`: an absolute `rel` replaces the directory. */
  function JoinPath(dir: string, rel: string): string {
    if StartsWith(rel, "/") then rel else if dir == "" then rel else dir + "/" + rel
  }

  /** Stem and suffix depend on the name alone. */
  lemma SameNameSameParts(p: string, q: string)
    requires Name(p) == Name(q)
    ensures Stem(p) == Stem(q) && Suffix(p) == Suffix(q)
  {
  }

  /** A name built from a stem and a suffix has exactly that stem and suffix. */
  lemma {:induction false} StemAndSuffixOf(stem: string, suffix: string)
    requires stem != [] && '/' !in stem
    requires |suffix| >= 2 && suffix[0] == '.' && '.' !in suffix[1..] && '/' !in suffix
    ensures Name(stem + suffix) == stem + suffix
    ensures Suffix(stem + suffix) == suffix && Stem(stem + suffix) == stem
  {
    var n := stem + suffix;
    assert n[|n| - 1] == suffix[|suffix| - 1];
    assert RStrip(n, '/') == n;
    assert forall j :: 0 <= j < |n| ==> !OccursAt(n, "/", j) by {
      forall j | 0 <= j < |n| ensures !OccursAt(n, "/", j) {
        if j < |stem| { assert n[j] == stem[j]; } else { assert n[j] == suffix[j - |stem|]; }
      }
    }
    assert Name(n) == n;
    var k := |stem|;
    assert OccursAt(n, ".", k) by { assert n[k..k + 1] == [suffix[0]]; }
    assert forall j :: k < j ==> !OccursAt(n, ".", j) by {
      forall j | k < j ensures !OccursAt(n, ".", j) {
        if j < |n| {
          assert n[j] == suffix[1..][j - k - 1];
          assert n[j..j + 1] == [n[j]];
        }
      }
    }
    assert RFind(n, ".") == Some(k);
    assert n[k..] == suffix && n[..k] == stem;
  }

  /** The name of `dir/base` is `base` for a non-empty base without '/'. */
  lemma NameOfChild(dir: string, base: string)
    requires base != [] && '/' !in base
    ensures Name(dir + "/" + base) == base
  {
    var p := dir + "/" + base;
    assert p[|p| - 1] == base[|base| - 1];
    assert RStrip(p, '/') == p;
    assert OccursAt(p, "/", |dir|) by { assert p[|dir|..|dir| + 1] == "/"; }
    assert forall j :: |dir| < j ==> !OccursAt(p, "/", j) by {
      forall j | |dir| < j ensures !OccursAt(p, "/", j) {
        if j < |p| {
          assert p[j] == base[j - |dir| - 1];
          assert p[j..j + 1] == [p[j]];
        }
      }
    }
    assert p[|dir| + 1..] == base;
  }
}
