/**
 * `get_directory_contents`, the same in utils.py and in the package's file
 * explorer: `sorted(directory.iterdir(), key=lambda x: (x.is_file(), x.name.lower()))`,
 * or `[]` when listing the directory is not permitted.
 */
module Directories {
  import opened Paths

  /** The sort key `(x.is_file(), x.name.lower())`. */
  datatype SortKey = SortKey(isFile: bool, lowered: string)

  function KeyOf(fs: FileSystem, p: Path): SortKey {
    SortKey(fs.kind(p) == RegularFile, Lower(Name(p)))
  }

  /** Python's `<=` on strings: lexicographic by code point. */
  predicate LexLe(a: string, b: string)
    decreases |a|
  {
    |a| == 0 || (|b| > 0 && (a[0] < b[0] || (a[0] == b[0] && LexLe(a[1..], b[1..]))))
  }

  /** Python's `<=` on the key tuples, with `False < True`. */
  predicate KeyLe(a: SortKey, b: SortKey) {
    (!a.isFile && b.isFile) || (a.isFile == b.isFile && LexLe(a.lowered, b.lowered))
  }

  lemma {:induction false} LexLeTotal(a: string, b: string)
    ensures LexLe(a, b) || LexLe(b, a)
    decreases |a|
  {
    if |a| > 0 && |b| > 0 && a[0] == b[0] {
      LexLeTotal(a[1..], b[1..]);
    }
  }

  lemma {:induction false} LexLeTransitive(a: string, b: string, c: string)
    requires LexLe(a, b) && LexLe(b, c)
    ensures LexLe(a, c)
    decreases |a|
  {
    if |a| > 0 && a[0] == b[0] && b[0] == c[0] {
      LexLeTransitive(a[1..], b[1..], c[1..]);
    }
  }

  lemma KeyLeTotal(a: SortKey, b: SortKey)
    ensures KeyLe(a, b) || KeyLe(b, a)
  {
    LexLeTotal(a.lowered, b.lowered);
  }

  lemma KeyLeTransitive(a: SortKey, b: SortKey, c: SortKey)
    requires KeyLe(a, b) && KeyLe(b, c)
    ensures KeyLe(a, c)
  {
    if a.isFile == b.isFile == c.isFile {
      LexLeTransitive(a.lowered, b.lowered, c.lowered);
    }
  }

  /** Every earlier entry has a key no greater than every later one. */
  predicate Sorted(fs: FileSystem, s: seq<Path>) {
    forall i, j :: 0 <= i < j < |s| ==> KeyLe(KeyOf(fs, s[i]), KeyOf(fs, s[j]))
  }

  /** Insert `x` before the first entry whose key is not smaller than its own. */
  function Insert(fs: FileSystem, x: Path, s: seq<Path>): (r: seq<Path>)
    ensures multiset(r) == multiset(s) + multiset{x}
  {
    if s == [] then [x]
    else if KeyLe(KeyOf(fs, x), KeyOf(fs, s[0])) then [x] + s
    else
      assert s == [s[0]] + s[1..];
      [s[0]] + Insert(fs, x, s[1..])
  }

  /** A stable sort of the entries by their keys. */
  function Sort(fs: FileSystem, s: seq<Path>): (r: seq<Path>)
    ensures multiset(r) == multiset(s)
  {
    if s == [] then []
    else
      assert s == [s[0]] + s[1..];
      Insert(fs, s[0], Sort(fs, s[1..]))
  }

  /** Every entry of `s` has a key no smaller than `k`. */
  predicate AllAbove(fs: FileSystem, k: SortKey, s: seq<Path>) {
    forall j :: 0 <= j < |s| ==> KeyLe(k, KeyOf(fs, s[j]))
  }

  lemma SortedCons(fs: FileSystem, a: Path, t: seq<Path>)
    requires AllAbove(fs, KeyOf(fs, a), t) && Sorted(fs, t)
    ensures Sorted(fs, [a] + t)
  {
    var r := [a] + t;
    forall i, j | 0 <= i < j < |r|
      ensures KeyLe(KeyOf(fs, r[i]), KeyOf(fs, r[j]))
    {
      assert r[j] == t[j - 1];
      if i > 0 {
        assert r[i] == t[i - 1];
      }
    }
  }

  /** `AllAbove` of `[a] + t` follows from `a` and `t` separately. */
  lemma AboveCons(fs: FileSystem, k: SortKey, a: Path, t: seq<Path>)
    requires KeyLe(k, KeyOf(fs, a)) && AllAbove(fs, k, t)
    ensures AllAbove(fs, k, [a] + t)
  {
    var r := [a] + t;
    forall j | 0 <= j < |r|
      ensures KeyLe(k, KeyOf(fs, r[j]))
    {
      if j > 0 {
        assert r[j] == t[j - 1];
      }
    }
  }

  lemma {:induction false} InsertAbove(fs: FileSystem, k: SortKey, x: Path, s: seq<Path>)
    requires AllAbove(fs, k, s) && KeyLe(k, KeyOf(fs, x))
    ensures AllAbove(fs, k, Insert(fs, x, s))
  {
    if s == [] {
      AboveCons(fs, k, x, s);
    } else if KeyLe(KeyOf(fs, x), KeyOf(fs, s[0])) {
      AboveCons(fs, k, x, s);
    } else {
      assert AllAbove(fs, k, s[1..]) by {
        forall j | 0 <= j < |s| - 1
          ensures KeyLe(k, KeyOf(fs, s[1..][j]))
        {
          assert s[1..][j] == s[j + 1];
        }
      }
      InsertAbove(fs, k, x, s[1..]);
      AboveCons(fs, k, s[0], Insert(fs, x, s[1..]));
    }
  }

  lemma {:induction false} InsertSorted(fs: FileSystem, x: Path, s: seq<Path>)
    requires Sorted(fs, s)
    ensures Sorted(fs, Insert(fs, x, s))
  {
    if s == [] {
    } else if KeyLe(KeyOf(fs, x), KeyOf(fs, s[0])) {
      forall j | 0 <= j < |s|
        ensures KeyLe(KeyOf(fs, x), KeyOf(fs, s[j]))
      {
        if j > 0 {
          KeyLeTransitive(KeyOf(fs, x), KeyOf(fs, s[0]), KeyOf(fs, s[j]));
        }
      }
      SortedCons(fs, x, s);
    } else {
      var t := s[1..];
      assert Sorted(fs, t) by {
        forall i, j | 0 <= i < j < |t|
          ensures KeyLe(KeyOf(fs, t[i]), KeyOf(fs, t[j]))
        {
          assert t[i] == s[i + 1] && t[j] == s[j + 1];
        }
      }
      assert AllAbove(fs, KeyOf(fs, s[0]), t) by {
        forall j | 0 <= j < |t|
          ensures KeyLe(KeyOf(fs, s[0]), KeyOf(fs, t[j]))
        {
          assert t[j] == s[j + 1];
        }
      }
      InsertSorted(fs, x, t);
      KeyLeTotal(KeyOf(fs, x), KeyOf(fs, s[0]));
      InsertAbove(fs, KeyOf(fs, s[0]), x, t);
      SortedCons(fs, s[0], Insert(fs, x, t));
    }
  }

  lemma {:induction false} SortSorted(fs: FileSystem, s: seq<Path>)
    ensures Sorted(fs, Sort(fs, s))
  {
    if s != [] {
      SortSorted(fs, s[1..]);
      InsertSorted(fs, s[0], Sort(fs, s[1..]));
    }
  }

  lemma {:induction false} LexLeReflexive(a: string)
    ensures LexLe(a, a)
    decreases |a|
  {
    if |a| > 0 {
      LexLeReflexive(a[1..]);
    }
  }

  /** The entries of `s` whose key is `k`, in the order of `s`. */
  function WithKey(fs: FileSystem, k: SortKey, s: seq<Path>): (r: seq<Path>)
    ensures forall p :: p in r <==> p in s && KeyOf(fs, p) == k
  {
    if s == [] then []
    else (if KeyOf(fs, s[0]) == k then [s[0]] else []) + WithKey(fs, k, s[1..])
  }

  lemma WithKeyCons(fs: FileSystem, k: SortKey, a: Path, t: seq<Path>)
    ensures WithKey(fs, k, [a] + t) == (if KeyOf(fs, a) == k then [a] else []) + WithKey(fs, k, t)
  {
    assert ([a] + t)[1..] == t;
  }

  /**
   * `x` goes in front of every entry whose key equals its own, so among
   * the entries with one key it comes first.
   */
  lemma {:induction false} InsertPutsFirstAmongEqual(fs: FileSystem, k: SortKey, x: Path, s: seq<Path>)
    ensures WithKey(fs, k, Insert(fs, x, s)) == (if KeyOf(fs, x) == k then [x] else []) + WithKey(fs, k, s)
  {
    if s == [] || KeyLe(KeyOf(fs, x), KeyOf(fs, s[0])) {
      assert Insert(fs, x, s) == [x] + s;
      WithKeyCons(fs, k, x, s);
    } else {
      var t := s[1..];
      var u := Insert(fs, x, t);
      assert Insert(fs, x, s) == [s[0]] + u;
      assert s == [s[0]] + t;
      LexLeReflexive(KeyOf(fs, x).lowered);
      assert KeyLe(KeyOf(fs, x), KeyOf(fs, x));
      InsertPutsFirstAmongEqual(fs, k, x, t);
      PassOver(fs, k, x, s[0], t, u);
    }
  }

  /** Passing over an entry whose key differs from that of `x`. */
  lemma PassOver(fs: FileSystem, k: SortKey, x: Path, a: Path, t: seq<Path>, u: seq<Path>)
    requires KeyOf(fs, a) != KeyOf(fs, x)
    requires WithKey(fs, k, u) == (if KeyOf(fs, x) == k then [x] else []) + WithKey(fs, k, t)
    ensures WithKey(fs, k, [a] + u) == (if KeyOf(fs, x) == k then [x] else []) + WithKey(fs, k, [a] + t)
  {
    WithKeyCons(fs, k, a, u);
    WithKeyCons(fs, k, a, t);
    if KeyOf(fs, a) == k {
      assert WithKey(fs, k, u) == WithKey(fs, k, t);
    } else {
      assert WithKey(fs, k, [a] + u) == WithKey(fs, k, u);
      assert WithKey(fs, k, [a] + t) == WithKey(fs, k, t);
    }
  }

  /** The sort is stable: entries with equal keys keep their relative order. */
  lemma {:induction false} SortStable(fs: FileSystem, k: SortKey, s: seq<Path>)
    ensures WithKey(fs, k, Sort(fs, s)) == WithKey(fs, k, s)
  {
    if s != [] {
      SortStable(fs, k, s[1..]);
      InsertPutsFirstAmongEqual(fs, k, s[0], Sort(fs, s[1..]));
    }
  }

  /** The directory's sorted contents; a permission failure gives the empty list. */
  function Contents(fs: FileSystem, directory: Path): seq<Path> {
    match fs.list(directory)
    case Denied => []
    case Entries(children) => Sort(fs, children)
  }

  /**
   * The listing is a permutation of the directory's entries in which every
   * entry that is not a regular file (the directories) comes before every
   * regular file, and entries of the same group are in order of their
   * lower-cased names.
   */
  lemma ContentsOrdered(fs: FileSystem, directory: Path)
    ensures fs.list(directory).Denied? ==> Contents(fs, directory) == []
    ensures fs.list(directory).Entries? ==> multiset(Contents(fs, directory)) == multiset(fs.list(directory).children)
    ensures var r := Contents(fs, directory);
      forall i, j :: 0 <= i < j < |r| ==>
        (fs.kind(r[i]) == RegularFile ==> fs.kind(r[j]) == RegularFile) &&
        ((fs.kind(r[i]) == RegularFile) == (fs.kind(r[j]) == RegularFile) ==> LexLe(Lower(Name(r[i])), Lower(Name(r[j]))))
  {
    if fs.list(directory).Entries? {
      SortSorted(fs, fs.list(directory).children);
    }
  }

  /**
   * Entries whose keys are equal (the same kind and the same lower-cased
   * name) appear in the listing in the order the directory yields them.
   */
  lemma ContentsStable(fs: FileSystem, directory: Path, k: SortKey)
    requires fs.list(directory).Entries?
    ensures WithKey(fs, k, Contents(fs, directory)) == WithKey(fs, k, fs.list(directory).children)
  {
    SortStable(fs, k, fs.list(directory).children);
  }

  /** Every entry of the listing is an entry of the directory. */
  lemma ContentsAreEntries(fs: FileSystem, directory: Path, k: nat)
    requires k < |Contents(fs, directory)|
    ensures fs.list(directory).Entries? && Contents(fs, directory)[k] in fs.list(directory).children
  {
    var r := Contents(fs, directory);
    assert r[k] in multiset(r);
  }
}
