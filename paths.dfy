/**
 * Paths and the filesystem as the explorers see them through `pathlib` and
 * `os.path`. A path is the sequence of its components below the root; the
 * filesystem is an oracle that says what lies at a path and what a directory
 * lists. Symbolic-link resolution is not modelled.
 */
module Paths {

  /** An absolute path, as its components below `/`. `Path([])` is the root. */
  datatype Path = Path(parts: seq<string>)

  /** What lies at a path: `is_dir`, `is_file` and `exists` all follow this. */
  datatype Kind =
    | Directory
    | RegularFile
    | Special   // exists, but is neither a directory nor a regular file
    | Missing   // does not exist (a broken link included)

  /** What `iterdir` on a directory yields: its entries, or a permission failure. */
  datatype Listing = Entries(children: seq<Path>) | Denied

  /** The filesystem oracle. It does not change while one handler runs. */
  datatype FileSystem = FileSystem(kind: Path -> Kind, list: Path -> Listing)

  /** `PurePath.name`: the last component, "" for the root. */
  function Name(p: Path): string {
    if p.parts == [] then "" else p.parts[|p.parts| - 1]
  }

  /** `str.rfind`: the index of the last `c` in `s`, or -1 if there is none. */
  function RFind(s: string, c: char): (r: int)
    ensures -1 <= r < |s|
    ensures 0 <= r ==> s[r] == c
    ensures forall k :: r < k < |s| ==> s[k] != c
  {
    if s == [] then -1
    else if s[|s| - 1] == c then |s| - 1
    else RFind(s[..|s| - 1], c)
  }

  /** `PurePath.suffix`: the name from its last dot on, when that dot is neither its first nor its last character. */
  function Suffix(p: Path): string {
    var n := Name(p);
    var i := RFind(n, '.');
    if 0 < i < |n| - 1 then n[i..] else ""
  }

  /** `PurePath.stem`: the name without its suffix. */
  function Stem(p: Path): string {
    var n := Name(p);
    var i := RFind(n, '.');
    if 0 < i < |n| - 1 then n[..i] else n
  }

  lemma StemAndSuffixSplitName(p: Path)
    ensures Stem(p) + Suffix(p) == Name(p)
  {
  }

  /**
   * `os.path.splitext(path)[1]` on a path whose last component is the file
   * name: the text from the last dot of the name, unless every character
   * before that dot is itself a dot.
   */
  function SplitExt(p: Path): string {
    var n := Name(p);
    var i := RFind(n, '.');
    if 0 <= i && exists k :: 0 <= k < i && n[k] != '.' then n[i..] else ""
  }

  /**
   * `PurePath.joinpath(text)` for a text that is one component, possibly
   * followed by "/" (the forms the explorers' items take: "x", "x/", "../").
   */
  function Join(p: Path, text: string): Path {
    var c := if |text| > 0 && text[|text| - 1] == '/' then text[..|text| - 1] else text;
    if c == "" then p else Path(p.parts + [c])
  }

  /** `resolve().parent` of a path that is already absolute and resolved: drop the last component. */
  function Parent(p: Path): Path {
    if p.parts == [] then p else Path(p.parts[..|p.parts| - 1])
  }

  lemma ParentUndoesJoin(p: Path, name: string)
    requires name != "" && '/' !in name
    ensures Join(p, name) == Path(p.parts + [name])
    ensures Parent(Join(p, name)) == p
  {
    assert (p.parts + [name])[..|p.parts|] == p.parts;
  }

  /** A label naming one entry: a name without '/', possibly followed by one '/'. */
  predicate NameLabel(text: string) {
    text != "" && text != "/" && '/' !in text[..|text| - 1]
  }

  /** The name a label stands for: the label without its trailing '/'. */
  function LabelName(text: string): string
    requires text != ""
  {
    if text[|text| - 1] == '/' then text[..|text| - 1] else text
  }

  /** Joining a label descends to the entry of its name, directly below. */
  lemma JoinLabel(p: Path, text: string)
    requires NameLabel(text)
    ensures LabelName(text) != "" && '/' !in LabelName(text)
    ensures Join(p, text) == Path(p.parts + [LabelName(text)])
    ensures Parent(Join(p, text)) == p
  {
    if text[|text| - 1] != '/' {
      assert text == text[..|text| - 1] + [text[|text| - 1]];
    }
    ParentUndoesJoin(p, LabelName(text));
  }

  /** The last `c` of `s + [c] + t`, when `t` holds none, is the one between them. */
  lemma {:induction false} RFindLast(s: string, c: char, t: string)
    requires c !in t
    ensures RFind(s + [c] + t, c) == |s|
    decreases |t|
  {
    var u := s + [c] + t;
    if t != [] {
      assert u[|u| - 1] == t[|t| - 1];
      assert u[..|u| - 1] == s + [c] + t[..|t| - 1];
      RFindLast(s, c, t[..|t| - 1]);
    }
  }

  /**
   * The listing of `directory`, when it can be read, holds the directory's own
   * children: each entry is the directory plus one plain, non-empty name.
   */
  predicate ListsChildren(fs: FileSystem, directory: Path) {
    fs.list(directory).Entries? ==>
      forall c :: c in fs.list(directory).children ==>
        Name(c) != "" && '/' !in Name(c) && c == Path(directory.parts + [Name(c)])
  }

  /** ASCII lower case; other characters are left as they are. */
  function LowerChar(c: char): char {
    if 'A' <= c <= 'Z' then (c as int + 32) as char else c
  }

  function Lower(s: string): (r: string)
    ensures |r| == |s|
    ensures forall i :: 0 <= i < |s| ==> r[i] == LowerChar(s[i])
  {
    if s == [] then [] else [LowerChar(s[0])] + Lower(s[1..])
  }

  /** Joining the name of a listed entry onto its directory gives the entry. */
  lemma JoinReachesChild(fs: FileSystem, directory: Path, c: Path)
    requires ListsChildren(fs, directory) && fs.list(directory).Entries? && c in fs.list(directory).children
    ensures Name(c) != "" && '/' !in Name(c)
    ensures Join(directory, Name(c)) == c
  {
    ParentUndoesJoin(directory, Name(c));
  }
}
