/**
 * utils/FileSystemCompleter.js: the readline completer that offers file-system paths. The
 * typed line has been split by `path.parse` into a directory part `dir` and a last
 * component `base`; the directory listing is a map from the directories that can be read
 * to their entries (reading any other path fails, and a failure anywhere completes to
 * nothing).
 */
module FileSystemCompleter {
  import opened Strings

  datatype Kind = File | Directory | Other

  /** One `Dirent` of `readdir(dir, { withFileTypes: true })`. */
  datatype DirEntry = DirEntry(name: string, kind: Kind)

  /** The directories `readdir` can read, with their entries in the order it lists them. */
  type Listing = map<string, seq<DirEntry>>

  /** What the completer hands to readline's callback: `[hits, line]`. */
  datatype Completion = Completion(hits: seq<string>, line: string)

  /** The root directory, written with a slash or with the platform separator. */
  predicate IsRoot(dir: string, sep: string) {
    dir == "/" || dir == sep
  }

  /** Some entry is a directory named exactly `base`. */
  predicate HasExactDirectory(entries: seq<DirEntry>, base: string) {
    exists i :: 0 <= i < |entries| && entries[i].name == base && entries[i].kind == Directory
  }

  /** `r` is `s` with some elements left out: what is kept keeps its order. */
  predicate Subsequence<T(==)>(r: seq<T>, s: seq<T>)
    decreases |s|
  {
    |r| == 0 || (|s| > 0 && ((r[0] == s[0] && Subsequence(r[1..], s[1..])) || Subsequence(r, s[1..])))
  }

  /** `entries.filter(entry => entry.name.startsWith(base))`. */
  function StartingWith(entries: seq<DirEntry>, base: string): (r: seq<DirEntry>)
    ensures |r| <= |entries|
    ensures forall e :: e in r <==> e in entries && StartsWith(e.name, base)
    ensures Subsequence(r, entries)
  {
    if |entries| == 0 then []
    else
      var rest := StartingWith(entries[1..], base);
      assert entries == [entries[0]] + entries[1..];
      if StartsWith(entries[0].name, base) then [entries[0]] + rest else rest
  }

  /** `entries.filter(entry => entry.isFile() || entry.isDirectory())`. */
  function Listable(entries: seq<DirEntry>): (r: seq<DirEntry>)
    ensures |r| <= |entries|
    ensures forall e :: e in r <==> e in entries && e.kind != Other
    ensures Subsequence(r, entries)
  {
    if |entries| == 0 then []
    else
      var rest := Listable(entries[1..]);
      assert entries == [entries[0]] + entries[1..];
      if entries[0].kind != Other then [entries[0]] + rest else rest
  }

  /** The completion offered for one entry: its path under `dir`, with a trailing slash on a
      directory whose name does not already end in one. */
  function Hit(dir: string, e: DirEntry): string {
    dir + "/" + e.name + (if e.kind == Directory && !EndsWith(e.name, "/") then "/" else "")
  }

  /** The completions for the files and directories among `entries`, in their order. */
  function Hits(dir: string, entries: seq<DirEntry>): (r: seq<string>)
    ensures |r| == |Listable(entries)|
  {
    var listed := Listable(entries);
    seq(|listed|, i requires 0 <= i < |listed| => Hit(dir, listed[i]))
  }

  /** The directory as it is shown in the hits: the root becomes "" so that hits start with
      a single slash. */
  function Shown(dir: string, sep: string): string {
    if IsRoot(dir, sep) then "" else dir
  }

  /** The directory whose contents replace an exact directory match. */
  function Descend(dir: string, base: string, sep: string): string {
    if IsRoot(dir, sep) then dir + base else dir + "/" + base
  }

  /** `fileSystemCompleter(line, callback)`: the line is always handed back unchanged. */
  function Complete(line: string, dir: string, base: string, fs: Listing, sep: string): (r: Completion)
    ensures r.line == line
  {
    if dir !in fs then Completion([], line)
    else if HasExactDirectory(fs[dir], base) then
      var sub := Descend(dir, base, sep);
      if sub !in fs then Completion([], line)
      else Completion(Hits(Shown(sub, sep), fs[sub]), line)
    else Completion(Hits(Shown(dir, sep), StartingWith(fs[dir], base)), line)
  }

  /** A hit is exactly the completion of one file or directory entry, and every such entry
      yields one. */
  lemma HitsMembership(dir: string, entries: seq<DirEntry>, h: string)
    ensures h in Hits(dir, entries) <==>
      exists e :: e in entries && e.kind != Other && h == Hit(dir, e)
  {
    var listed := Listable(entries);
    var hits := Hits(dir, entries);
    if h in hits {
      var i :| 0 <= i < |hits| && hits[i] == h;
      assert listed[i] in listed;
    }
    if exists e :: e in entries && e.kind != Other && h == Hit(dir, e) {
      var e :| e in entries && e.kind != Other && h == Hit(dir, e);
      assert e in listed;
      var i :| 0 <= i < |listed| && listed[i] == e;
      assert hits[i] == h;
    }
  }

  /** A file completes to its path; a directory to its path with one trailing slash. */
  lemma HitShape(dir: string, e: DirEntry)
    ensures StartsWith(Hit(dir, e), dir + "/" + e.name)
    ensures e.kind == File ==> Hit(dir, e) == dir + "/" + e.name
    ensures e.kind == Directory ==> EndsWith(Hit(dir, e), "/")
    ensures e.kind == Directory && !EndsWith(e.name, "/") ==> Hit(dir, e) == dir + "/" + e.name + "/"
  {
    var h := Hit(dir, e);
    var p := dir + "/" + e.name;
    assert h[..|p|] == p;
    if e.kind == Directory && EndsWith(e.name, "/") {
      assert h == p;
      assert h[|h| - 1..] == e.name[|e.name| - 1..];
    }
  }

  /** A directory that cannot be read completes to nothing. */
  lemma CompleteUnreadable(line: string, dir: string, base: string, fs: Listing, sep: string)
    requires dir !in fs
    ensures Complete(line, dir, base, fs, sep).hits == []
  {
  }

  /** Without an exact directory match, the hits are the files and directories of `dir`
      whose names start with `base`, one for each. */
  lemma CompletePrefix(line: string, dir: string, base: string, fs: Listing, sep: string, h: string)
    requires dir in fs && !HasExactDirectory(fs[dir], base)
    ensures h in Complete(line, dir, base, fs, sep).hits <==>
      exists e :: e in fs[dir] && e.kind != Other && StartsWith(e.name, base) && h == Hit(Shown(dir, sep), e)
  {
    HitsMembership(Shown(dir, sep), StartingWith(fs[dir], base), h);
  }

  /** An exact directory match lists that directory's contents, whatever their names; when
      it cannot be read, nothing. */
  lemma CompleteExactDirectory(line: string, dir: string, base: string, fs: Listing, sep: string, h: string)
    requires dir in fs && HasExactDirectory(fs[dir], base)
    ensures var sub := Descend(dir, base, sep);
      && (sub !in fs ==> Complete(line, dir, base, fs, sep).hits == [])
      && (sub in fs ==> (h in Complete(line, dir, base, fs, sep).hits <==>
            exists e :: e in fs[sub] && e.kind != Other && h == Hit(Shown(sub, sep), e)))
  {
    var sub := Descend(dir, base, sep);
    if sub in fs {
      HitsMembership(Shown(sub, sep), fs[sub], h);
    }
  }

  /** At the root, hits start with a single slash followed by the entry's name. */
  lemma CompleteAtRoot(line: string, base: string, fs: Listing, sep: string, h: string)
    requires "/" in fs && !HasExactDirectory(fs["/"], base)
    requires h in Complete(line, "/", base, fs, sep).hits
    ensures exists e :: e in fs["/"] && e.kind != Other && StartsWith(e.name, base) && StartsWith(h, "/" + e.name)
  {
    assert Complete(line, "/", base, fs, sep).hits == Hits("", StartingWith(fs["/"], base));
    RootHit(fs["/"], base, h);
  }

  lemma RootHit(entries: seq<DirEntry>, base: string, h: string)
    requires h in Hits("", StartingWith(entries, base))
    ensures exists e :: e in entries && e.kind != Other && StartsWith(e.name, base) && StartsWith(h, "/" + e.name)
  {
    HitsMembership("", StartingWith(entries, base), h);
    var e :| e in StartingWith(entries, base) && e.kind != Other && h == Hit("", e);
    HitAtRoot(e);
    assert e in entries && StartsWith(e.name, base);
  }

  lemma HitAtRoot(e: DirEntry)
    ensures StartsWith(Hit("", e), "/" + e.name)
  {
    HitShape("", e);
    assert "" + "/" + e.name == "/" + e.name;
  }
}
