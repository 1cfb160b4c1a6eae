/**
 * utils/AppendToFile.js: three edits of a text file whose reading and writing are left to
 * the caller (the file's contents come in as a parameter, the new contents go out as the
 * result).
 *   - `appendToFile` inserts one piece of text as a new line after a given line;
 *   - `buildPackageScripts` adds `build-patch`, `build-minor` and `build-major` scripts that
 *     bump the version and then run the `build` script;
 *   - `addScriptToPackageJson` adds or replaces one script.
 * A parsed package.json is an ordered list of members, as a JavaScript object keeps its
 * keys in insertion order; object spread `{ ...o, k: v }` replaces the value of an existing
 * key where it stands and adds a new key at the end.
 */
module AppendToFile {
  import opened Common
  import opened Strings

  /** `line || 0`: a missing line number (and 0 itself) means line 0. */
  function LineNumber(line: Option<int>): int {
    line.GetOr(0)
  }

  /** Where `Array.prototype.splice(start, ...)` starts on an array of `len` elements: a
      negative start counts from the end (and stops at 0), a start past the end is the end. */
  function SpliceStart(start: int, len: nat): (k: nat)
    ensures k <= len
  {
    if start < 0 then (if len + start < 0 then 0 else len + start)
    else if start > len then len
    else start
  }

  /** The index at which `appendToFile` inserts the new line, among `len` lines. */
  function InsertionIndex(line: Option<int>, len: nat): (k: nat)
    ensures k <= len
  {
    SpliceStart(LineNumber(line) + 1, len)
  }

  /** The new contents of the file: the body's lines with `replacement` spliced in.
      Read back line by line, it is the old lines with the lines of `replacement` in
      between, at the insertion index. */
  function AppendedText(replacement: string, line: Option<int>, body: string): (output: string)
    ensures var lines := Split(body, '\n');
      var k := InsertionIndex(line, |lines|);
      Split(output, '\n') == lines[..k] + Split(replacement, '\n') + lines[k..]
  {
    var lines := Split(body, '\n');
    var k := InsertionIndex(line, |lines|);
    SplitPartsFree(body, '\n');
    SplitJoinInsert(lines[..k], replacement, lines[k..], '\n');
    Join(lines[..k] + [replacement] + lines[k..], "\n")
  }

  /** A one-line replacement adds exactly one line, at the insertion index; taking that line
      out again gives back the original text. */
  lemma AppendRoundTrip(replacement: string, line: Option<int>, body: string)
    requires '\n' !in replacement
    ensures var lines := Split(body, '\n');
      var k := InsertionIndex(line, |lines|);
      var out := Split(AppendedText(replacement, line, body), '\n');
      && |out| == |lines| + 1
      && out[k] == replacement
      && out[..k] == lines[..k]
      && out[k + 1..] == lines[k..]
      && Join(out[..k] + out[k + 1..], "\n") == body
  {
    var lines := Split(body, '\n');
    var k := InsertionIndex(line, |lines|);
    var out := Split(AppendedText(replacement, line, body), '\n');
    SplitNoSeparator(replacement, '\n');
    assert out == lines[..k] + [replacement] + lines[k..];
    assert out[..k] + out[k + 1..] == lines;
    JoinSplit(body, '\n');
  }

  /** Without a line number the text goes in as the second line. */
  lemma AppendDefaultLine(replacement: string, body: string)
    requires '\n' !in replacement
    ensures var out := Split(AppendedText(replacement, None, body), '\n');
      out[0] == Split(body, '\n')[0] && out[1] == replacement
  {
    AppendRoundTrip(replacement, None, body);
  }

  /** A line number at or past the last line appends the text as a new last line. */
  lemma AppendPastEnd(replacement: string, line: int, body: string)
    requires line + 1 >= |Split(body, '\n')|
    ensures AppendedText(replacement, Some(line), body) == body + "\n" + replacement
  {
    var lines := Split(body, '\n');
    var out := AppendedText(replacement, Some(line), body);
    assert InsertionIndex(Some(line), |lines|) == |lines|;
    assert lines[..|lines|] == lines && lines[|lines|..] == [];
    SplitPartsFree(body, '\n');
    assert lines + [replacement] + [] == lines + [replacement];
    JoinAppendOne(lines, replacement, "\n");
    JoinSplit(body, '\n');
  }

  /** A negative line number counts from the end, as `splice` does. */
  lemma AppendNegativeLine(replacement: string, line: int, body: string)
    requires '\n' !in replacement
    requires line < -1
    ensures var n := |Split(body, '\n')|;
      var k := if n + line + 1 < 0 then 0 else n + line + 1;
      Split(AppendedText(replacement, Some(line), body), '\n')[k] == replacement
  {
    AppendRoundTrip(replacement, Some(line), body);
  }

  // ---------------------------------------------------------------------------------------
  // package.json

  /** A JSON value, as `JSON.parse` gives it. Numbers and booleans are kept by their text.
      An object's members are listed in key order and, as `JSON.parse` makes them, with
      distinct keys (`DistinctKeys`), which object spread keeps (`PutKeepsDistinct`). */
  datatype Json = JString(s: string) | JObject(members: seq<Member>) | JNull | JScalar(text: string)

  /** One key of an object with its value. */
  datatype Member = Member(key: string, value: Json)

  /** The keys of an object, in order. */
  function Keys(ms: seq<Member>): (ks: seq<string>)
    ensures |ks| == |ms|
    ensures forall i {:trigger ks[i]} :: 0 <= i < |ms| ==> ks[i] == ms[i].key
  {
    if |ms| == 0 then [] else [ms[0].key] + Keys(ms[1..])
  }

  /** `o[k]`: the value stored under a key, `None` for undefined. */
  function Get(ms: seq<Member>, k: string): (r: Option<Json>)
    ensures r.Some? <==> k in Keys(ms)
  {
    if |ms| == 0 then None
    else if ms[0].key == k then Some(ms[0].value)
    else Get(ms[1..], k)
  }

  /** `{ ...o, [k]: v }`: the value of `k` becomes `v`; an existing key keeps its place, a new
      one goes last; every other key keeps its value. */
  function Put(ms: seq<Member>, k: string, v: Json): (r: seq<Member>)
    ensures Get(r, k) == Some(v)
    ensures forall j :: j != k ==> Get(r, j) == Get(ms, j)
    ensures k in Keys(ms) ==> Keys(r) == Keys(ms)
    ensures k !in Keys(ms) ==> Keys(r) == Keys(ms) + [k]
  {
    if |ms| == 0 then [Member(k, v)]
    else if ms[0].key == k then [Member(k, v)] + ms[1..]
    else
      var rest := Put(ms[1..], k, v);
      assert Keys(ms) == [ms[0].key] + Keys(ms[1..]);
      [ms[0]] + rest
  }

  /** No key appears twice among the members, as in any object `JSON.parse` returns. */
  predicate DistinctKeys(ms: seq<Member>) {
    forall i, j :: 0 <= i < j < |ms| ==> ms[i].key != ms[j].key
  }

  /** Object spread with one key keeps the keys distinct. */
  lemma PutKeepsDistinct(ms: seq<Member>, k: string, v: Json)
    requires DistinctKeys(ms)
    ensures DistinctKeys(Put(ms, k, v))
  {
    var r := Put(ms, k, v);
    var ks := Keys(ms);
    var rs := Keys(r);
    forall i, j | 0 <= i < j < |r|
      ensures r[i].key != r[j].key
    {
      assert rs[i] == r[i].key && rs[j] == r[j].key;
      if j < |ms| {
        assert rs[i] == ks[i] && rs[j] == ks[j];
        assert ks[i] == ms[i].key && ks[j] == ms[j].key;
      } else {
        assert k !in ks && rs == ks + [k];
        assert rs[j] == k && rs[i] == ks[i];
      }
    }
  }

  /** The own keys of a string, spread into an object: "0", "1", ... holding its characters. */
  function SpreadString(s: string, from: nat): seq<Member>
    requires from <= |s|
    decreases |s| - from
  {
    if from == |s| then [] else [Member(NatText(from), JString([s[from]]))] + SpreadString(s, from + 1)
  }

  /** `{ ...v }`: undefined, null, numbers and booleans spread nothing. */
  function Spread(v: Option<Json>): seq<Member> {
    match v
    case Some(JObject(ms)) => ms
    case Some(JString(s)) => SpreadString(s, 0)
    case _ => []
  }

  /** `${v}` in a template literal. */
  function Display(v: Option<Json>): string {
    match v
    case None => "undefined"
    case Some(JString(s)) => s
    case Some(JNull) => "null"
    case Some(JScalar(t)) => t
    case Some(JObject(_)) => "[object Object]"
  }

  /** `v.build`: a TypeError on undefined and null, undefined on strings, numbers and
      booleans (none has such a property). */
  function Property(v: Option<Json>, k: string): Result<Option<Json>> {
    match v
    case None => Failure("TypeError: Cannot read " + "properties of undefined " + "(reading '" + k + "')")
    case Some(JNull) => Failure("TypeError: Cannot read " + "properties of null " + "(reading '" + k + "')")
    case Some(JObject(ms)) => Ok(Get(ms, k))
    case _ => Ok(None)
  }

  /** The three version-bump scripts added to `scripts`, in this order. */
  function BumpScripts(scripts: seq<Member>, build: string): seq<Member> {
    var s1 := Put(scripts, "build-patch", JString("npm version patch && " + build));
    var s2 := Put(s1, "build-minor", JString("npm version minor && " + build));
    Put(s2, "build-major", JString("npm version major && " + build))
  }

  /** `buildPackageScripts` on the parsed package.json: the new object to write, or the
      TypeError reading `scripts.build` throws when there is no `scripts` (or it is null). */
  function BuildPackageScripts(content: seq<Member>): (r: Result<seq<Member>>)
    ensures r.Failure? <==> Get(content, "scripts").None? || Get(content, "scripts") == Some(JNull)
  {
    var scripts := Get(content, "scripts");
    match Property(scripts, "build")
    case Failure(e) => Failure(e)
    case Ok(build) =>
      Ok(Put(content, "scripts", JObject(BumpScripts(Spread(scripts), Display(build)))))
  }

  /** What `buildPackageScripts` writes: each bump script runs `npm version <bump>` and then
      the text of the old `build` script; every other script and every other top-level key
      keeps its value, and the top-level keys keep their order. */
  lemma BuildPackageScriptsSpec(content: seq<Member>)
    requires BuildPackageScripts(content).Ok?
    ensures var before := Spread(Get(content, "scripts"));
      var build := Display(Property(Get(content, "scripts"), "build").value);
      var out := BuildPackageScripts(content).value;
      && Keys(out) == Keys(content)
      && (forall k :: k != "scripts" ==> Get(out, k) == Get(content, k))
      && Get(out, "scripts").Some? && Get(out, "scripts").value.JObject?
      && var ns := Get(out, "scripts").value.members;
        && Get(ns, "build-patch") == Some(JString("npm version patch && " + build))
        && Get(ns, "build-minor") == Some(JString("npm version minor && " + build))
        && Get(ns, "build-major") == Some(JString("npm version major && " + build))
        && (forall k :: k !in {"build-patch", "build-minor", "build-major"} ==> Get(ns, k) == Get(before, k))
  {
  }

  /** When none of the bump scripts exists yet, they are added after the old scripts, in the
      order patch, minor, major. */
  lemma {:induction false} BumpScriptsOrder(scripts: seq<Member>, build: string)
    requires "build-patch" !in Keys(scripts) && "build-minor" !in Keys(scripts) && "build-major" !in Keys(scripts)
    ensures Keys(BumpScripts(scripts, build)) == Keys(scripts) + ["build-patch", "build-minor", "build-major"]
  {
    assert "build-patch"[6] != "build-minor"[6];
    assert "build-patch"[6] != "build-major"[6];
    assert "build-minor"[7] != "build-major"[7];
    ThreeNewKeys(scripts, "build-patch", JString("npm version patch && " + build),
      "build-minor", JString("npm version minor && " + build),
      "build-major", JString("npm version major && " + build));
  }

  lemma {:induction false} ThreeNewKeys(ms: seq<Member>, k1: string, v1: Json, k2: string, v2: Json, k3: string, v3: Json)
    requires k1 !in Keys(ms) && k2 !in Keys(ms) && k3 !in Keys(ms)
    requires k1 != k2 && k1 != k3 && k2 != k3
    ensures Keys(Put(Put(Put(ms, k1, v1), k2, v2), k3, v3)) == Keys(ms) + [k1, k2, k3]
  {
    var ks0 := Keys(ms);
    NewKeyAfter(ks0, k1, k2);
    NewKeyAfter(ks0, k1, k3);
    TwoNewKeys(ms, k1, v1, k2, v2);
    NewKeyAfter(ks0 + [k1], k2, k3);
    assert ks0 + [k1, k2] + [k3] == ks0 + [k1, k2, k3];
  }

  lemma {:induction false} TwoNewKeys(ms: seq<Member>, k1: string, v1: Json, k2: string, v2: Json)
    requires k1 !in Keys(ms) && k2 !in Keys(ms) + [k1]
    ensures Keys(Put(Put(ms, k1, v1), k2, v2)) == Keys(ms) + [k1, k2]
  {
    assert Keys(ms) + [k1] + [k2] == Keys(ms) + [k1, k2];
  }

  lemma NewKeyAfter(ks: seq<string>, k: string, j: string)
    requires j !in ks && j != k
    ensures j !in ks + [k]
  {
  }

  /** `addScriptToPackageJson(file, script, scriptName)` on the parsed package.json. */
  function AddScriptToPackageJson(content: seq<Member>, script: Json, scriptName: string): seq<Member> {
    var scripts := Get(content, "scripts");
    Put(content, "scripts", JObject(Put(Spread(scripts), scriptName, script)))
  }

  /** The script is stored under its name; every other script and top-level key keeps its
      value; a package.json without `scripts` gets one holding only the new script, as its
      last key. */
  lemma AddScriptSpec(content: seq<Member>, script: Json, scriptName: string)
    ensures var out := AddScriptToPackageJson(content, script, scriptName);
      && Get(out, "scripts").Some? && Get(out, "scripts").value.JObject?
      && Get(Get(out, "scripts").value.members, scriptName) == Some(script)
      && (forall k :: k != scriptName ==>
            Get(Get(out, "scripts").value.members, k) == Get(Spread(Get(content, "scripts")), k))
      && (forall k :: k != "scripts" ==> Get(out, k) == Get(content, k))
      && ("scripts" in Keys(content) ==> Keys(out) == Keys(content))
      && (Get(content, "scripts").None? ==>
            Keys(out) == Keys(content) + ["scripts"]
            && Get(out, "scripts") == Some(JObject([Member(scriptName, script)])))
  {
  }

  /** Adding a script that is already there, with the same value, changes nothing in the
      scripts object. */
  lemma {:induction false} PutExisting(ms: seq<Member>, k: string, v: Json)
    requires Get(ms, k) == Some(v)
    ensures Put(ms, k, v) == ms
  {
    if |ms| > 0 && ms[0].key != k {
      PutExisting(ms[1..], k, v);
    }
  }
}
