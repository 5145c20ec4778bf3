/**
 * The project tree the generator looks at, as a value: which paths exist, in
 * the order a directory walk meets them, what the readable text files hold,
 * and what the readable JSON files decode to.
 */
module Files {
  import opened Wrappers
  import opened Text

  /** A path relative to the project root, one component per element. */
  type Path = seq<string>

  /** A decoded JSON value; numbers are kept as reals. */
  datatype Json =
    | JNull
    | JBool(b: bool)
    | JNumber(n: real)
    | JString(s: string)
    | JArray(items: seq<Json>)
    | JObject(members: seq<(string, Json)>)

  /** Python's truth value of the decoded value: empty containers, zero, `""`, `False` and `None` are false. */
  predicate Truthy(j: Json) {
    match j
    case JNull => false
    case JBool(b) => b
    case JNumber(n) => n != 0.0
    case JString(s) => s != ""
    case JArray(items) => items != []
    case JObject(members) => members != []
  }

  /** `obj.get(key, default)` on a decoded object; a key given twice keeps its last value. */
  function Get(members: seq<(string, Json)>, key: string, default: Json): (r: Json)
    ensures (forall k :: 0 <= k < |members| ==> members[k].0 != key) ==> r == default
  {
    if members == [] then default
    else if members[|members| - 1].0 == key then members[|members| - 1].1
    else Get(members[..|members| - 1], key, default)
  }

  /** What opening a file for reading gives. */
  datatype Read = Absent | Unreadable | Text(content: string)

  /**
   * The tree: `entries` lists every existing path (files and directories) in
   * walk order; `text` holds the files that read as text (newlines already
   * normalised to `\n`); `json` holds the files that decode as JSON.
   */
  datatype FileSystem = FileSystem(entries: seq<Path>, text: map<Path, string>, json: map<Path, Json>)
  {
    predicate Exists(p: Path) {
      p in entries
    }

    /** `read_text()`: absent paths and paths that exist but do not read as text are told apart. */
    function ReadText(p: Path): (r: Read)
      ensures r.Absent? <==> !Exists(p)
      ensures r.Text? <==> Exists(p) && p in text
    {
      if !Exists(p) then Absent
      else if p in text then Text(text[p])
      else Unreadable
    }

    /** `dir.glob('*' + suffix)`: the direct children of `dir` whose name ends with `suffix`, in walk order. */
    function Glob(dir: Path, suffix: string): (r: seq<Path>)
      ensures forall p :: p in r <==> p in entries && |p| == |dir| + 1 && p[..|dir|] == dir && EndsWith(p[|dir|], suffix)
    {
      GlobIn(entries, dir, suffix)
    }
  }

  function GlobIn(ps: seq<Path>, dir: Path, suffix: string): (r: seq<Path>)
    ensures forall p :: p in r <==> p in ps && |p| == |dir| + 1 && p[..|dir|] == dir && EndsWith(p[|dir|], suffix)
  {
    if ps == [] then []
    else
      var p := ps[0];
      var rest := GlobIn(ps[1..], dir, suffix);
      assert forall q :: q in ps <==> q == p || q in ps[1..];
      if |p| == |dir| + 1 && p[..|dir|] == dir && EndsWith(p[|dir|], suffix) then [p] + rest else rest
  }

  /** The last component of a non-empty path. */
  function Name(p: Path): string
    requires p != []
  {
    p[|p| - 1]
  }
}
