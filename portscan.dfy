/**
 * Port detection from source files: five regular expressions, searched
 * case-insensitively, files in order and patterns in order; the first match
 * gives the port, and nothing found gives the caller's default.
 *
 * Each expression is written out as a recogniser with Python `re` semantics:
 * `\s` is `str.isspace`, `\d` any Unicode decimal digit, `.` any character
 * but `\n`, and under IGNORECASE `s` also matches U+017F and `i` also matches
 * U+0130 and U+0131.
 */
module PortScan {
  import opened Wrappers
  import opened Text
  import opened Files

  /** The patterns, in the order they are tried. */
  datatype Pattern =
    | PortAssign    // port[:\s]*=?\s*(\d+)
    | Localhost     // localhost:(\d+)
    | AnyAddress    // 0\.0\.0\.0:(\d+)
    | UvicornFlag   // uvicorn.*--port\s+(\d+)
    | Listen        // listen[:\s]*(\d+)

  const Patterns: seq<Pattern> := [PortAssign, Localhost, AnyAddress, UvicornFlag, Listen]

  /** A text character matches a (lower-case) pattern character under IGNORECASE. */
  predicate CharMatches(c: char, w: char) {
    || c == w
    || ('a' <= w <= 'z' && c as int == w as int - 32)
    || (w == 's' && c == '\U{17F}')
    || (w == 'i' && (c == '\U{130}' || c == '\U{131}'))
    || (w == 'k' && c == '\U{212A}')
  }

  /** The pattern literal `word` matches `s` at `i`. */
  predicate LiteralAt(s: string, i: nat, word: string)
    ensures LiteralAt(s, i, word) ==> i + |word| <= |s|
    decreases |word|
  {
    if word == [] then i <= |s|
    else i < |s| && CharMatches(s[i], word[0]) && LiteralAt(s, i + 1, word[1..])
  }

  predicate ColonOrSpace(c: char) {
    c == ':' || IsSpace(c)
  }

  /** Where a greedy `[:\s]*` starting at `i` stops. */
  function SkipColonSpace(s: string, i: nat): (j: nat)
    requires i <= |s|
    ensures i <= j <= |s|
    ensures j < |s| ==> !ColonOrSpace(s[j])
    decreases |s| - i
  {
    if i < |s| && ColonOrSpace(s[i]) then SkipColonSpace(s, i + 1) else i
  }

  /** Every character `SkipColonSpace` steps over is a colon or whitespace. */
  lemma {:induction false} SkipColonSpaceAllSkipped(s: string, i: nat)
    requires i <= |s|
    ensures forall k :: i <= k < SkipColonSpace(s, i) ==> ColonOrSpace(s[k])
    decreases |s| - i
  {
    if i < |s| && ColonOrSpace(s[i]) {
      SkipColonSpaceAllSkipped(s, i + 1);
    }
  }

  /** Where a greedy `\s*` starting at `i` stops. */
  function SkipSpace(s: string, i: nat): (j: nat)
    requires i <= |s|
    ensures i <= j <= |s|
    ensures j < |s| ==> !IsSpace(s[j])
    decreases |s| - i
  {
    if i < |s| && IsSpace(s[i]) then SkipSpace(s, i + 1) else i
  }

  /** Every character `SkipSpace` steps over is whitespace. */
  lemma {:induction false} SkipSpaceAllSkipped(s: string, i: nat)
    requires i <= |s|
    ensures forall k :: i <= k < SkipSpace(s, i) ==> IsSpace(s[k])
    decreases |s| - i
  {
    if i < |s| && IsSpace(s[i]) {
      SkipSpaceAllSkipped(s, i + 1);
    }
  }

  /** Where a greedy `\d*` starting at `i` stops. */
  function DigitsEnd(s: string, i: nat): (j: nat)
    requires i <= |s|
    ensures i <= j <= |s|
    ensures j < |s| ==> !IsDecimal(s[j])
    decreases |s| - i
  {
    if i < |s| && IsDecimal(s[i]) then DigitsEnd(s, i + 1) else i
  }

  /** Every character `DigitsEnd` steps over is a decimal digit. */
  lemma {:induction false} DigitsEndAllDecimal(s: string, i: nat)
    requires i <= |s|
    ensures forall k :: i <= k < DigitsEnd(s, i) ==> IsDecimal(s[k])
    decreases |s| - i
  {
    if i < |s| && IsDecimal(s[i]) {
      DigitsEndAllDecimal(s, i + 1);
    }
  }

  /** Where the line holding `i` ends: the next `\n` at or after `i`, or the end. */
  function LineEnd(s: string, i: nat): (e: nat)
    requires i <= |s|
    ensures i <= e <= |s|
    ensures e < |s| ==> s[e] == '\n'
    decreases |s| - i
  {
    if i < |s| && s[i] != '\n' then LineEnd(s, i + 1) else i
  }

  /** No newline lies between `i` and the end of its line. */
  lemma {:induction false} LineEndNoNewline(s: string, i: nat)
    requires i <= |s|
    ensures forall k :: i <= k < LineEnd(s, i) ==> s[k] != '\n'
    decreases |s| - i
  {
    if i < |s| && s[i] != '\n' {
      LineEndNoNewline(s, i + 1);
    }
  }

  /** What a `(\d+)` group can capture: one or more decimal digits. */
  predicate IsGroup(g: string) {
    |g| > 0 && forall k :: 0 <= k < |g| ==> IsDecimal(g[k])
  }

  /** The `(\d+)` group starting at `j`, if a digit stands there: every digit from `j` on. */
  function DigitsAt(s: string, j: nat): (r: Option<string>)
    requires j <= |s|
    ensures r.Some? <==> j < |s| && IsDecimal(s[j])
    ensures r.Some? ==> IsGroup(r.value) && r.value == s[j..DigitsEnd(s, j)]
  {
    if j < |s| && IsDecimal(s[j]) then
      var run := s[j..DigitsEnd(s, j)];
      DigitsEndAllDecimal(s, j);
      assert forall k :: 0 <= k < |run| ==> run[k] == s[j + k];
      Some(run)
    else None
  }

  /**
   * `int(match.group(1))`: the value of the digits, or `None` where Python
   * raises because there are more than `MaxStrDigits` of them.
   */
  function GroupValue(g: string): (r: Option<nat>)
    requires IsGroup(g)
  {
    if |g| <= MaxStrDigits then Some(DigitsValue(g)) else None
  }

  /** `GroupValue` is `int()` on a captured group: the value, or `None` where `int()` raises. */
  lemma GroupValueIsInt(g: string)
    requires IsGroup(g)
    ensures GroupValue(g).Some? <==> |g| <= MaxStrDigits
    ensures ParseInt(g) == if GroupValue(g).Some? then Some(GroupValue(g).value as int) else None
  {
    ParseIntOfDecimals(g);
  }

  /** `--port\s+(\d+)` at `q`. */
  function FlagAt(s: string, q: nat): (r: Option<string>)
    requires q <= |s|
    ensures r.Some? ==> IsGroup(r.value)
  {
    if LiteralAt(s, q, "--port") then
      var k := SkipSpace(s, q + 6);
      if k > q + 6 then DigitsAt(s, k) else None
    else None
  }

  /**
   * The rightmost flag in `[lo, q]`: greedy `.*` backs off from the end of the
   * line to the last `--port` that is followed by spaces and digits.
   */
  function LastFlag(s: string, lo: nat, q: nat): (r: Option<string>)
    requires lo <= q <= |s|
    ensures r.Some? ==> IsGroup(r.value)
    decreases q - lo
  {
    match FlagAt(s, q)
    case Some(v) => Some(v)
    case None => if q == lo then None else LastFlag(s, lo, q - 1)
  }

  /** The group of `p` matched at exactly position `i`, if it matches there. */
  function MatchAt(p: Pattern, s: string, i: nat): (r: Option<string>)
    requires i <= |s|
    ensures r.Some? ==> IsGroup(r.value)
  {
    match p
    case PortAssign =>
      if !LiteralAt(s, i, "port") then None
      else
        var j := SkipColonSpace(s, i + 4);
        if j < |s| && s[j] == '=' then DigitsAt(s, SkipSpace(s, j + 1)) else DigitsAt(s, j)
    case Localhost =>
      if LiteralAt(s, i, "localhost:") then DigitsAt(s, i + 10) else None
    case AnyAddress =>
      if LiteralAt(s, i, "0.0.0.0:") then DigitsAt(s, i + 8) else None
    case UvicornFlag =>
      if LiteralAt(s, i, "uvicorn") then LastFlag(s, i + 7, LineEnd(s, i + 7)) else None
    case Listen =>
      if LiteralAt(s, i, "listen") then DigitsAt(s, SkipColonSpace(s, i + 6)) else None
  }

  /** `re.search` from position `i` on: the match starting leftmost wins. */
  function SearchFrom(p: Pattern, s: string, i: nat): (r: Option<string>)
    requires i <= |s|
    ensures r.Some? ==> IsGroup(r.value)
    decreases |s| - i
  {
    match MatchAt(p, s, i)
    case Some(v) => Some(v)
    case None => if i == |s| then None else SearchFrom(p, s, i + 1)
  }

  function Search(p: Pattern, s: string): (r: Option<string>)
    ensures r.Some? ==> IsGroup(r.value)
  {
    SearchFrom(p, s, 0)
  }

  /** The group the patterns of `ps`, tried in order, capture in one file's text. */
  function ScanWith(ps: seq<Pattern>, content: string): (r: Option<string>)
    ensures r.Some? ==> IsGroup(r.value)
    decreases |ps|
  {
    if ps == [] then None
    else match Search(ps[0], content)
      case Some(v) => Some(v)
      case None => ScanWith(ps[1..], content)
  }

  /** The group the first matching pattern captures in one file's text, if any matches. */
  function Scan(content: string): (r: Option<string>)
    ensures r.Some? ==> IsGroup(r.value)
  {
    ScanWith(Patterns, content)
  }

  /**
   * The port file `p` gives: nothing when it cannot be read, when nothing
   * matches, or when `int()` raises on the captured group; each of these
   * moves on to the next file.
   */
  function FoundIn(fs: FileSystem, p: Path): Option<nat> {
    match fs.ReadText(p)
    case Text(content) => (
      match Scan(content)
      case Some(g) => GroupValue(g)
      case None => None)
    case _ => None
  }

  /** `_detect_port_from_files`, as a function of the tree. */
  function PortFromFiles(fs: FileSystem, files: seq<Path>, default: nat): nat {
    if files == [] then default
    else match FoundIn(fs, files[0])
      case Some(v) => v
      case None => PortFromFiles(fs, files[1..], default)
  }

  /** `_detect_port_from_files`: files in order, patterns in order, first match returned. */
  method DetectPortFromFiles(fs: FileSystem, files: seq<Path>, default: nat) returns (port: nat)
    ensures port == PortFromFiles(fs, files, default)
  {
    for f := 0 to |files|
      invariant PortFromFiles(fs, files, default) == PortFromFiles(fs, files[f..], default)
    {
      assert files[f..][1..] == files[f + 1..];
      match fs.ReadText(files[f]) {
        case Text(content) =>
          for k := 0 to |Patterns|
            invariant Scan(content) == ScanWith(Patterns[k..], content)
          {
            assert Patterns[k..][1..] == Patterns[k + 1..];
            var found := Search(Patterns[k], content);
            if found.Some? {
              var value := GroupValue(found.value);
              if value.None? {
                break;
              }
              return value.value;
            }
          }
        case _ =>
      }
    }
    return default;
  }

  // ----- which match wins -----

  /** A search that finds something found it at the leftmost position where the pattern matches. */
  lemma {:induction false} SearchFindsLeftmost(p: Pattern, s: string, i: nat) returns (at: nat)
    requires i <= |s| && SearchFrom(p, s, i).Some?
    ensures i <= at <= |s| && MatchAt(p, s, at) == SearchFrom(p, s, i)
    ensures forall k :: i <= k < at ==> MatchAt(p, s, k).None?
    decreases |s| - i
  {
    if MatchAt(p, s, i).Some? {
      at := i;
    } else {
      assert i < |s| && SearchFrom(p, s, i) == SearchFrom(p, s, i + 1);
      at := SearchFindsLeftmost(p, s, i + 1);
    }
  }

  /** A search finds nothing exactly when the pattern matches at no position. */
  lemma {:induction false} SearchFailsEverywhere(p: Pattern, s: string, i: nat)
    requires i <= |s|
    ensures SearchFrom(p, s, i).None? <==> forall k :: i <= k <= |s| ==> MatchAt(p, s, k).None?
    decreases |s| - i
  {
    if SearchFrom(p, s, i).Some? {
      var at := SearchFindsLeftmost(p, s, i);
      assert MatchAt(p, s, at).Some?;
    } else {
      assert MatchAt(p, s, i).None?;
      if i < |s| {
        SearchFailsEverywhere(p, s, i + 1);
        assert SearchFrom(p, s, i + 1).None?;
      }
    }
  }

  /** Within a file, the first pattern in order that matches anywhere decides. */
  lemma {:induction false} FirstPatternWins(ps: seq<Pattern>, content: string, m: nat)
    requires m < |ps| && Search(ps[m], content).Some?
    requires forall l :: 0 <= l < m ==> Search(ps[l], content).None?
    ensures ScanWith(ps, content) == Search(ps[m], content)
    decreases m
  {
    if m > 0 {
      var rest := ps[1..];
      assert rest[m - 1] == ps[m];
      forall l | 0 <= l < m - 1
        ensures Search(rest[l], content).None?
      {
        assert rest[l] == ps[l + 1];
      }
      FirstPatternWins(rest, content, m - 1);
      assert Search(ps[0], content).None?;
    }
  }

  /** Across files, the first file in order that yields a port decides, unreadable files skipped. */
  lemma {:induction false} FirstFileWins(fs: FileSystem, files: seq<Path>, default: nat, m: nat)
    requires m < |files| && FoundIn(fs, files[m]).Some?
    requires forall l :: 0 <= l < m ==> FoundIn(fs, files[l]).None?
    ensures PortFromFiles(fs, files, default) == FoundIn(fs, files[m]).value
    decreases m
  {
    if m > 0 {
      FirstFileWins(fs, files[1..], default, m - 1);
    }
  }

  /** The default comes back exactly when no file yields a port, or when the port found equals it. */
  lemma {:induction false} DefaultWhenNothingFound(fs: FileSystem, files: seq<Path>, default: nat)
    ensures (forall l :: 0 <= l < |files| ==> FoundIn(fs, files[l]).None?) ==> PortFromFiles(fs, files, default) == default
    ensures PortFromFiles(fs, files, default) != default ==>
      exists l :: 0 <= l < |files| && FoundIn(fs, files[l]) == Some(PortFromFiles(fs, files, default))
    decreases |files|
  {
    if files != [] {
      DefaultWhenNothingFound(fs, files[1..], default);
      if FoundIn(fs, files[0]).None? && PortFromFiles(fs, files, default) != default {
        var l :| 0 <= l < |files[1..]| && FoundIn(fs, files[1..][l]) == Some(PortFromFiles(fs, files, default));
        assert files[1..][l] == files[l + 1];
      }
    }
  }

  // ----- the uvicorn pattern never decides -----

  /** Wherever `--port\s+\d` occurs, `port[:\s]*=?\s*(\d+)` matches two characters later, with the same digits. */
  lemma FlagImpliesPortAssign(s: string, q: nat)
    requires q <= |s| && FlagAt(s, q).Some?
    ensures q + 2 <= |s| && MatchAt(PortAssign, s, q + 2) == FlagAt(s, q)
  {
    assert LiteralAt(s, q + 2, "port") by {
      forall k | 0 <= k < 4
        ensures CharMatches(s[q + 2 + k], "port"[k])
      {
        assert "--port"[k + 2] == "port"[k];
      }
    }
    var k := SkipSpace(s, q + 6);
    SkipColonSpaceOverSpaces(s, q + 6, k);
  }

  /** Over a run of white space ending before a non-space, non-colon character, `[:\s]*` stops where `\s*` does. */
  lemma {:induction false} SkipColonSpaceOverSpaces(s: string, i: nat, k: nat)
    requires i <= |s| && k == SkipSpace(s, i)
    requires k < |s| && IsDecimal(s[k])
    ensures SkipColonSpace(s, i) == k
    decreases |s| - i
  {
    if i < k {
      SkipColonSpaceOverSpaces(s, i + 1, k);
    }
  }

  lemma {:induction false} LastFlagFound(s: string, lo: nat, q: nat) returns (at: nat)
    requires lo <= q <= |s| && LastFlag(s, lo, q).Some?
    ensures lo <= at <= q && FlagAt(s, at) == LastFlag(s, lo, q)
    decreases q - lo
  {
    if FlagAt(s, q).Some? {
      at := q;
    } else {
      at := LastFlagFound(s, lo, q - 1);
    }
  }

  /** When the uvicorn pattern matches, the first pattern matches too. */
  lemma UvicornImpliesPortAssign(s: string)
    requires Search(UvicornFlag, s).Some?
    ensures Search(PortAssign, s).Some?
  {
    var i := SearchFindsLeftmost(UvicornFlag, s, 0);
    var at := LastFlagFound(s, i + 7, LineEnd(s, i + 7));
    FlagImpliesPortAssign(s, at);
    SearchFailsEverywhere(PortAssign, s, 0);
  }

  /** A scan finds nothing exactly when every pattern finds nothing. */
  lemma {:induction false} ScanFailsEverywhere(ps: seq<Pattern>, content: string)
    ensures ScanWith(ps, content).None? <==> forall k :: 0 <= k < |ps| ==> Search(ps[k], content).None?
    decreases |ps|
  {
    if ps != [] {
      ScanFailsEverywhere(ps[1..], content);
      assert forall k :: 0 <= k < |ps| - 1 ==> ps[1..][k] == ps[k + 1];
    }
  }

  /** A pattern that finds nothing passes the turn to the next one. */
  lemma ScanWithSkips(ps: seq<Pattern>, content: string)
    requires ps != [] && Search(ps[0], content).None?
    ensures ScanWith(ps, content) == ScanWith(ps[1..], content)
  {
  }

  /** The fourth pattern never decides a file's port: the scan is the same without it. */
  lemma UvicornPatternIsShadowed(content: string)
    ensures Scan(content) == ScanWith([PortAssign, Localhost, AnyAddress, Listen], content)
  {
    var without := [PortAssign, Localhost, AnyAddress, Listen];
    if Search(PortAssign, content).None? {
      if Search(UvicornFlag, content).Some? {
        UvicornImpliesPortAssign(content);
      }
      ScanWithSkips(Patterns, content);
      ScanWithSkips(without, content);
      assert Patterns[1..] == [Localhost, AnyAddress, UvicornFlag, Listen];
      assert without[1..] == [Localhost, AnyAddress, Listen];
      if Search(Localhost, content).None? {
        ScanWithSkips(Patterns[1..], content);
        ScanWithSkips(without[1..], content);
        assert Patterns[1..][1..] == [AnyAddress, UvicornFlag, Listen];
        assert without[1..][1..] == [AnyAddress, Listen];
        if Search(AnyAddress, content).None? {
          ScanWithSkips(Patterns[1..][1..], content);
          ScanWithSkips(without[1..][1..], content);
          assert Patterns[1..][1..][1..] == [UvicornFlag, Listen];
          assert without[1..][1..][1..] == [Listen];
          ScanWithSkips([UvicornFlag, Listen], content);
          assert [UvicornFlag, Listen][1..] == [Listen];
        }
      }
    }
  }

  // ----- examples -----

  /** `port = 9090` captures `9090`, which is the port 9090. */
  lemma PortAssignExample()
    ensures Scan("port = 9090") == Some("9090") && GroupValue("9090") == Some(9090)
  {
    var s := "port = 9090";
    assert LiteralAt(s, 0, "port");
    assert SkipColonSpace(s, 4) == 5;
    assert SkipSpace(s, 6) == 7;
    assert DigitsEnd(s, 7) == 11;
    assert s[7..11] == "9090";
    assert DigitsValue("9090") == 9090 by {
      assert "9090"[..3] == "909" && "909"[..2] == "90" && "90"[..1] == "9" && "9"[..0] == "";
    }
    assert MatchAt(PortAssign, s, 0) == Some("9090");
    FirstPatternWins(Patterns, s, 0);
  }
}
