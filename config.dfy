/**
 * The override-configuration loader of the pipeline generator: `key: value`
 * lines, bracketed lists, `#` comments, and the built-in default mapping used
 * when the file is missing or cannot be read.
 */
module Config {
  import opened Wrappers
  import opened Text

  /** A configuration value: the trimmed raw string, or the trimmed pieces of a `[a, b]` list. */
  datatype ConfigValue = Str(s: string) | List(items: seq<string>)

  type Config = map<string, ConfigValue>

  /** What opening and reading the configuration file gives. */
  datatype ConfigFile =
    | Missing                 // the path does not exist
    | Unreadable              // it exists but opening or decoding it raises
    | Contents(text: string)  // its text, newlines already normalised to '\n'

  /** The mapping used when the configuration file is missing or unreadable. */
  function DefaultConfig(): (r: Config)
    ensures "frontend_port" !in r && "backend_port" !in r && "ami" !in r
    ensures forall k :: k in r ==> (r[k].List? <==> k == "labels")
  {
    map[
      "pipeline_name" := Str("auto-generated-pipeline"),
      "environment" := Str("production"),
      "target" := Str("aws_ec2"),
      "instance_type" := Str("t2.micro"),
      "deploy_using" := Str("docker-compose"),
      "labels" := List(["ai-generated", "demo"]),
      "email_notification" := Str("true"),
      "email_recipient" := Str("demo@example.com")
    ]
  }

  /** `config.get(key, default)`. */
  function ConfigGet(config: Config, key: string, default: ConfigValue): (v: ConfigValue)
    ensures key !in config ==> v == default
    ensures key in config ==> v == config[key]
  {
    if key in config then config[key] else default
  }

  /** Every piece of `ps`, stripped. */
  function TrimAll(ps: seq<string>): (r: seq<string>)
    ensures |r| == |ps|
    ensures forall k :: 0 <= k < |r| ==> r[k] == Trim(ps[k])
  {
    if ps == [] then [] else [Trim(ps[0])] + TrimAll(ps[1..])
  }

  /**
   * The value of an already stripped value text: `[...]` becomes the list of
   * its comma-separated pieces, each stripped; anything else stays the string.
   */
  function ParseValue(v: string): (r: ConfigValue)
    ensures r.Str? <==> !(StartsWith(v, "[") && EndsWith(v, "]"))
    ensures r.Str? ==> r.s == v
    ensures r.List? ==> |r.items| >= 1
  {
    if StartsWith(v, "[") && EndsWith(v, "]") then
      assert |v| >= 2 by {
        assert v[0] == '[' && v[|v| - 1] == ']';
      }
      List(TrimAll(Split(v[1..|v| - 1], ',')))
    else Str(v)
  }

  /** The items of a parsed list hold no `,` and are already stripped. */
  lemma ListItemsClean(v: string)
    requires ParseValue(v).List?
    ensures forall k :: 0 <= k < |ParseValue(v).items| ==>
      ',' !in ParseValue(v).items[k] && Trim(ParseValue(v).items[k]) == ParseValue(v).items[k]
  {
    assert |v| >= 2 by {
      assert v[0] == '[' && v[|v| - 1] == ']';
    }
    var pieces := Split(v[1..|v| - 1], ',');
    var items := ParseValue(v).items;
    assert items == TrimAll(pieces);
    forall k | 0 <= k < |items|
      ensures ',' !in items[k] && Trim(items[k]) == items[k]
    {
      TrimIdempotent(pieces[k]);
      TrimNoNewChar(pieces[k], ',');
    }
  }

  /**
   * One line of the file.  A line is skipped (`None`) when, stripped, it is
   * empty, starts with `#` or holds no `:`; otherwise it is cut at its first
   * `:` into a stripped key and a stripped value.
   */
  function ParseLine(raw: string): (r: Option<(string, ConfigValue)>)
    ensures r.None? <==> (var line := Trim(raw); line == "" || StartsWith(line, "#") || ':' !in line)
  {
    var line := Trim(raw);
    if line == "" || StartsWith(line, "#") then None
    else match IndexOf(line, ':')
      case None => None
      case Some(i) => Some((Trim(line[..i]), ParseValue(Trim(line[i + 1..]))))
  }

  /** A binding a line contributes: the stripped key and its parsed value. */
  type Binding = (string, ConfigValue)

  /** The mapping built from the lines' bindings in order: later bindings win. */
  function Assemble(bindings: seq<Option<Binding>>): Config {
    if bindings == [] then map[]
    else
      var config := Assemble(bindings[..|bindings| - 1]);
      match bindings[|bindings| - 1]
      case None => config
      case Some(binding) => config[binding.0 := binding.1]
  }

  /** One more line's binding, applied to the mapping built so far. */
  lemma AssembleSnoc(bindings: seq<Option<Binding>>, last: Option<Binding>)
    ensures Assemble(bindings + [last]) == match last
      case None => Assemble(bindings)
      case Some(binding) => Assemble(bindings)[binding.0 := binding.1]
  {
    assert (bindings + [last])[..|bindings|] == bindings;
  }

  /** What each line contributes. */
  function Bindings(lines: seq<string>): (bindings: seq<Option<Binding>>)
    ensures |bindings| == |lines|
  {
    if lines == [] then []
    else Bindings(lines[..|lines| - 1]) + [ParseLine(lines[|lines| - 1])]
  }

  lemma {:induction false} BindingAt(lines: seq<string>, k: nat)
    requires k < |lines|
    ensures Bindings(lines)[k] == ParseLine(lines[k])
    decreases |lines|
  {
    var init := lines[..|lines| - 1];
    if k < |init| {
      BindingAt(init, k);
      assert init[k] == lines[k];
    }
  }

  /** The mapping the reading loop builds from the given lines. */
  function ParseLines(lines: seq<string>): Config {
    Assemble(Bindings(lines))
  }

  /** One more line, applied to the mapping built from the lines before it. */
  lemma ParseLinesSnoc(lines: seq<string>, line: string)
    ensures ParseLines(lines + [line]) == match ParseLine(line)
      case None => ParseLines(lines)
      case Some(binding) => ParseLines(lines)[binding.0 := binding.1]
  {
    var bindings := Bindings(lines);
    assert (lines + [line])[..|lines|] == lines;
    AssembleSnoc(bindings, ParseLine(line));
  }

  /** The lines `for line in f` yields; a final empty piece is skipped like any blank line. */
  function Lines(text: string): seq<string> {
    Split(text, '\n')
  }

  /** The mapping `_load_config` returns. */
  function ConfigOf(file: ConfigFile): Config {
    match file
    case Missing => DefaultConfig()
    case Unreadable => DefaultConfig()
    case Contents(text) => ParseLines(Lines(text))
  }

  /** `_load_config`: read the file line by line into a mapping, or fall back to the defaults. */
  method LoadConfig(file: ConfigFile) returns (config: Config)
    ensures config == ConfigOf(file)
    ensures !file.Contents? ==> config == DefaultConfig()
  {
    if !file.Contents? {
      return DefaultConfig();
    }
    var lines := Lines(file.text);
    config := map[];
    for i := 0 to |lines|
      invariant config == ParseLines(lines[..i])
    {
      assert lines[..i + 1] == lines[..i] + [lines[i]];
      ParseLinesSnoc(lines[..i], lines[i]);
      var line := Trim(lines[i]);
      if line != "" && !StartsWith(line, "#") {
        var colon := IndexOf(line, ':');
        if colon.Some? {
          var key := Trim(line[..colon.value]);
          var value := Trim(line[colon.value + 1..]);
          config := config[key := ParseValue(value)];
        }
      }
    }
    assert lines[..|lines|] == lines;
  }

  // ----- properties of the line format -----

  /** The key line `i` binds, if it binds one. */
  function KeyAt(lines: seq<string>, i: nat): Option<string>
    requires i < |lines|
  {
    match ParseLine(lines[i])
    case None => None
    case Some(binding) => Some(binding.0)
  }

  lemma {:induction false} AssembleUnbound(bindings: seq<Option<Binding>>, key: string)
    requires forall i :: 0 <= i < |bindings| ==> bindings[i].None? || bindings[i].value.0 != key
    ensures key !in Assemble(bindings)
    decreases |bindings|
  {
    if bindings != [] {
      var init := bindings[..|bindings| - 1];
      assert forall i :: 0 <= i < |init| ==> init[i] == bindings[i];
      AssembleUnbound(init, key);
    }
  }

  lemma {:induction false} AssembleLastWins(bindings: seq<Option<Binding>>, i: nat)
    requires i < |bindings| && bindings[i].Some?
    requires forall j :: i < j < |bindings| ==> bindings[j].None? || bindings[j].value.0 != bindings[i].value.0
    ensures bindings[i].value.0 in Assemble(bindings)
    ensures Assemble(bindings)[bindings[i].value.0] == bindings[i].value.1
    decreases |bindings|
  {
    var init := bindings[..|bindings| - 1];
    if i < |init| {
      assert forall j :: 0 <= j < |init| ==> init[j] == bindings[j];
      AssembleLastWins(init, i);
    }
  }

  /** A key that no line binds is absent from the mapping. */
  lemma UnboundKeyAbsent(lines: seq<string>, key: string)
    requires forall i :: 0 <= i < |lines| ==> KeyAt(lines, i) != Some(key)
    ensures key !in ParseLines(lines)
  {
    var bindings := Bindings(lines);
    forall i | 0 <= i < |bindings|
      ensures bindings[i].None? || bindings[i].value.0 != key
    {
      BindingAt(lines, i);
      assert KeyAt(lines, i) != Some(key);
    }
    AssembleUnbound(bindings, key);
  }

  /** A key maps to the value of the LAST line that binds it: a later duplicate overwrites. */
  lemma LastBindingWins(lines: seq<string>, i: nat)
    requires i < |lines| && ParseLine(lines[i]).Some?
    requires forall j :: i < j < |lines| ==> KeyAt(lines, j) != KeyAt(lines, i)
    ensures ParseLine(lines[i]).value.0 in ParseLines(lines)
    ensures ParseLines(lines)[ParseLine(lines[i]).value.0] == ParseLine(lines[i]).value.1
  {
    var bindings := Bindings(lines);
    BindingAt(lines, i);
    forall j | i < j < |bindings|
      ensures bindings[j].None? || bindings[j].value.0 != bindings[i].value.0
    {
      BindingAt(lines, j);
      assert KeyAt(lines, j) != KeyAt(lines, i);
    }
    AssembleLastWins(bindings, i);
  }

  /**
   * A stripped line `key:value` whose key holds no `:` binds the stripped key
   * to the parsed stripped value, so the value may itself contain `:`.
   */
  lemma SplitsAtFirstColon(key: string, value: string)
    requires ':' !in key
    requires var line := key + ":" + value; !IsSpace(line[0]) && !IsSpace(line[|line| - 1])
    requires !StartsWith(key + ":" + value, "#")
    ensures ParseLine(key + ":" + value) == Some((Trim(key), ParseValue(Trim(value))))
  {
    var line := key + ":" + value;
    assert ParseLine(line) == Some((Trim(line[..|key|]), ParseValue(Trim(line[|key| + 1..])))) by {
      TrimOfTrimmed(line);
      IndexOfFirst(key, ':', value);
      ParseStrippedLine(line, |key|);
    }
    assert line[..|key|] == key;
    assert line[|key| + 1..] == value;
  }

  lemma ParseStrippedLine(line: string, i: nat)
    requires Trim(line) == line && line != "" && !StartsWith(line, "#")
    requires IndexOf(line, ':') == Some(i)
    ensures ParseLine(line) == Some((Trim(line[..i]), ParseValue(Trim(line[i + 1..]))))
  {
  }

  /** A bracketed list of stripped, comma-free items reads back as exactly those items. */
  lemma ListRoundTrip(items: seq<string>)
    requires |items| >= 1
    requires forall k :: 0 <= k < |items| ==> ',' !in items[k] && Trim(items[k]) == items[k]
    ensures ParseValue("[" + Join(items, ',') + "]") == List(items)
  {
    var v := "[" + Join(items, ',') + "]";
    assert v[1..|v| - 1] == Join(items, ',');
    SplitJoin(items, ',');
    assert TrimAll(items) == items;
  }

  /** `[]` is the one-element list holding the empty string, not the empty list. */
  lemma EmptyBrackets()
    ensures ParseValue("[]") == List([""])
  {
    var v := "[]";
    assert v[1..|v| - 1] == "";
    assert Trim("") == "";
  }
}
