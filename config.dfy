/** The `.env` reader of the web application (src/utils/config.py). The file is given as the
    sequence of its lines, each with the line terminator Python's line iteration leaves on it, or as
    None when the file does not exist. */
module Config {
  import opened PyStr
  import opened Py

  /** `not line.strip() or line.startswith('#')`: a line the loop passes over. The `#` test looks at
      the line as read, before it is stripped. */
  predicate Skipped(line: string)
  {
    Strip(line) == [] || (line != [] && line[0] == '#')
  }

  /** A line the loop reads but cannot unpack into a key and a value. */
  predicate Malformed(line: string)
  {
    !Skipped(line) && '=' !in Strip(line)
  }

  const UnpackTooFew := "not enough values to unpack (expected 2, got 1)"

  /** One line's effect: nothing for a skipped line, else the `key` and `value` of
      `line.strip().split('=', 1)`; the unpacking raises when the stripped line holds no `=`. */
  function Entry(line: string): (r: Result<Option<(string, string)>>)
    ensures r.Raised? <==> Malformed(line)
    ensures r == Ok(None) <==> Skipped(line)
  {
    if Skipped(line) then Ok(None)
    else
      match SplitOnce(Strip(line), '=')
      case None => Raised(Exc(ValueError, UnpackTooFew))
      case Some(kv) => Ok(Some(kv))
  }

  /** An assignment cuts the stripped line at its first `=`: the key holds no `=`, and key, `=` and
      value give the stripped line back. */
  lemma EntryCutsAtFirstEquals(line: string)
    requires Entry(line).Ok? && Entry(line).value.Some?
    ensures var kv := Entry(line).value.value;
            Strip(line) == kv.0 + "=" + kv.1 && '=' !in kv.0
  {
    var kv := SplitOnce(Strip(line), '=').value;
    assert kv.0 + "=" + kv.1 == kv.0 + ['='] + kv.1;
  }

  /** The effect of one line on the dict. */
  type Effect = Result<Option<(string, string)>>

  /** An effect that sets `config[key]`. */
  predicate Sets(e: Effect, key: string)
  {
    e.Ok? && e.value.Some? && e.value.value.0 == key
  }

  /** A line that sets `config[key]`. */
  predicate Assigns(line: string, key: string)
  {
    Sets(Entry(line), key)
  }

  /** The effect of each line, in order. */
  function Entries(lines: seq<string>): (es: seq<Effect>)
    ensures |es| == |lines| && forall k :: 0 <= k < |lines| ==> es[k] == Entry(lines[k])
  {
    seq(|lines|, k requires 0 <= k < |lines| => Entry(lines[k]))
  }

  /** The dict the loop builds from a sequence of line effects, or the exception of the first line
      that raises. */
  function Build(effects: seq<Effect>): Result<map<string, string>>
    decreases |effects|
  {
    if effects == [] then Ok(map[])
    else
      var config :- Build(effects[..|effects| - 1]);
      var entry :- effects[|effects| - 1];
      Ok(Apply(config, entry))
  }

  /** `config[key] = value` for a line that assigns, nothing for a skipped one. */
  function Apply(config: map<string, string>, entry: Option<(string, string)>): map<string, string>
  {
    match entry
    case None => config
    case Some(kv) => config[kv.0 := kv.1]
  }

  /** The dict the loop builds from `lines`, or the exception of the first line that cannot be
      unpacked. */
  function Parse(lines: seq<string>): (r: Result<map<string, string>>)
    ensures r.Ok? ==> |r.value| <= |lines|
  {
    BuildSize(Entries(lines));
    Build(Entries(lines))
  }

  /** A dict built from some effects has at most one key per effect. */
  lemma {:induction false} BuildSize(effects: seq<Effect>)
    ensures Build(effects).Ok? ==> |Build(effects).value| <= |effects|
    decreases |effects|
  {
    if effects != [] {
      var init := effects[..|effects| - 1];
      BuildSize(init);
      if Build(effects).Ok? {
        var config := Build(init).value;
        var entry := effects[|effects| - 1].value;
        if entry.Some? {
          assert config[entry.value.0 := entry.value.1].Keys == config.Keys + {entry.value.0};
        }
      }
    }
  }

  /** `load_config(env_file)`: a missing file gives the empty dict (only `FileNotFoundError` is
      caught); otherwise one pass over the file's lines, updating `config` in place, builds what
      `Parse` specifies. */
  method LoadConfig(file: Option<seq<string>>) returns (r: Result<map<string, string>>)
    ensures file.None? ==> r == Ok(map[])
    ensures file.Some? ==> r == Parse(file.value)
  {
    var config: map<string, string> := map[];
    if file.None? {
      return Ok(config);
    }
    var lines := file.value;
    ghost var effects := Entries(lines);
    assert Parse(lines) == Build(effects);
    var k := 0;
    while k < |lines|
      invariant 0 <= k <= |lines|
      invariant Build(effects[..k]) == Ok(config)
    {
      var line := lines[k];
      BuildStep(effects, k);
      assert effects[k] == Entry(line);
      if !Skipped(line) {
        var parts := SplitOnce(Strip(line), '=');
        if parts.None? {
          assert Entry(line) == Raised(Exc(ValueError, UnpackTooFew));
          BuildRaisedPrefix(effects, k + 1);
          return Raised(Exc(ValueError, UnpackTooFew));
        }
        assert Entry(line) == Ok(Some(parts.value));
        config := config[parts.value.0 := parts.value.1];
      } else {
        assert Entry(line) == Ok(None);
      }
      k := k + 1;
    }
    assert effects[..k] == effects;
    r := Ok(config);
  }

  /** One more effect: the dict so far with that effect applied, unless something has raised. */
  lemma BuildStep(effects: seq<Effect>, k: nat)
    requires k < |effects|
    ensures Build(effects[..k + 1]) == (var config :- Build(effects[..k]); var entry :- effects[k]; Ok(Apply(config, entry)))
  {
    assert effects[..k + 1][..k] == effects[..k];
  }

  /** Once a line has raised, the lines after it are never read: the outcome is that exception. */
  lemma {:induction false} BuildRaisedPrefix(effects: seq<Effect>, k: nat)
    requires k <= |effects| && Build(effects[..k]).Raised?
    ensures Build(effects) == Build(effects[..k])
    decreases |effects| - k
  {
    if k == |effects| {
      assert effects[..k] == effects;
    } else {
      assert effects[..k + 1][..k] == effects[..k];
      BuildRaisedPrefix(effects, k + 1);
    }
  }

  /** Building fails exactly when some effect is an exception. */
  lemma {:induction false} BuildFails(effects: seq<Effect>)
    ensures Build(effects).Raised? <==> exists k :: 0 <= k < |effects| && effects[k].Raised?
    decreases |effects|
  {
    if effects != [] {
      var init := effects[..|effects| - 1];
      BuildFails(init);
      if Build(init).Raised? {
        var k :| 0 <= k < |init| && init[k].Raised?;
        assert effects[k] == init[k];
      } else if effects[|effects| - 1].Ok? {
        forall k | 0 <= k < |effects| ensures effects[k].Ok? {
          if k < |init| {
            assert effects[k] == init[k];
          }
        }
      }
    }
  }

  /** The keys built are exactly the keys some effect sets. */
  lemma {:induction false} BuildKeys(effects: seq<Effect>, key: string)
    requires Build(effects).Ok?
    ensures key in Build(effects).value <==> exists k :: 0 <= k < |effects| && Sets(effects[k], key)
    decreases |effects|
  {
    if effects != [] {
      var init, last := effects[..|effects| - 1], effects[|effects| - 1];
      BuildKeys(init, key);
      if !Sets(last, key) {
        if key in Build(init).value {
          var k :| 0 <= k < |init| && Sets(init[k], key);
          assert effects[k] == init[k];
        } else {
          forall k | 0 <= k < |effects| ensures !Sets(effects[k], key) {
            if k < |init| {
              assert effects[k] == init[k];
            }
          }
        }
      }
    }
  }

  /** The last effect setting a key decides its value. */
  lemma {:induction false} BuildLastWins(effects: seq<Effect>, k: nat, key: string, value: string)
    requires Build(effects).Ok?
    requires k < |effects| && effects[k] == Ok(Some((key, value)))
    requires forall j :: k < j < |effects| ==> !Sets(effects[j], key)
    ensures key in Build(effects).value && Build(effects).value[key] == value
    decreases |effects|
  {
    var init := effects[..|effects| - 1];
    if k < |effects| - 1 {
      assert forall j :: 0 <= j < |init| ==> init[j] == effects[j];
      BuildLastWins(init, k, key, value);
      assert !Sets(effects[|effects| - 1], key);
    }
  }

  /** Reading fails exactly when some line is malformed. */
  lemma ParseFails(lines: seq<string>)
    ensures Parse(lines).Raised? <==> exists k :: 0 <= k < |lines| && Malformed(lines[k])
  {
    var effects := Entries(lines);
    BuildFails(effects);
    if Parse(lines).Raised? {
      var k :| 0 <= k < |effects| && effects[k].Raised?;
      assert Malformed(lines[k]);
    }
  }

  /** The keys of the dict are exactly the keys some line assigns. */
  lemma ParseKeys(lines: seq<string>, key: string)
    requires forall k :: 0 <= k < |lines| ==> !Malformed(lines[k])
    ensures Parse(lines).Ok?
    ensures key in Parse(lines).value <==> exists k :: 0 <= k < |lines| && Assigns(lines[k], key)
  {
    ParseFails(lines);
    var effects := Entries(lines);
    BuildKeys(effects, key);
    if key in Parse(lines).value {
      var k :| 0 <= k < |effects| && Sets(effects[k], key);
      assert Assigns(lines[k], key);
    }
  }

  /** When a key repeats, the last line assigning it decides its value. */
  lemma LastAssignmentWins(lines: seq<string>, k: nat, key: string, value: string)
    requires forall j :: 0 <= j < |lines| ==> !Malformed(lines[j])
    requires k < |lines| && Entry(lines[k]) == Ok(Some((key, value)))
    requires forall j :: k < j < |lines| ==> !Assigns(lines[j], key)
    ensures Parse(lines).Ok?
    ensures key in Parse(lines).value && Parse(lines).value[key] == value
  {
    ParseFails(lines);
    BuildLastWins(Entries(lines), k, key, value);
  }

  /** An indented comment is not skipped: its `#` is not the line's first character, so the line is
      read as an assignment and raises unless it holds an `=`. */
  lemma IndentedCommentRead(line: string)
    requires line != [] && IsSpace(line[0])
    requires exists k :: 0 <= k < |line| && line[k] == '#'
    ensures !Skipped(line)
    ensures Entry(line).Raised? <==> '=' !in Strip(line)
  {
    StripEmptyIff(line);
    var k :| 0 <= k < |line| && line[k] == '#';
    assert !IsSpace(line[k]);
  }

  /** A line `key=value` reads back as that key and that value, however many `=` the value holds
      and whatever spaces the key ends with: only the line's outer white space is removed. */
  lemma AssignmentLine(key: string, value: string)
    requires key != [] && !IsSpace(key[0]) && key[0] != '#' && '=' !in key
    requires value == [] || !IsSpace(value[|value| - 1])
    ensures Entry(key + "=" + value + "\n") == Ok(Some((key, value)))
  {
    var text := key + "=" + value;
    var line := text + "\n";
    assert line[0] == key[0];
    assert StripLeft(line) == line;
    assert line[..|line| - 1] == text;
    assert StripRight(line) == StripRight(text);
    assert text[|text| - 1] == if value == [] then '=' else value[|value| - 1];
    assert StripRight(text) == text;
    assert text == key + ['='] + value;
    SplitOnceJoin(key, '=', value);
  }

  /** The keys `get_api_keys` reports. */
  const ApiKeyNames := {"MAILGUN_API_KEY", "CLOUDFLARE_API_KEY", "CLOUDFLARE_EMAIL"}

  /** `get_api_keys(config)`: exactly the three credential keys, each with its configured value or
      None when the configuration lacks it. */
  function GetApiKeys(config: map<string, string>): (r: map<string, Option<string>>)
    ensures r.Keys == ApiKeyNames
    ensures forall name :: name in r ==> (r[name].Some? <==> name in config)
    ensures forall name :: name in r && name in config ==> r[name] == Some(config[name])
  {
    map name | name in ApiKeyNames :: if name in config then Some(config[name]) else None
  }

  /** Read from a file, a credential is the value of the last line that assigns it. */
  lemma ApiKeyFromLines(lines: seq<string>, name: string, k: nat, value: string)
    requires forall j :: 0 <= j < |lines| ==> !Malformed(lines[j])
    requires name in ApiKeyNames
    requires k < |lines| && Entry(lines[k]) == Ok(Some((name, value)))
    requires forall j :: k < j < |lines| ==> !Assigns(lines[j], name)
    ensures Parse(lines).Ok? && GetApiKeys(Parse(lines).value)[name] == Some(value)
  {
    LastAssignmentWins(lines, k, name, value);
  }

  /** A credential no line assigns is None. */
  lemma ApiKeyAbsent(lines: seq<string>, name: string)
    requires forall k :: 0 <= k < |lines| ==> !Malformed(lines[k])
    requires name in ApiKeyNames
    requires forall k :: 0 <= k < |lines| ==> !Assigns(lines[k], name)
    ensures Parse(lines).Ok? && GetApiKeys(Parse(lines).value)[name] == None
  {
    ParseKeys(lines, name);
  }
}
