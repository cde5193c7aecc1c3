/** `Config.get` (config/config.py): a dotted-path lookup in the loaded
    configuration tree, overridden by an environment variable named after
    the path. The environment is a parameter; YAML loading is not modelled,
    and the built-in default tree stands in for a loaded file. */
module Config {
  import opened Wrappers
  import opened PyValues
  import opened PyStrings

  /** `keys` walked from `value`: `None` when a step meets a non-dictionary,
      a missing key or a stored `None` (each makes `get` return its default). */
  function Walk(value: Value, keys: seq<string>): (r: Option<Value>)
    ensures |keys| > 0 && r.Some? ==> r.value != VNone
    ensures |keys| > 0 && !value.VDict? ==> r.None?
  {
    if |keys| == 0 then Some(value)
    else if !value.VDict? then None
    else
      var next := Get(value.entries, keys[0], VNone);
      if next == VNone then None else Walk(next, keys[1..])
  }

  /** Walking a path is walking its first part, then the rest from there. */
  lemma {:induction false} WalkAppend(value: Value, a: seq<string>, b: seq<string>)
    ensures Walk(value, a + b) == match Walk(value, a) case None => None case Some(mid) => Walk(mid, b)
  {
    if |a| == 0 {
      assert a + b == b;
    } else {
      assert (a + b)[0] == a[0] && (a + b)[1..] == a[1..] + b;
      if value.VDict? {
        var next := Get(value.entries, a[0], VNone);
        if next != VNone {
          WalkAppend(next, a[1..], b);
        }
      }
    }
  }

  /** A stored value that is present and not `None` is found, even when it is
      falsy (`False`, `0`, `""`). */
  lemma WalkOneStep(entries: map<string, Value>, k: string)
    requires k in entries && entries[k] != VNone
    ensures Walk(VDict(entries), [k]) == Some(entries[k])
  {
    assert [k][1..] == [];
  }

  /** `s` with every `a` replaced by `b`. */
  function ReplaceChar(s: string, a: char, b: char): (r: string)
    ensures |r| == |s| && forall i :: 0 <= i < |s| ==> r[i] == if s[i] == a then b else s[i]
  {
    seq(|s|, i requires 0 <= i < |s| => if s[i] == a then b else s[i])
  }

  /** `'_'.join(key.split('.')).upper()`. */
  function EnvKey(key: string): (r: string)
    ensures r == Upper(ReplaceChar(key, '.', '_'))
  {
    JoinSplitReplaces(key);
    Upper(Join(Split(key, '.'), '_'))
  }

  /** Joining the pieces of a split with another separator replaces the separator. */
  lemma {:induction false} JoinSplitReplaces(s: string)
    ensures Join(Split(s, '.'), '_') == ReplaceChar(s, '.', '_')
    decreases |s|
  {
    if '.' in s {
      var i := IndexOf(s, '.');
      var head, tail := s[..i], s[i + 1..];
      assert s == head + ['.'] + tail;
      SplitCons(head, '.', tail);
      JoinSplitReplaces(tail);
      var parts := [head] + Split(tail, '.');
      JoinCons(parts, '_');
      assert parts[1..] == Split(tail, '.');
      ReplaceAround(head, tail);
    } else {
      assert s == ReplaceChar(s, '.', '_');
    }
  }

  /** Replacing the dots of a dot-free head, a dot and a tail. */
  lemma ReplaceAround(head: string, tail: string)
    requires '.' !in head
    ensures ReplaceChar(head + ['.'] + tail, '.', '_') == head + ['_'] + ReplaceChar(tail, '.', '_')
  {
    var s := head + ['.'] + tail;
    var r := ReplaceChar(s, '.', '_');
    var t := head + ['_'] + ReplaceChar(tail, '.', '_');
    assert |r| == |t|;
    forall k | 0 <= k < |r| ensures r[k] == t[k] {
      if k < |head| {
        assert s[k] == head[k];
      } else if k > |head| {
        assert s[k] == tail[k - |head| - 1];
      }
    }
  }

  /** The strings the boolean override accepts as true, after lower-casing. */
  predicate TrueWord(s: string) {
    s == "true" || s == "1" || s == "yes"
  }

  /** The override converted by the type of the stored value; `bool` is
      checked before `int`. `int()` and `float()` raise on a malformed value. */
  function Convert(stored: Value, env: string): (r: Result<Value>)
    ensures stored.VBool? ==> r == Ok(VBool(TrueWord(Lower(env))))
    ensures stored.VInt? ==> (r.Ok? <==> ParseInt(env).Ok?) && (r.Ok? ==> r.value == VInt(ParseInt(env).value))
    ensures stored.VFloat? ==> (r.Ok? <==> ParseFloat(env).Ok?) && (r.Ok? ==> r.value == VFloat(ParseFloat(env).value))
    ensures !stored.VBool? && !stored.VInt? && !stored.VFloat? ==> r == Ok(VStr(env))
  {
    match stored
    case VBool(_) => Ok(VBool(TrueWord(Lower(env))))
    case VInt(_) => (match ParseInt(env) case Ok(n) => Ok(VInt(n)) case Err(e) => Err(e))
    case VFloat(_) => (match ParseFloat(env) case Ok(x) => Ok(VFloat(x)) case Err(e) => Err(e))
    case _ => Ok(VStr(env))
  }

  /** `Config.get(key, default)` over the tree `root` and the environment `env`. */
  function GetValue(root: Value, key: string, default: Value, env: string -> Option<string>): (r: Result<Value>)
    ensures Walk(root, Split(key, '.')).None? ==> r == Ok(default)
    ensures Walk(root, Split(key, '.')).Some? && env(EnvKey(key)).None? ==>
              r == Ok(Walk(root, Split(key, '.')).value)
    ensures Walk(root, Split(key, '.')).Some? && env(EnvKey(key)).Some? ==>
              r == Convert(Walk(root, Split(key, '.')).value, env(EnvKey(key)).value)
    ensures r.Err? ==> Walk(root, Split(key, '.')).Some? && env(EnvKey(key)).Some?
  {
    var keys := Split(key, '.');
    match Walk(root, keys)
    case None => Ok(default)
    case Some(value) =>
      match env(EnvKey(key))
      case None => Ok(value)
      case Some(e) => Convert(value, e)
  }

  /** The tree `_get_default_config` returns. */
  const AppTree: Value :=
    VDict(map["name" := VStr("NSE Stock Analysis System"), "version" := VStr("2.0.0"),
              "environment" := VStr("production")])

  const SignalsTree: Value :=
    VDict(map["buy_threshold" := VFloat(3.0), "hold_min" := VFloat(1.0), "hold_max" := VFloat(2.9)])

  const ScoringTree: Value := VDict(map["signals" := SignalsTree])

  const Defaults: Value := VDict(map[
    "app" := AppTree,
    "data_fetching" := VDict(map["max_workers" := VInt(10), "timeout" := VInt(30), "retry_attempts" := VInt(3),
                                 "retry_delay" := VInt(2), "cache_ttl" := VInt(3600)]),
    "technical_analysis" := VDict(map["ema_period" := VInt(44), "price_history_days" := VInt(365),
                                      "slope_days" := VInt(5)]),
    "scoring" := ScoringTree,
    "logging" := VDict(map["level" := VStr("INFO"), "file_path" := VStr("logs/nse_analysis.log")])])

  function NoEnv(name: string): Option<string> { None }

  function OneVar(name: string, value: string): string -> Option<string> {
    (n: string) => if n == name then Some(value) else None
  }

  /** A key written as dot-joined parts is looked up along those parts. */
  lemma GetValueAlongParts(root: Value, parts: seq<string>, default: Value, env: string -> Option<string>)
    requires |parts| >= 1 && forall i :: 0 <= i < |parts| ==> '.' !in parts[i]
    ensures Walk(root, parts).None? ==> GetValue(root, Join(parts, '.'), default, env) == Ok(default)
    ensures Walk(root, parts).Some? && env(EnvKey(Join(parts, '.'))).None? ==>
              GetValue(root, Join(parts, '.'), default, env) == Ok(Walk(root, parts).value)
  {
    SplitJoin(parts, '.');
  }

  /** A nested hit in the default tree. */
  lemma DefaultNestedHit()
    ensures Walk(Defaults, ["scoring", "signals", "buy_threshold"]) == Some(VFloat(3.0))
  {
    WalkOneStep(Defaults.entries, "scoring");
    WalkOneStep(ScoringTree.entries, "signals");
    WalkOneStep(SignalsTree.entries, "buy_threshold");
    WalkAppend(ScoringTree, ["signals"], ["buy_threshold"]);
    assert ["signals"] + ["buy_threshold"] == ["signals", "buy_threshold"];
    WalkAppend(Defaults, ["scoring"], ["signals", "buy_threshold"]);
    assert ["scoring"] + ["signals", "buy_threshold"] == ["scoring", "signals", "buy_threshold"];
  }

  /** The `app` subtree has no `missing` key, and its `name` is a string. */
  lemma AppTreeMisses()
    ensures Walk(AppTree, ["missing"]) == None
    ensures Walk(AppTree, ["name", "first"]) == None
  {
    assert "missing" !in AppTree.entries;
    assert ["missing"][1..] == [];
    WalkOneStep(AppTree.entries, "name");
    WalkAppend(AppTree, ["name"], ["first"]);
    assert ["name"] + ["first"] == ["name", "first"];
  }

  /** A missing key, and a path that runs through a string, give the default. */
  lemma DefaultMisses()
    ensures Walk(Defaults, ["app", "missing"]) == None
    ensures Walk(Defaults, ["app", "name", "first"]) == None
    ensures GetValue(Defaults, "app.missing", VInt(7), NoEnv) == Ok(VInt(7))
  {
    AppTreeMisses();
    WalkOneStep(Defaults.entries, "app");
    WalkAppend(Defaults, ["app"], ["missing"]);
    assert ["app"] + ["missing"] == ["app", "missing"];
    WalkAppend(Defaults, ["app"], ["name", "first"]);
    assert ["app"] + ["name", "first"] == ["app", "name", "first"];
    assert Join(["app", "missing"], '.') == "app.missing";
    GetValueAlongParts(Defaults, ["app", "missing"], VInt(7), NoEnv);
  }

  /** The environment variable a dotted key reads. */
  lemma EnvKeyExample()
    ensures EnvKey("app.name") == "APP_NAME"
  {
    ReplaceDotExample();
    UpperNameExample();
  }

  lemma ReplaceDotExample()
    ensures ReplaceChar("app.name", '.', '_') == "app_name"
  {
  }

  lemma UpperNameExample()
    ensures Upper("app_name") == "APP_NAME"
  {
    var u := Upper("app_name");
    assert u[0] == 'A' && u[1] == 'P' && u[2] == 'P' && u[3] == '_';
    assert u[4] == 'N' && u[5] == 'A' && u[6] == 'M' && u[7] == 'E';
  }

  /** An integer override is parsed; a malformed one raises. */
  lemma ConvertIntExamples()
    ensures Convert(VInt(10), "20") == Ok(VInt(20))
    ensures Convert(VInt(10), "x").Err?
  {
    ParseTwenty();
    ParseLetterFails();
  }

  lemma ParseTwenty()
    ensures ParseInt("20") == Ok(20)
  {
    assert NatToString(20) == "20" by {
      assert NatToString(2) == "2";
    }
    ParseIntRoundTrip(20);
  }

  lemma ParseLetterFails()
    ensures ParseInt("x").Err?
  {
    assert Strip("x") == "x";
    assert SignOf("x").1 == "x";
  }

  /** A boolean override is true only for the listed words, in any case. */
  lemma ConvertBoolExamples()
    ensures Convert(VBool(false), "Yes") == Ok(VBool(true))
    ensures Convert(VBool(true), "on") == Ok(VBool(false))
    ensures Convert(VStr("2.0.0"), "3") == Ok(VStr("3"))
  {
    assert Lower("Yes") == "yes";
    assert Lower("on") == "on";
  }
}
