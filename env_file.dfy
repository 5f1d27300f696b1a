/**
 * The `.env` loader run before the handler: each line is stripped; blank
 * lines, `#` comments and lines without `=` are skipped; the rest split on
 * the first `=` into a key and a value that are assigned into the process
 * environment, in file order.
 */
module EnvFile {
  import opened Wrappers
  import opened Text

  /** Why assigning into `os.environ` raises. */
  datatype EnvError =
    | EmbeddedNull(key: string)   // a NUL character in the key or the value
    | InvalidName                 // the empty key (a line such as `=x`)

  /** What one line of the file does. */
  datatype LineAction = Ignore | Assign(key: string, value: string) | Raise(error: EnvError)

  /** The loop body for one line, on the line once stripped. */
  function ClassifyStripped(t: string): (r: LineAction)
    ensures r.Ignore? <==> t == [] || t[0] == '#' || '=' !in t
    ensures r.Assign? ==>
      && t == r.key + "=" + r.value
      && '=' !in r.key && r.key != []
      && '\0' !in r.key && '\0' !in r.value
    ensures r.Raise? ==>
      && '=' in t
      && (var kv := SplitOnce(t, '='); kv.0 == [] || '\0' in kv.0 || '\0' in kv.1)
  {
    if t == [] || t[0] == '#' || '=' !in t then Ignore
    else
      var kv := SplitOnce(t, '=');
      if '\0' in kv.0 || '\0' in kv.1 then Raise(EmbeddedNull(kv.0))
      else if kv.0 == [] then Raise(InvalidName)
      else Assign(kv.0, kv.1)
  }

  /** The loop body for one line. */
  function ClassifyLine(line: string): LineAction {
    ClassifyStripped(Strip(line))
  }

  /**
   * A line whose stripped text is `key=value`, with a key that is non-empty,
   * holds no `=`, does not start with `#` and has no NUL, assigns exactly that
   * key and value: the value may hold further `=` signs, and neither part is trimmed.
   */
  lemma ClassifyAssignment(t: string, key: string, value: string)
    requires t == key + "=" + value
    requires key != [] && key[0] != '#' && '=' !in key
    requires '\0' !in key && '\0' !in value
    ensures ClassifyStripped(t) == Assign(key, value)
  {
    assert t[|key|] == '=' && t[..|key|] == key && t[|key| + 1..] == value;
    SplitOnceIn(t, '=', |key|);
    assert t[0] == key[0];
  }

  /** A line with a visible first and last character is stripped of its newline only. */
  lemma StripLineEnd(core: string)
    requires core != [] && !IsSpace(core[0]) && !IsSpace(core[|core| - 1])
    ensures Strip(core + "\n") == core
  {
    StripUnpadded(core);
    StripAppendSpace(core, '\n');
  }

  /**
   * A line `key=value` ending in a newline assigns exactly that key and value:
   * spaces next to the `=` stay in the key and in the value (`A = b` assigns
   * `A ` the value ` b`), and the value may hold further `=` signs.
   */
  lemma AssignmentLine(key: string, value: string)
    requires key != [] && key[0] != '#' && !IsSpace(key[0]) && '=' !in key
    requires value != [] && !IsSpace(value[|value| - 1])
    requires '\0' !in key && '\0' !in value
    ensures ClassifyLine(key + "=" + value + "\n") == Assign(key, value)
  {
    var core := key + "=" + value;
    assert core[0] == key[0] && core[|core| - 1] == value[|value| - 1];
    StripLineEnd(core);
    ClassifyAssignment(core, key, value);
  }

  /** Each line, classified. */
  function ClassifyAll(lines: seq<string>): seq<LineAction> {
    MapSeq(ClassifyLine, lines)
  }

  /** The loop over classified lines, continuing from the environment `env`; the first raising line ends the run. */
  function Fold(cs: seq<LineAction>, env: map<string, string>): Result {
    if cs == [] then Loaded(env)
    else
      match cs[0]
      case Ignore => Fold(cs[1..], env)
      case Assign(k, v) => Fold(cs[1..], env[k := v])
      case Raise(e) => Raised(e)
  }

  /** The environment after the file, or the error the script stops with. */
  datatype Result = Loaded(env: map<string, string>) | Raised(error: EnvError)

  /** The environment after loading `lines` into `env`. */
  function LoadLines(lines: seq<string>, env: map<string, string>): Result {
    Fold(ClassifyAll(lines), env)
  }

  /** The loading loop. */
  method LoadEnv(lines: seq<string>, environ: map<string, string>) returns (r: Result)
    ensures r == LoadLines(lines, environ)
  {
    var env := environ;
    var i := 0;
    while i < |lines|
      invariant 0 <= i <= |lines|
      invariant LoadLines(lines, environ) == Fold(ClassifyAll(lines[i..]), env)
    {
      var line := Strip(lines[i]);
      assert lines[i..][0] == lines[i] && lines[i..][1..] == lines[i + 1..];
      if line != [] && line[0] != '#' && '=' in line {
        var kv := SplitOnce(line, '=');
        if '\0' in kv.0 || '\0' in kv.1 {
          return Raised(EmbeddedNull(kv.0));
        }
        if kv.0 == [] {
          return Raised(InvalidName);
        }
        env := env[kv.0 := kv.1];
      }
      i := i + 1;
    }
    assert lines[i..] == [];
    return Loaded(env);
  }

  /** The environment carried past one action. */
  function Step(c: LineAction, env: map<string, string>): map<string, string> {
    if c.Assign? then env[c.key := c.value] else env
  }

  /** Loading raises exactly when some line raises. */
  lemma {:induction false} FoldRaisesIffRaisingLine(cs: seq<LineAction>, env: map<string, string>)
    ensures Fold(cs, env).Raised? <==> exists i :: 0 <= i < |cs| && cs[i].Raise?
  {
    if cs != [] {
      FoldRaisesIffRaisingLine(cs[1..], Step(cs[0], env));
      assert forall i :: 0 <= i < |cs[1..]| ==> cs[1..][i] == cs[i + 1];
      if exists i :: 0 <= i < |cs| && cs[i].Raise? {
        var i :| 0 <= i < |cs| && cs[i].Raise?;
        if i > 0 {
          assert cs[1..][i - 1].Raise?;
        }
      }
    }
  }

  /** A variable no line assigns is neither added nor changed nor removed. */
  lemma {:induction false} FoldKeepsUnassigned(cs: seq<LineAction>, env: map<string, string>, k: string)
    requires Fold(cs, env).Loaded?
    requires forall i :: 0 <= i < |cs| ==> !(cs[i].Assign? && cs[i].key == k)
    ensures k in Fold(cs, env).env <==> k in env
    ensures k in env ==> Fold(cs, env).env[k] == env[k]
  {
    if cs != [] {
      assert forall i :: 0 <= i < |cs[1..]| ==> cs[1..][i] == cs[i + 1];
      FoldKeepsUnassigned(cs[1..], Step(cs[0], env), k);
    }
  }

  /** A repeated key takes the value of its last line. */
  lemma {:induction false} FoldLastAssignmentWins(cs: seq<LineAction>, env: map<string, string>, j: nat)
    requires j < |cs| && cs[j].Assign?
    requires Fold(cs, env).Loaded?
    requires forall i :: j < i < |cs| ==> !(cs[i].Assign? && cs[i].key == cs[j].key)
    ensures cs[j].key in Fold(cs, env).env && Fold(cs, env).env[cs[j].key] == cs[j].value
  {
    assert forall i :: 0 <= i < |cs[1..]| ==> cs[1..][i] == cs[i + 1];
    if j == 0 {
      FoldKeepsUnassigned(cs[1..], Step(cs[0], env), cs[0].key);
    } else {
      FoldLastAssignmentWins(cs[1..], Step(cs[0], env), j - 1);
    }
  }

  /** The same three facts stated on the lines of the file. */
  lemma LoadLinesFacts(lines: seq<string>, env: map<string, string>, k: string)
    ensures LoadLines(lines, env).Raised? <==> exists i :: 0 <= i < |lines| && ClassifyLine(lines[i]).Raise?
    ensures LoadLines(lines, env).Loaded? && (forall i :: 0 <= i < |lines| ==> !(ClassifyLine(lines[i]).Assign? && ClassifyLine(lines[i]).key == k))
      ==> (k in LoadLines(lines, env).env <==> k in env) && (k in env ==> LoadLines(lines, env).env[k] == env[k])
  {
    var cs := ClassifyAll(lines);
    FoldRaisesIffRaisingLine(cs, env);
    if Fold(cs, env).Loaded? && forall i :: 0 <= i < |cs| ==> !(cs[i].Assign? && cs[i].key == k) {
      FoldKeepsUnassigned(cs, env, k);
    }
  }

  /** Lines that are all skipped leave the environment as it was. */
  lemma {:induction false} FoldOfIgnored(cs: seq<LineAction>, env: map<string, string>)
    requires forall i :: 0 <= i < |cs| ==> cs[i] == Ignore
    ensures Fold(cs, env) == Loaded(env)
  {
    if cs != [] {
      assert forall i :: 0 <= i < |cs[1..]| ==> cs[1..][i] == cs[i + 1];
      FoldOfIgnored(cs[1..], env);
    }
  }

  /** A file of skipped lines leaves the environment as it was. */
  lemma SkippedLinesChangeNothing(lines: seq<string>, env: map<string, string>)
    requires forall i :: 0 <= i < |lines| ==> ClassifyLine(lines[i]) == Ignore
    ensures LoadLines(lines, env) == Loaded(env)
  {
    FoldOfIgnored(ClassifyAll(lines), env);
  }

  /** A line of white space only is skipped. */
  lemma {:induction false} BlankLineIgnored(line: string)
    requires forall i :: 0 <= i < |line| ==> IsSpace(line[i])
    ensures ClassifyLine(line) == Ignore
  {
    if line != [] {
      BlankLineIgnored(line[1..]);
      assert line == [line[0]] + line[1..];
      StripPrependSpace(line[0], line[1..]);
    }
  }

  /** A comment line is skipped, even when it holds `=`. */
  lemma CommentIgnored(core: string)
    requires core != [] && core[0] == '#' && !IsSpace(core[|core| - 1])
    ensures ClassifyLine(core + "\n") == Ignore
  {
    StripLineEnd(core);
  }

  /** A line without `=` is skipped. */
  lemma TextWithoutEqualsIgnored(core: string)
    requires core != [] && !IsSpace(core[0]) && !IsSpace(core[|core| - 1]) && '=' !in core
    ensures ClassifyLine(core + "\n") == Ignore
  {
    StripLineEnd(core);
  }

  /** A stripped line starting with `=` has the empty key, which the environment refuses (unless a NUL is refused first). */
  lemma EmptyKeyRaises(t: string)
    requires t != [] && t[0] == '=' && '\0' !in t
    ensures ClassifyStripped(t) == Raise(InvalidName)
  {
    SplitOnceIn(t, '=', 0);
    assert '\0' !in t[1..];
  }
}
