/**
 * Configuration parsing: `parse_alerts`, which turns `SYM:val,SYM:val` into a
 * map from symbol to threshold, and the start-up test that the required environment
 * variables are set.
 */
module Settings {
  import opened Wrappers
  import opened Text
  import opened PyFloat

  /** Why `parse_alerts` raises. */
  datatype AlertError =
    | UnpackError(part: string)   // `symbol, value = p.split(":")` with more than one ':'
    | ValueError(text: string)    // `float(value)` on text that is not a number

  /** What one comma-separated part contributes. */
  datatype Part = Skip | Pair(symbol: string, value: real) | Bad(error: AlertError)

  /** The loop body of `parse_alerts` for the part `p`. */
  function ClassifyPart(p: string): (r: Part)
    ensures r == Skip <==> ':' !in p
  {
    if ':' !in p then Skip
    else
      var pieces := Split(p, ':');
      if |pieces| != 2 then Bad(UnpackError(p))
      else
        match ParseFloat(pieces[1])
        case None => Bad(ValueError(pieces[1]))
        case Some(v) => Pair(pieces[0], v)
  }

  /**
   * A part with one ':' maps the untrimmed text before it to `float` of the text
   * after it; a second ':' fails the unpack, and a value that is not a number fails `float`.
   */
  lemma ClassifyPartMeaning(p: string)
    requires ':' in p
    ensures var t := SplitOnce(p, ':'); var r := ClassifyPart(p);
      && (':' in t.1 <==> r == Bad(UnpackError(p)))
      && (':' !in t.1 && ParseFloat(t.1).None? <==> r == Bad(ValueError(t.1)))
      && (':' !in t.1 && ParseFloat(t.1).Some? <==> r.Pair?)
      && (r.Pair? ==> r.symbol == t.0 && ParseFloat(t.1) == Some(r.value))
  {
    var t := SplitOnce(p, ':');
    var pieces := Split(p, ':');
    SplitInTwo(p, ':');
    assert |pieces| == 2 ==> pieces[1] == t.1 && pieces[0] == t.0;
  }

  /** Each part of the comma split, classified. */
  function ClassifyAll(parts: seq<string>): seq<Part> {
    MapSeq(ClassifyPart, parts)
  }

  /** The loop of `parse_alerts` over classified parts, continuing from the map `acc`; the first bad part raises. */
  function Fold(cs: seq<Part>, acc: map<string, real>): Result<map<string, real>, AlertError> {
    if cs == [] then Success(acc)
    else
      match cs[0]
      case Skip => Fold(cs[1..], acc)
      case Pair(k, v) => Fold(cs[1..], acc[k := v])
      case Bad(e) => Failure(e)
  }

  /** What `parse_alerts(raw)` returns or raises. */
  function Alerts(raw: string): Result<map<string, real>, AlertError> {
    if raw == [] then Success(map[]) else Fold(ClassifyAll(Split(raw, ',')), map[])
  }

  /** `parse_alerts`. */
  method ParseAlerts(raw: string) returns (r: Result<map<string, real>, AlertError>)
    ensures r == Alerts(raw)
    ensures raw == [] ==> r == Success(map[])
  {
    if raw == [] {
      return Success(map[]);
    }
    var parts := Split(raw, ',');
    var result: map<string, real> := map[];
    var i := 0;
    while i < |parts|
      invariant 0 <= i <= |parts|
      invariant Alerts(raw) == Fold(ClassifyAll(parts[i..]), result)
    {
      var c := ClassifyPart(parts[i]);
      assert parts[i..][0] == parts[i] && parts[i..][1..] == parts[i + 1..];
      match c {
        case Skip =>
        case Pair(symbol, value) =>
          result := result[symbol := value];
        case Bad(e) =>
          return Failure(e);
      }
      i := i + 1;
    }
    assert parts[i..] == [];
    return Success(result);
  }

  /** The map the loop carries past the first part. */
  function Step(c: Part, acc: map<string, real>): map<string, real> {
    if c.Pair? then acc[c.symbol := c.value] else acc
  }

  /** `parse_alerts` raises exactly when some part holds a ':' and is not `symbol:number`. */
  lemma {:induction false} FoldFailsIffBadPart(cs: seq<Part>, acc: map<string, real>)
    ensures Fold(cs, acc).Failure? <==> exists i :: 0 <= i < |cs| && cs[i].Bad?
  {
    if cs != [] {
      FoldFailsIffBadPart(cs[1..], Step(cs[0], acc));
      assert forall i :: 0 <= i < |cs[1..]| ==> cs[1..][i] == cs[i + 1];
      if exists i :: 0 <= i < |cs| && cs[i].Bad? {
        var i :| 0 <= i < |cs| && cs[i].Bad?;
        if i > 0 {
          assert cs[1..][i - 1].Bad?;
        }
      }
    }
  }

  /** Every symbol in the result was in the starting map or is the text before ':' of some part. */
  lemma {:induction false} FoldKeysFromParts(cs: seq<Part>, acc: map<string, real>, k: string)
    requires Fold(cs, acc).Success? && k in Fold(cs, acc).value
    ensures k in acc || exists i :: 0 <= i < |cs| && cs[i].Pair? && cs[i].symbol == k
  {
    if cs != [] {
      FoldKeysFromParts(cs[1..], Step(cs[0], acc), k);
      if exists i :: 0 <= i < |cs[1..]| && cs[1..][i].Pair? && cs[1..][i].symbol == k {
        var i :| 0 <= i < |cs[1..]| && cs[1..][i].Pair? && cs[1..][i].symbol == k;
        assert cs[i + 1] == cs[1..][i];
      }
    }
  }

  /** A symbol no part mentions keeps its value from the starting map. */
  lemma {:induction false} FoldKeepsUnmentioned(cs: seq<Part>, acc: map<string, real>, k: string)
    requires Fold(cs, acc).Success? && k in acc
    requires forall i :: 0 <= i < |cs| ==> !(cs[i].Pair? && cs[i].symbol == k)
    ensures k in Fold(cs, acc).value && Fold(cs, acc).value[k] == acc[k]
  {
    if cs != [] {
      assert forall i :: 0 <= i < |cs[1..]| ==> cs[1..][i] == cs[i + 1];
      FoldKeepsUnmentioned(cs[1..], Step(cs[0], acc), k);
    }
  }

  /** A repeated symbol takes the value of its last occurrence. */
  lemma {:induction false} FoldLastOccurrenceWins(cs: seq<Part>, acc: map<string, real>, j: nat)
    requires j < |cs| && cs[j].Pair?
    requires Fold(cs, acc).Success?
    requires forall i :: j < i < |cs| ==> !(cs[i].Pair? && cs[i].symbol == cs[j].symbol)
    ensures cs[j].symbol in Fold(cs, acc).value && Fold(cs, acc).value[cs[j].symbol] == cs[j].value
  {
    assert forall i :: 0 <= i < |cs[1..]| ==> cs[1..][i] == cs[i + 1];
    if j == 0 {
      FoldKeepsUnmentioned(cs[1..], Step(cs[0], acc), cs[0].symbol);
    } else {
      FoldLastOccurrenceWins(cs[1..], Step(cs[0], acc), j - 1);
    }
  }

  /** A part `symbol:digits`, with no ':' in the symbol, maps the symbol to the number. */
  lemma ClassifyNumberPart(symbol: string, n: nat)
    requires ':' !in symbol
    ensures ClassifyPart(symbol + ":" + NatToDigits(n)) == Pair(symbol, n as real)
  {
    var ds := NatToDigits(n);
    var p := symbol + ":" + ds;
    assert p[|symbol|] == ':' && p[..|symbol|] == symbol && p[|symbol| + 1..] == ds;
    SplitOnceIn(p, ':', |symbol|);
    assert ':' !in ds by {
      assert forall i :: 0 <= i < |ds| ==> IsDigit(ds[i]);
    }
    ParseFloatOfNat(n);
    ClassifyPartMeaning(p);
  }

  /** A number part holds no comma when its symbol holds none. */
  lemma NumberPartNoComma(symbol: string, n: nat)
    requires ',' !in symbol
    ensures ',' !in symbol + ":" + NatToDigits(n)
  {
    var ds := NatToDigits(n);
    var first := symbol + ":" + ds;
    assert forall i :: 0 <= i < |ds| ==> IsDigit(ds[i]);
    assert forall i :: 0 <= i < |first| ==> first[i] == if i < |symbol| then symbol[i] else if i == |symbol| then ':' else ds[i - |symbol| - 1];
  }

  /** `symbol:digits,other`: the number part is kept and the part without ':' is skipped. */
  lemma AlertsSkipsPartWithoutColon(symbol: string, n: nat, other: string)
    requires ':' !in symbol && ',' !in symbol && ':' !in other && ',' !in other
    ensures Alerts(symbol + ":" + NatToDigits(n) + "," + other) == Success(map[symbol := n as real])
  {
    var first := symbol + ":" + NatToDigits(n);
    var raw := first + "," + other;
    assert symbol + ":" + NatToDigits(n) + "," + other == raw;
    NumberPartNoComma(symbol, n);
    var cs := [Pair(symbol, n as real), Skip];
    calc {
      Alerts(raw);
      Fold(ClassifyAll(Split(raw, ',')), map[]);
      { SplitPair(first, ',', other); }
      Fold(ClassifyAll([first, other]), map[]);
      { ClassifyNumberPart(symbol, n);
        var xs := [first, other];
        assert xs[0] == first && xs[1] == other;
        assert ClassifyAll(xs) == MapSeq(ClassifyPart, xs);
        assert |MapSeq(ClassifyPart, xs)| == 2;
        assert MapSeq(ClassifyPart, xs)[0] == cs[0] && MapSeq(ClassifyPart, xs)[1] == cs[1];
        assert ClassifyAll(xs) == cs; }
      Fold(cs, map[]);
      { assert cs[1..] == [Skip]; }
      Fold([Skip], map[symbol := n as real]);
      { assert [Skip][1..] == []; }
      Success(map[symbol := n as real]);
    }
  }

  // ------------------------------------------------------------ required variables

  /** The variables without which the settings module refuses to load. */
  const RequiredVars: seq<string> := ["S3_BUCKET", "TELEGRAM_BOT_TOKEN", "TELEGRAM_CHAT_ID"]

  /** `not os.environ.get(var)`: the variable is unset or set to the empty string. */
  predicate Unset(env: map<string, string>, name: string) {
    name !in env || env[name] == []
  }

  /** `[var for var in required if not env.get(var)]`. */
  function Missing(required: seq<string>, env: map<string, string>): (r: seq<string>)
    ensures |r| <= |required|
    ensures forall v :: v in r <==> v in required && Unset(env, v)
  {
    if required == [] then []
    else (if Unset(env, required[0]) then [required[0]] else []) + Missing(required[1..], env)
  }

  /** The filter keeps the order of the required list: it distributes over concatenation. */
  lemma {:induction false} MissingAppend(a: seq<string>, b: seq<string>, env: map<string, string>)
    ensures Missing(a + b, env) == Missing(a, env) + Missing(b, env)
  {
    if a == [] {
      assert a + b == b;
    } else {
      assert (a + b)[1..] == a[1..] + b;
      MissingAppend(a[1..], b, env);
    }
  }

  /** Loading the settings raises `EnvironmentError` with the missing names, or goes on. */
  function CheckRequired(env: map<string, string>): (r: Result<(), seq<string>>)
    ensures r.Success? <==> !Unset(env, RequiredVars[0]) && !Unset(env, RequiredVars[1]) && !Unset(env, RequiredVars[2])
    ensures r.Failure? ==> r.error != [] && forall v :: v in r.error ==> v in RequiredVars && Unset(env, v)
  {
    var missing := Missing(RequiredVars, env);
    assert missing == [] ==> forall k :: 0 <= k < 3 ==> RequiredVars[k] !in missing;
    if missing != [] then
      assert missing[0] in missing;
      Failure(missing)
    else Success(())
  }

  /** With the bot token set but neither the bucket nor the chat id, those two are reported, in that order. */
  lemma CheckRequiredReportsInOrder(env: map<string, string>)
    requires Unset(env, "S3_BUCKET") && !Unset(env, "TELEGRAM_BOT_TOKEN") && Unset(env, "TELEGRAM_CHAT_ID")
    ensures CheckRequired(env) == Failure(["S3_BUCKET", "TELEGRAM_CHAT_ID"])
  {
    var a, b, c := "S3_BUCKET", "TELEGRAM_BOT_TOKEN", "TELEGRAM_CHAT_ID";
    assert RequiredVars == [a] + [b] + [c];
    MissingAppend([a] + [b], [c], env);
    MissingAppend([a], [b], env);
    assert Missing([a], env) == [a];
    assert Missing([b], env) == [];
    assert Missing([c], env) == [c];
    assert Missing(RequiredVars, env) == [a, c];
  }
}
