/**
 * One run of the monitor (`lambda_handler`): for each configured symbol, fetch
 * the price (a failure sends a warning and moves on), read the last stored
 * price, append the new price to the history, then apply up to three alert
 * strategies: the percentage variation against the last price, the z-score
 * against the recent moving average, and the all-time records.
 *
 * Every call into storage, the price feed and the messenger is a port. A port
 * call is recorded as an `Event` in the monitor's log, and what it answers is
 * an arbitrary function of everything recorded before it, so nothing is
 * assumed about how storage keeps or prunes what it is given.
 */
module PriceMonitor {
  import opened Wrappers
  import opened Statistics

  datatype Direction = Up | Down   // "subiu"/"caiu" for a variation, "acima"/"abaixo" for an anomaly

  /** What a message says, without its text. */
  datatype Message =
    | FetchFailed(symbol: string)
    | VariationAlert(symbol: string, direction: Direction, variation: real, lastPrice: real, price: real)
    | AnomalyAlert(symbol: string, direction: Direction, zScore: real, price: real, mean: real, stdDev: real)
    | NewHighAlert(symbol: string, price: real, previousHigh: real)
    | NewLowAlert(symbol: string, price: real, previousLow: real)

  /** One port call. */
  datatype Event =
    | PriceRequested(symbol: string)                          // get_price
    | LastPriceRead(symbol: string)                           // get_last_price
    | PriceAppended(symbol: string, price: real, ts: real)    // save_price_to_history
    | HistoryRead(symbol: string)                             // get_price_history
    | StatsRead(symbol: string)                               // get_stats
    | StatsSaved(symbol: string, stats: Records)              // save_stats
    | Sent(message: Message)                                  // send_message

  /**
   * The answers of the ports, each a function of the log of earlier calls:
   * the price (`None` where `get_price` raises), the last stored price (`None`
   * where nothing, or an empty record, is stored), the stored history, the
   * stored records, and whether a message is delivered (`false` where
   * `send_message` raises).
   */
  datatype Ports = Ports(
    price: (seq<Event>, string) -> Option<real>,
    lastPrice: (seq<Event>, string) -> Option<real>,
    history: (seq<Event>, string) -> seq<Entry>,
    stats: (seq<Event>, string) -> Records,
    delivers: (seq<Event>, Message) -> bool)

  /** The settings the handler reads. */
  datatype Config = Config(
    symbols: seq<string>,
    variationLimits: map<string, real>,
    strategy: string,
    movingAverageHours: int,
    stddevThreshold: real)

  /** Why a run stops early: an exception that leaves the handler. */
  datatype Stop = DivisionByZero(symbol: string) | DeliveryFailed(message: Message)

  datatype Outcome = Continue | Stopped(reason: Stop)

  /** The calls a step makes, in order, and whether the run goes on. */
  datatype Run = Run(events: seq<Event>, outcome: Outcome)

  /** What `lambda_handler` returns (`{"status": "ok"}`) or raises. */
  datatype Status = StatusOk | Raised(reason: Stop)

  predicate RunsMovingAverage(strategy: string) {
    strategy == "moving_average" || strategy == "both"
  }

  predicate RunsRecords(strategy: string) {
    strategy == "records" || strategy == "both"
  }

  /** The minimum number of samples, in the whole history and in the window, for the moving-average check. */
  const MinSamples: nat := 10

  /** The change from `last` to `price`, in percent. */
  function PercentChange(price: real, last: real): (v: real)
    requires last != 0.0
    ensures v * last == (price - last) * 100.0
  {
    ((price - last) / last) * 100.0
  }

  function DirectionOf(x: real): Direction {
    if x > 0.0 then Up else Down
  }

  /** Sending one message: the call is made; a delivery error ends the run. */
  function SendStep(p: Ports, log: seq<Event>, m: Message): (r: Run)
    ensures r.events == [Sent(m)]
    ensures r.outcome.Continue? <==> p.delivers(log, m)
    ensures r.outcome.Stopped? ==> r.outcome.reason == DeliveryFailed(m)
  {
    Run([Sent(m)], if p.delivers(log, m) then Continue else Stopped(DeliveryFailed(m)))
  }

  /** The variation check, given the last stored price. */
  function VariationStage(c: Config, p: Ports, log: seq<Event>, symbol: string, price: real, last: Option<real>): Run {
    if symbol in c.variationLimits && last.Some? then
      if last.value == 0.0 then Run([], Stopped(DivisionByZero(symbol)))
      else
        var variation := PercentChange(price, last.value);
        if Abs(variation) >= c.variationLimits[symbol] then
          SendStep(p, log, VariationAlert(symbol, DirectionOf(variation), variation, last.value, price))
        else Run([], Continue)
    else Run([], Continue)
  }

  /** The statistics of the recent window and the anomaly test, when both the history and the window are large enough. */
  function AverageCheck(c: Config, sqrt: real -> real, history: seq<Entry>, price: real): Option<(PriceStats, Anomaly)>
    requires IsSqrt(sqrt)
  {
    if |history| < MinSamples then None
    else
      var recent := FilterRecentHistory(history, c.movingAverageHours);
      if |recent| < MinSamples then None
      else
        var stats := GetPriceStatistics(recent, sqrt);
        Some((stats, CheckAnomaly(price, stats.mean, stats.stdDev, c.stddevThreshold)))
  }

  /** The moving-average check. */
  function AverageStage(c: Config, p: Ports, sqrt: real -> real, log: seq<Event>, symbol: string, price: real): Run
    requires IsSqrt(sqrt)
  {
    if !RunsMovingAverage(c.strategy) then Run([], Continue)
    else
      var read := [HistoryRead(symbol)];
      var check := AverageCheck(c, sqrt, p.history(log, symbol), price);
      if check.Some? && check.value.1.isAnomaly then
        var (stats, anomaly) := check.value;
        var m := AnomalyAlert(symbol, DirectionOf(anomaly.zScore), anomaly.zScore, price, stats.mean, stats.stdDev);
        var s := SendStep(p, log + read, m);
        Run(read + s.events, s.outcome)
      else Run(read, Continue)
  }

  /** What the records check sends and saves, given the stored records. */
  function RecordsEffects(p: Ports, log: seq<Event>, symbol: string, price: real, rec: Records): Run {
    var out := RecordUpdate(rec, price);
    var high := if out.isNewHigh then SendStep(p, log, NewHighAlert(symbol, price, HighOf(rec))) else Run([], Continue);
    if high.outcome.Stopped? then high
    else
      var low := if out.isNewLow then SendStep(p, log + high.events, NewLowAlert(symbol, price, rec.low.value)) else Run([], Continue);
      if low.outcome.Stopped? then Run(high.events + low.events, low.outcome)
      else
        var save := if out.isNewHigh || out.isNewLow then [StatsSaved(symbol, out.stats)] else [];
        Run(high.events + low.events + save, Continue)
  }

  /** The records check. */
  function RecordsStage(c: Config, p: Ports, log: seq<Event>, symbol: string, price: real): Run {
    if !RunsRecords(c.strategy) then Run([], Continue)
    else
      var read := [StatsRead(symbol)];
      var e := RecordsEffects(p, log + read, symbol, price, p.stats(log, symbol));
      Run(read + e.events, e.outcome)
  }

  /** The three strategies, once the price is fetched, the last price read and the new price appended. */
  function Strategies(c: Config, p: Ports, sqrt: real -> real, log: seq<Event>, symbol: string, price: real, last: Option<real>): Run
    requires IsSqrt(sqrt)
  {
    var v := VariationStage(c, p, log, symbol, price, last);
    if v.outcome.Stopped? then v
    else
      var a := AverageStage(c, p, sqrt, log + v.events, symbol, price);
      if a.outcome.Stopped? then Run(v.events + a.events, a.outcome)
      else
        var rs := RecordsStage(c, p, log + v.events + a.events, symbol, price);
        Run(v.events + a.events + rs.events, rs.outcome)
  }

  /** The body of the loop for one symbol, from the log `log`. */
  function SymbolRun(c: Config, p: Ports, sqrt: real -> real, log: seq<Event>, symbol: string, ts: real): Run
    requires IsSqrt(sqrt)
  {
    var asked := [PriceRequested(symbol)];
    match p.price(log, symbol)
    case None =>
      var s := SendStep(p, log + asked, FetchFailed(symbol));
      Run(asked + s.events, s.outcome)
    case Some(price) =>
      var last := p.lastPrice(log + asked, symbol);
      var stored := asked + [LastPriceRead(symbol), PriceAppended(symbol, price, ts)];
      var st := Strategies(c, p, sqrt, log + stored, symbol, price, last);
      Run(stored + st.events, st.outcome)
  }

  /** The loop over `symbols`, from the log `log`; an exception ends it. */
  function HandlerRun(c: Config, p: Ports, sqrt: real -> real, log: seq<Event>, symbols: seq<string>, ts: real): (r: Run)
    requires IsSqrt(sqrt)
    decreases |symbols|
  {
    if symbols == [] then Run([], Continue)
    else
      var prev := HandlerRun(c, p, sqrt, log, symbols[..|symbols| - 1], ts);
      if prev.outcome.Stopped? then prev
      else
        var s := SymbolRun(c, p, sqrt, log + prev.events, symbols[|symbols| - 1], ts);
        Run(prev.events + s.events, s.outcome)
  }

  /** The monitor: its settings, its ports and the log of the port calls made so far. */
  class Monitor {
    const config: Config
    const ports: Ports
    var log: seq<Event>

    constructor(config: Config, ports: Ports)
      ensures this.config == config && this.ports == ports && log == []
    {
      this.config := config;
      this.ports := ports;
      log := [];
    }

    method FetchPrice(symbol: string) returns (price: Option<real>)
      modifies this
      ensures log == old(log) + [PriceRequested(symbol)]
      ensures price == ports.price(old(log), symbol)
    {
      price := ports.price(log, symbol);
      log := log + [PriceRequested(symbol)];
    }

    method GetLastPrice(symbol: string) returns (last: Option<real>)
      modifies this
      ensures log == old(log) + [LastPriceRead(symbol)]
      ensures last == ports.lastPrice(old(log), symbol)
    {
      last := ports.lastPrice(log, symbol);
      log := log + [LastPriceRead(symbol)];
    }

    method SavePriceToHistory(symbol: string, price: real, ts: real)
      modifies this
      ensures log == old(log) + [PriceAppended(symbol, price, ts)]
    {
      log := log + [PriceAppended(symbol, price, ts)];
    }

    method GetPriceHistory(symbol: string) returns (history: seq<Entry>)
      modifies this
      ensures log == old(log) + [HistoryRead(symbol)]
      ensures history == ports.history(old(log), symbol)
    {
      history := ports.history(log, symbol);
      log := log + [HistoryRead(symbol)];
    }

    method GetStats(symbol: string) returns (stats: Records)
      modifies this
      ensures log == old(log) + [StatsRead(symbol)]
      ensures stats == ports.stats(old(log), symbol)
    {
      stats := ports.stats(log, symbol);
      log := log + [StatsRead(symbol)];
    }

    method SaveStats(symbol: string, stats: Records)
      modifies this
      ensures log == old(log) + [StatsSaved(symbol, stats)]
    {
      log := log + [StatsSaved(symbol, stats)];
    }

    /** `send_message`: `false` where it raises. */
    method SendMessage(m: Message) returns (delivered: bool)
      modifies this
      ensures log == old(log) + [Sent(m)]
      ensures delivered == ports.delivers(old(log), m)
    {
      delivered := ports.delivers(log, m);
      log := log + [Sent(m)];
    }

    /** Strategy 1: the variation against the last stored price. */
    method CheckVariation(symbol: string, price: real, last: Option<real>) returns (outcome: Outcome)
      modifies this
      ensures var r := VariationStage(config, ports, old(log), symbol, price, last);
        log == old(log) + r.events && outcome == r.outcome
    {
      outcome := Continue;
      if symbol in config.variationLimits && last.Some? {
        var threshold := config.variationLimits[symbol];
        var lastPrice := last.value;
        if lastPrice == 0.0 {
          return Stopped(DivisionByZero(symbol));
        }
        var variation := ((price - lastPrice) / lastPrice) * 100.0;
        if Abs(variation) >= threshold {
          var direction := if variation > 0.0 then Up else Down;
          var m := VariationAlert(symbol, direction, variation, lastPrice, price);
          var delivered := SendMessage(m);
          if !delivered {
            return Stopped(DeliveryFailed(m));
          }
        }
      }
    }

    /** Strategy 2: the z-score of the price against the recent window. */
    method CheckMovingAverage(symbol: string, price: real, sqrt: real -> real) returns (outcome: Outcome)
      requires IsSqrt(sqrt)
      modifies this
      ensures var r := AverageStage(config, ports, sqrt, old(log), symbol, price);
        log == old(log) + r.events && outcome == r.outcome
    {
      outcome := Continue;
      if RunsMovingAverage(config.strategy) {
        var history := GetPriceHistory(symbol);
        if |history| >= MinSamples {
          var recent := FilterRecentHistory(history, config.movingAverageHours);
          if |recent| >= MinSamples {
            var stats := GetPriceStatistics(recent, sqrt);
            var anomaly := CheckAnomaly(price, stats.mean, stats.stdDev, config.stddevThreshold);
            assert AverageCheck(config, sqrt, history, price) == Some((stats, anomaly));
            if anomaly.isAnomaly {
              var direction := if anomaly.zScore > 0.0 then Up else Down;
              var m := AnomalyAlert(symbol, direction, anomaly.zScore, price, stats.mean, stats.stdDev);
              var delivered := SendMessage(m);
              if !delivered {
                return Stopped(DeliveryFailed(m));
              }
            }
          }
        }
      }
    }

    /** Strategy 3: the all-time high and low, saved only when one of them moved. */
    method CheckRecords(symbol: string, price: real) returns (outcome: Outcome)
      modifies this
      ensures var r := RecordsStage(config, ports, old(log), symbol, price);
        log == old(log) + r.events && outcome == r.outcome
    {
      outcome := Continue;
      if RunsRecords(config.strategy) {
        var statsData := GetStats(symbol);
        ghost var log1 := log;
        var previousHigh := HighOf(statsData);
        var previousLow := statsData.low;
        var stats := new RecordStats(statsData);
        var updated, isNewHigh, isNewLow := UpdateRecords(stats, price);
        ghost var out := RecordUpdate(statsData, price);
        assert out == RecordOutcome(updated.View(), isNewHigh, isNewLow);
        ghost var high := if isNewHigh then SendStep(ports, log1, NewHighAlert(symbol, price, previousHigh)) else Run([], Continue);
        if isNewHigh {
          var m := NewHighAlert(symbol, price, previousHigh);
          var delivered := SendMessage(m);
          if !delivered {
            return Stopped(DeliveryFailed(m));
          }
        }
        assert log == log1 + high.events && high.outcome.Continue?;
        ghost var low := if isNewLow then SendStep(ports, log, NewLowAlert(symbol, price, previousLow.value)) else Run([], Continue);
        if isNewLow {
          var m := NewLowAlert(symbol, price, previousLow.value);
          var delivered := SendMessage(m);
          if !delivered {
            assert low.outcome.Stopped?;
            return Stopped(DeliveryFailed(m));
          }
        }
        assert log == log1 + high.events + low.events && low.outcome.Continue?;
        if isNewHigh || isNewLow {
          SaveStats(symbol, updated.View());
        }
      }
    }

    /** The three strategies, in order; an exception in one skips the rest. */
    method RunStrategies(symbol: string, price: real, last: Option<real>, sqrt: real -> real) returns (outcome: Outcome)
      requires IsSqrt(sqrt)
      modifies this
      ensures var r := Strategies(config, ports, sqrt, old(log), symbol, price, last);
        log == old(log) + r.events && outcome == r.outcome
    {
      ghost var log0 := log;
      StrategiesSteps(config, ports, sqrt, log0, symbol, price, last);
      outcome := CheckVariation(symbol, price, last);
      if outcome.Stopped? {
        return;
      }
      ghost var v := VariationStage(config, ports, log0, symbol, price, last);
      outcome := CheckMovingAverage(symbol, price, sqrt);
      ghost var a := AverageStage(config, ports, sqrt, log0 + v.events, symbol, price);
      Associative(log0, v.events, a.events);
      if outcome.Stopped? {
        return;
      }
      ghost var rs := RecordsStage(config, ports, log0 + v.events + a.events, symbol, price);
      Associative(log0 + v.events, a.events, rs.events);
      Associative(log0, v.events + a.events, rs.events);
      Associative(log0, v.events, a.events);
      outcome := CheckRecords(symbol, price);
    }

    /** The loop body for one symbol. */
    method ProcessSymbol(symbol: string, ts: real, sqrt: real -> real) returns (outcome: Outcome)
      requires IsSqrt(sqrt)
      modifies this
      ensures var r := SymbolRun(config, ports, sqrt, old(log), symbol, ts);
        log == old(log) + r.events && outcome == r.outcome
    {
      ghost var log0 := log;
      var price := FetchPrice(symbol);
      if price.None? {
        var delivered := SendMessage(FetchFailed(symbol));
        SymbolRunFetchFailed(config, ports, sqrt, log0, symbol, ts);
        Associative(log0, [PriceRequested(symbol)], [Sent(FetchFailed(symbol))]);
        return if delivered then Continue else Stopped(DeliveryFailed(FetchFailed(symbol)));
      }
      var lastData := GetLastPrice(symbol);
      SavePriceToHistory(symbol, price.value, ts);
      SymbolRunFetched(config, ports, sqrt, log0, symbol, ts);
      ghost var stored := [PriceRequested(symbol), LastPriceRead(symbol), PriceAppended(symbol, price.value, ts)];
      assert log == log0 + stored;
      assert price == ports.price(log0, symbol);
      assert lastData == ports.lastPrice(log0 + [PriceRequested(symbol)], symbol);
      ghost var st := Strategies(config, ports, sqrt, log0 + stored, symbol, price.value, lastData);
      assert SymbolRun(config, ports, sqrt, log0, symbol, ts) == Run(stored + st.events, st.outcome);
      outcome := RunStrategies(symbol, price.value, lastData, sqrt);
      Associative(log0, stored, st.events);
    }

    /** `lambda_handler`, with the clock reading `ts` passed in. */
    method LambdaHandler(ts: real, sqrt: real -> real) returns (status: Status)
      requires IsSqrt(sqrt)
      modifies this
      ensures var r := HandlerRun(config, ports, sqrt, old(log), config.symbols, ts);
        && log == old(log) + r.events
        && (status == StatusOk <==> r.outcome.Continue?)
        && (r.outcome.Stopped? ==> status == Raised(r.outcome.reason))
    {
      var symbols := config.symbols;
      var i := 0;
      while i < |symbols|
        invariant 0 <= i <= |symbols|
        invariant var r := HandlerRun(config, ports, sqrt, old(log), symbols[..i], ts);
          log == old(log) + r.events && r.outcome.Continue?
      {
        ghost var prev := HandlerRun(config, ports, sqrt, old(log), symbols[..i], ts);
        ghost var s := SymbolRun(config, ports, sqrt, old(log) + prev.events, symbols[i], ts);
        var outcome := ProcessSymbol(symbols[i], ts, sqrt);
        HandlerRunStep(config, ports, sqrt, old(log), symbols, ts, i);
        Associative(old(log), prev.events, s.events);
        if outcome.Stopped? {
          StoppedRunStaysStopped(config, ports, sqrt, old(log), symbols, ts, i + 1);
          return Raised(outcome.reason);
        }
        i := i + 1;
      }
      assert symbols[..i] == symbols;
      return StatusOk;
    }
  }

  lemma Associative(a: seq<Event>, b: seq<Event>, c: seq<Event>)
    ensures a + b + c == a + (b + c)
  {
  }

  /** `Strategies` in terms of its three stages. */
  lemma StrategiesSteps(c: Config, p: Ports, sqrt: real -> real, log: seq<Event>, symbol: string, price: real, last: Option<real>)
    requires IsSqrt(sqrt)
    ensures var v := VariationStage(c, p, log, symbol, price, last);
      var a := AverageStage(c, p, sqrt, log + v.events, symbol, price);
      var rs := RecordsStage(c, p, log + v.events + a.events, symbol, price);
      Strategies(c, p, sqrt, log, symbol, price, last)
        == if v.outcome.Stopped? then v
           else if a.outcome.Stopped? then Run(v.events + a.events, a.outcome)
           else Run(v.events + a.events + rs.events, rs.outcome)
  {
  }

  /** `SymbolRun` when the price cannot be fetched. */
  lemma SymbolRunFetchFailed(c: Config, p: Ports, sqrt: real -> real, log: seq<Event>, symbol: string, ts: real)
    requires IsSqrt(sqrt)
    requires p.price(log, symbol).None?
    ensures var s := SendStep(p, log + [PriceRequested(symbol)], FetchFailed(symbol));
      SymbolRun(c, p, sqrt, log, symbol, ts) == Run([PriceRequested(symbol)] + s.events, s.outcome)
  {
  }

  /** `SymbolRun` when the price is fetched. */
  lemma SymbolRunFetched(c: Config, p: Ports, sqrt: real -> real, log: seq<Event>, symbol: string, ts: real)
    requires IsSqrt(sqrt)
    requires p.price(log, symbol).Some?
    ensures var price := p.price(log, symbol).value;
      var last := p.lastPrice(log + [PriceRequested(symbol)], symbol);
      var stored := [PriceRequested(symbol), LastPriceRead(symbol), PriceAppended(symbol, price, ts)];
      var st := Strategies(c, p, sqrt, log + stored, symbol, price, last);
      SymbolRun(c, p, sqrt, log, symbol, ts) == Run(stored + st.events, st.outcome)
  {
    assert [PriceRequested(symbol)] + [LastPriceRead(symbol), PriceAppended(symbol, p.price(log, symbol).value, ts)]
      == [PriceRequested(symbol), LastPriceRead(symbol), PriceAppended(symbol, p.price(log, symbol).value, ts)];
  }

  /** One more symbol: its run follows the runs of the symbols before it. */
  lemma HandlerRunStep(c: Config, p: Ports, sqrt: real -> real, log: seq<Event>, symbols: seq<string>, ts: real, i: nat)
    requires IsSqrt(sqrt)
    requires i < |symbols|
    requires HandlerRun(c, p, sqrt, log, symbols[..i], ts).outcome.Continue?
    ensures var prev := HandlerRun(c, p, sqrt, log, symbols[..i], ts);
      var s := SymbolRun(c, p, sqrt, log + prev.events, symbols[i], ts);
      HandlerRun(c, p, sqrt, log, symbols[..i + 1], ts) == Run(prev.events + s.events, s.outcome)
  {
    assert symbols[..i + 1][..i] == symbols[..i];
  }

  /** Once the loop stops at some symbol, the rest of the symbols change nothing. */
  lemma {:induction false} StoppedRunStaysStopped(c: Config, p: Ports, sqrt: real -> real, log: seq<Event>, symbols: seq<string>, ts: real, k: nat)
    requires IsSqrt(sqrt)
    requires k <= |symbols|
    requires HandlerRun(c, p, sqrt, log, symbols[..k], ts).outcome.Stopped?
    ensures HandlerRun(c, p, sqrt, log, symbols, ts) == HandlerRun(c, p, sqrt, log, symbols[..k], ts)
    decreases |symbols| - k
  {
    if k < |symbols| {
      var next := symbols[..k + 1];
      assert next[..|next| - 1] == symbols[..k];
      StoppedRunStaysStopped(c, p, sqrt, log, symbols, ts, k + 1);
    } else {
      assert symbols[..k] == symbols;
    }
  }

  // ------------------------------------------------------------ properties of one symbol

  /** A symbol whose price cannot be fetched gets one warning and no strategy; the loop goes on unless the warning itself fails. */
  lemma FetchFailureWarnsOnce(c: Config, p: Ports, sqrt: real -> real, log: seq<Event>, symbol: string, ts: real)
    requires IsSqrt(sqrt)
    requires p.price(log, symbol).None?
    ensures var r := SymbolRun(c, p, sqrt, log, symbol, ts);
      && r.events == [PriceRequested(symbol), Sent(FetchFailed(symbol))]
      && (r.outcome.Continue? <==> p.delivers(log + [PriceRequested(symbol)], FetchFailed(symbol)))
  {
    SymbolRunFetchFailed(c, p, sqrt, log, symbol, ts);
  }

  /**
   * A fetched price is first followed by the read of the last price and then by
   * its append to the history: the last price the strategies compare with is
   * the one read before the append.
   */
  lemma LastPriceReadBeforeAppend(c: Config, p: Ports, sqrt: real -> real, log: seq<Event>, symbol: string, ts: real)
    requires IsSqrt(sqrt)
    requires p.price(log, symbol).Some?
    ensures var r := SymbolRun(c, p, sqrt, log, symbol, ts);
      var price := p.price(log, symbol).value;
      && |r.events| >= 3
      && r.events[..3] == [PriceRequested(symbol), LastPriceRead(symbol), PriceAppended(symbol, price, ts)]
      && r == (var st := Strategies(c, p, sqrt, log + r.events[..3], symbol, price, p.lastPrice(log + r.events[..1], symbol));
               Run(r.events[..3] + st.events, st.outcome))
  {
    SymbolRunFetched(c, p, sqrt, log, symbol, ts);
    var r := SymbolRun(c, p, sqrt, log, symbol, ts);
    var price := p.price(log, symbol).value;
    var stored := [PriceRequested(symbol), LastPriceRead(symbol), PriceAppended(symbol, price, ts)];
    var st := Strategies(c, p, sqrt, log + stored, symbol, price, p.lastPrice(log + [PriceRequested(symbol)], symbol));
    assert r.events == stored + st.events;
    assert r.events[..3] == stored;
    assert r.events[..1] == [PriceRequested(symbol)];
  }

  /** The variation alert is sent exactly when the symbol has a limit, a non-zero last price is stored, and the change reaches the limit. */
  lemma VariationAlertIff(c: Config, p: Ports, log: seq<Event>, symbol: string, price: real, last: Option<real>)
    ensures VariationStage(c, p, log, symbol, price, last).events != []
        <==> && symbol in c.variationLimits && last.Some? && last.value != 0.0
             && Abs(PercentChange(price, last.value)) >= c.variationLimits[symbol]
  {
  }

  /** The alert carries the change, the last and the new price; it says "up" exactly for a positive change, which for a positive last price is a rise. */
  lemma VariationAlertContent(c: Config, p: Ports, log: seq<Event>, symbol: string, price: real, lastPrice: real)
    requires symbol in c.variationLimits && lastPrice != 0.0
    requires Abs(PercentChange(price, lastPrice)) >= c.variationLimits[symbol]
    ensures var r := VariationStage(c, p, log, symbol, price, Some(lastPrice));
      var v := PercentChange(price, lastPrice);
      && |r.events| == 1 && r.events[0].Sent? && r.events[0].message.VariationAlert?
      && var m := r.events[0].message;
         && m == VariationAlert(symbol, m.direction, v, lastPrice, price)
         && (m.direction == Up <==> v > 0.0)
         && (lastPrice > 0.0 ==> (m.direction == Up <==> price > lastPrice))
         && (r.outcome.Continue? <==> p.delivers(log, m))
  {
    var v := PercentChange(price, lastPrice);
    if lastPrice > 0.0 {
      SignOfChange(v, price, lastPrice);
    }
  }

  lemma SignOfChange(v: real, price: real, last: real)
    requires last > 0.0 && v * last == (price - last) * 100.0
    ensures v > 0.0 <==> price > last
  {
    if v > 0.0 {
      assert v * last > 0.0;
    } else {
      assert v * last <= 0.0;
    }
  }

  /** A stored last price of zero raises once the new price is already appended: the run stops there. */
  lemma ZeroLastPriceRaises(c: Config, p: Ports, sqrt: real -> real, log: seq<Event>, symbol: string, ts: real)
    requires IsSqrt(sqrt)
    requires symbol in c.variationLimits
    requires p.price(log, symbol).Some?
    requires p.lastPrice(log + [PriceRequested(symbol)], symbol) == Some(0.0)
    ensures SymbolRun(c, p, sqrt, log, symbol, ts)
         == Run([PriceRequested(symbol), LastPriceRead(symbol), PriceAppended(symbol, p.price(log, symbol).value, ts)],
                Stopped(DivisionByZero(symbol)))
  {
    var price := p.price(log, symbol).value;
    var stored := [PriceRequested(symbol), LastPriceRead(symbol), PriceAppended(symbol, price, ts)];
    SymbolRunFetched(c, p, sqrt, log, symbol, ts);
    StrategiesSteps(c, p, sqrt, log + stored, symbol, price, Some(0.0));
    assert stored + [] == stored;
  }

  /** The moving-average check reads the history exactly when the strategy asks for it. */
  lemma AverageReadsHistoryIff(c: Config, p: Ports, sqrt: real -> real, log: seq<Event>, symbol: string, price: real)
    requires IsSqrt(sqrt)
    ensures var r := AverageStage(c, p, sqrt, log, symbol, price);
      && (r.events != [] <==> RunsMovingAverage(c.strategy))
      && (r.events != [] ==> r.events[0] == HistoryRead(symbol))
  {
  }

  /**
   * Under the moving-average strategy, the anomaly alert is sent exactly when the
   * history and its recent window both hold ten entries or more and the price is
   * anomalous against the window; otherwise the history is read and nothing else happens.
   */
  lemma AnomalyAlertIff(c: Config, p: Ports, sqrt: real -> real, log: seq<Event>, symbol: string, price: real)
    requires IsSqrt(sqrt)
    requires RunsMovingAverage(c.strategy)
    ensures var r := AverageStage(c, p, sqrt, log, symbol, price);
      var history := p.history(log, symbol);
      var recent := FilterRecentHistory(history, c.movingAverageHours);
      var st := GetPriceStatistics(recent, sqrt);
      && (|r.events| == 2 <==> |history| >= MinSamples && |recent| >= MinSamples
                               && CheckAnomaly(price, st.mean, st.stdDev, c.stddevThreshold).isAnomaly)
      && (|r.events| != 2 ==> r == Run([HistoryRead(symbol)], Continue))
  {
  }

  /**
   * The anomaly alert carries the window's mean and deviation and the price; the
   * deviation is then positive and the price lies `threshold` deviations or more
   * from the mean, above it exactly when the alert says "up".
   */
  lemma AnomalyAlertContent(c: Config, p: Ports, sqrt: real -> real, log: seq<Event>, symbol: string, price: real)
    requires IsSqrt(sqrt)
    requires RunsMovingAverage(c.strategy)
    requires var history := p.history(log, symbol);
      var recent := FilterRecentHistory(history, c.movingAverageHours);
      var st := GetPriceStatistics(recent, sqrt);
      |history| >= MinSamples && |recent| >= MinSamples && CheckAnomaly(price, st.mean, st.stdDev, c.stddevThreshold).isAnomaly
    ensures var r := AverageStage(c, p, sqrt, log, symbol, price);
      var st := GetPriceStatistics(FilterRecentHistory(p.history(log, symbol), c.movingAverageHours), sqrt);
      && |r.events| == 2 && r.events[0] == HistoryRead(symbol) && r.events[1].Sent? && r.events[1].message.AnomalyAlert?
      && var m := r.events[1].message;
         && m.symbol == symbol && m.mean == st.mean && m.stdDev == st.stdDev && m.price == price
         && st.stdDev > 0.0
         && Abs(price - st.mean) >= c.stddevThreshold * st.stdDev
         && (m.direction == Up <==> price > st.mean)
         && (r.outcome.Continue? <==> p.delivers(log + [HistoryRead(symbol)], m))
  {
    var st := GetPriceStatistics(FilterRecentHistory(p.history(log, symbol), c.movingAverageHours), sqrt);
    var a := CheckAnomaly(price, st.mean, st.stdDev, c.stddevThreshold);
    AnomalousPrice(price, st.mean, st.stdDev, c.stddevThreshold);
    var m := AnomalyAlert(symbol, DirectionOf(a.zScore), a.zScore, price, st.mean, st.stdDev);
    assert AverageStage(c, p, sqrt, log, symbol, price)
        == Run([HistoryRead(symbol)] + SendStep(p, log + [HistoryRead(symbol)], m).events, SendStep(p, log + [HistoryRead(symbol)], m).outcome);
  }

  /** An anomalous price against a non-negative deviation: the deviation is positive, the price outside the band, and "up" means above the mean. */
  lemma AnomalousPrice(price: real, mean: real, std: real, threshold: real)
    requires std >= 0.0 && CheckAnomaly(price, mean, std, threshold).isAnomaly
    ensures std > 0.0
    ensures Abs(price - mean) >= threshold * std
    ensures DirectionOf(CheckAnomaly(price, mean, std, threshold).zScore) == Up <==> price > mean
  {
    AnomalyIsOutsideBand(price, mean, std, threshold);
    SignOfZ(CheckAnomaly(price, mean, std, threshold).zScore, price, mean, std);
  }

  lemma SignOfZ(z: real, price: real, mean: real, std: real)
    requires std > 0.0 && z * std == price - mean
    ensures z > 0.0 <==> price > mean
  {
    if z > 0.0 {
      assert z * std > 0.0;
    } else {
      assert z * std <= 0.0;
    }
  }

  /** The window is never longer than the history, so the check on the full history's length never decides anything. */
  lemma HistoryLengthCheckRedundant(c: Config, history: seq<Entry>, sqrt: real -> real, price: real)
    requires IsSqrt(sqrt)
    ensures var recent := FilterRecentHistory(history, c.movingAverageHours);
      |recent| >= MinSamples ==> |history| >= MinSamples
  {
  }

  /** A window of equal prices never raises an anomaly alert. */
  lemma FlatWindowNeverAlerts(c: Config, p: Ports, sqrt: real -> real, log: seq<Event>, symbol: string, price: real)
    requires IsSqrt(sqrt)
    requires Flat(Prices(FilterRecentHistory(p.history(log, symbol), c.movingAverageHours)))
    ensures var r := AverageStage(c, p, sqrt, log, symbol, price);
      r.outcome.Continue? && |r.events| <= 1
  {
    FlatHistoryNeverAnomalous(FilterRecentHistory(p.history(log, symbol), c.movingAverageHours), sqrt, price, c.stddevThreshold);
  }

  /** The records check reads the stored records exactly when the strategy asks for it. */
  lemma RecordsReadStatsIff(c: Config, p: Ports, log: seq<Event>, symbol: string, price: real)
    ensures var r := RecordsStage(c, p, log, symbol, price);
      && (r.events != [] <==> RunsRecords(c.strategy))
      && (r.events != [] ==> r.events[0] == StatsRead(symbol))
  {
  }

  /**
   * The records are saved, as updated, exactly when the price is a new high or a
   * new low and every alert before the save was delivered; nothing else is saved.
   */
  lemma RecordsSavedOnlyOnChange(p: Ports, log: seq<Event>, symbol: string, price: real, rec: Records)
    ensures var r := RecordsEffects(p, log, symbol, price, rec);
      var out := RecordUpdate(rec, price);
      && (forall i :: 0 <= i < |r.events| - 1 ==> !r.events[i].StatsSaved?)
      && ((r.events != [] && r.events[|r.events| - 1].StatsSaved?) <==> (out.isNewHigh || out.isNewLow) && r.outcome.Continue?)
      && (r.events != [] && r.events[|r.events| - 1].StatsSaved? ==> r.events[|r.events| - 1] == StatsSaved(symbol, out.stats))
      && (r.outcome.Continue? && !out.isNewHigh && !out.isNewLow ==> r.events == [])
  {
  }

  /**
   * A high alert reports the high stored before the update, which the price
   * exceeds; a low alert reports the stored low, which is a number the price is
   * under: the "N/A" text for a missing low is never produced.
   */
  lemma RecordAlertsReportPreviousValues(p: Ports, log: seq<Event>, symbol: string, price: real, rec: Records)
    ensures var r := RecordsEffects(p, log, symbol, price, rec);
      forall i :: 0 <= i < |r.events| && r.events[i].Sent? ==>
        var m := r.events[i].message;
        && (m.NewHighAlert? ==> m == NewHighAlert(symbol, price, HighOf(rec)) && price > HighOf(rec))
        && (m.NewLowAlert? ==> rec.low.Finite? && m == NewLowAlert(symbol, price, rec.low.value) && price < rec.low.value)
        && (m.NewHighAlert? || m.NewLowAlert?)
  {
  }

  /** The first positive price seen for a symbol is a new high over 0 but not a new low; both records are set to it. */
  lemma FirstObservation(p: Ports, log: seq<Event>, symbol: string, price: real)
    requires price > 0.0
    ensures var r := RecordsEffects(p, log, symbol, price, Records(None, Infinity));
      var m := NewHighAlert(symbol, price, 0.0);
      r.events == [Sent(m)] + (if p.delivers(log, m) then [StatsSaved(symbol, Records(Some(price), Finite(price)))] else [])
  {
  }

  // ------------------------------------------------------------ properties of the loop

  /** The symbols whose price is requested, in order. */
  function Requested(events: seq<Event>): (r: seq<string>)
    ensures |r| <= |events|
  {
    if events == [] then []
    else (if events[0].PriceRequested? then [events[0].symbol] else []) + Requested(events[1..])
  }

  lemma {:induction false} RequestedAppend(a: seq<Event>, b: seq<Event>)
    ensures Requested(a + b) == Requested(a) + Requested(b)
  {
    if a == [] {
      assert a + b == b;
    } else {
      var head := if a[0].PriceRequested? then [a[0].symbol] else [];
      assert (a + b)[0] == a[0];
      assert (a + b)[1..] == a[1..] + b;
      RequestedAppend(a[1..], b);
      calc {
        Requested(a + b);
        head + Requested(a[1..] + b);
        head + (Requested(a[1..]) + Requested(b));
        (head + Requested(a[1..])) + Requested(b);
        Requested(a) + Requested(b);
      }
    }
  }

  /** Events other than a price request add nothing to `Requested`. */
  lemma {:induction false} NoRequests(events: seq<Event>)
    requires forall i :: 0 <= i < |events| ==> !events[i].PriceRequested?
    ensures Requested(events) == []
  {
    if events != [] {
      assert forall i :: 0 <= i < |events[1..]| ==> events[1..][i] == events[i + 1];
      NoRequests(events[1..]);
    }
  }

  /** The variation check requests no price. */
  lemma VariationRequestsNothing(c: Config, p: Ports, log: seq<Event>, symbol: string, price: real, last: Option<real>)
    ensures Requested(VariationStage(c, p, log, symbol, price, last).events) == []
  {
    NoRequests(VariationStage(c, p, log, symbol, price, last).events);
  }

  /** The moving-average check requests no price. */
  lemma AverageRequestsNothing(c: Config, p: Ports, sqrt: real -> real, log: seq<Event>, symbol: string, price: real)
    requires IsSqrt(sqrt)
    ensures Requested(AverageStage(c, p, sqrt, log, symbol, price).events) == []
  {
    NoRequests(AverageStage(c, p, sqrt, log, symbol, price).events);
  }

  /** The records check requests no price. */
  lemma RecordsRequestNothing(c: Config, p: Ports, log: seq<Event>, symbol: string, price: real)
    ensures Requested(RecordsStage(c, p, log, symbol, price).events) == []
  {
    NoRequests(RecordsStage(c, p, log, symbol, price).events);
  }

  /** The strategies request no price. */
  lemma StrategiesRequestNothing(c: Config, p: Ports, sqrt: real -> real, log: seq<Event>, symbol: string, price: real, last: Option<real>)
    requires IsSqrt(sqrt)
    ensures Requested(Strategies(c, p, sqrt, log, symbol, price, last).events) == []
  {
    StrategiesSteps(c, p, sqrt, log, symbol, price, last);
    var v := VariationStage(c, p, log, symbol, price, last);
    var a := AverageStage(c, p, sqrt, log + v.events, symbol, price);
    var rs := RecordsStage(c, p, log + v.events + a.events, symbol, price);
    VariationRequestsNothing(c, p, log, symbol, price, last);
    AverageRequestsNothing(c, p, sqrt, log + v.events, symbol, price);
    RecordsRequestNothing(c, p, log + v.events + a.events, symbol, price);
    RequestedAppend(v.events, a.events);
    RequestedAppend(v.events + a.events, rs.events);
  }

  /** One symbol's run requests its price once and no other. */
  lemma SymbolRunRequestsOnce(c: Config, p: Ports, sqrt: real -> real, log: seq<Event>, symbol: string, ts: real)
    requires IsSqrt(sqrt)
    ensures Requested(SymbolRun(c, p, sqrt, log, symbol, ts).events) == [symbol]
  {
    var asked := [PriceRequested(symbol)];
    assert Requested(asked) == [symbol] by {
      assert asked[1..] == [];
    }
    if p.price(log, symbol).None? {
      SymbolRunFetchFailed(c, p, sqrt, log, symbol, ts);
      var s := SendStep(p, log + asked, FetchFailed(symbol));
      NoRequests(s.events);
      RequestedAppend(asked, s.events);
    } else {
      SymbolRunFetched(c, p, sqrt, log, symbol, ts);
      var price := p.price(log, symbol).value;
      var rest := [LastPriceRead(symbol), PriceAppended(symbol, price, ts)];
      var st := Strategies(c, p, sqrt, log + (asked + rest), symbol, price, p.lastPrice(log + asked, symbol));
      StrategiesRequestNothing(c, p, sqrt, log + (asked + rest), symbol, price, p.lastPrice(log + asked, symbol));
      NoRequests(rest);
      assert asked + rest == [PriceRequested(symbol), LastPriceRead(symbol), PriceAppended(symbol, price, ts)];
      RequestedAppend(asked, rest);
      RequestedAppend(asked + rest, st.events);
    }
  }

  /**
   * The loop visits the symbols in order: a run that completes has requested
   * every configured symbol once, in order; a run that stops has requested a
   * non-empty prefix of them, the one it stopped at last.
   */
  lemma {:induction false} HandlerRunVisitsInOrder(c: Config, p: Ports, sqrt: real -> real, log: seq<Event>, symbols: seq<string>, ts: real)
    requires IsSqrt(sqrt)
    ensures var r := HandlerRun(c, p, sqrt, log, symbols, ts);
      && (r.outcome.Continue? ==> Requested(r.events) == symbols)
      && (r.outcome.Stopped? ==> 0 < |Requested(r.events)| <= |symbols| && Requested(r.events) == symbols[..|Requested(r.events)|])
    decreases |symbols|
  {
    if symbols != [] {
      var init := symbols[..|symbols| - 1];
      HandlerRunVisitsInOrder(c, p, sqrt, log, init, ts);
      var prev := HandlerRun(c, p, sqrt, log, init, ts);
      if prev.outcome.Stopped? {
        assert symbols[..|Requested(prev.events)|] == init[..|Requested(prev.events)|];
      } else {
        var s := SymbolRun(c, p, sqrt, log + prev.events, symbols[|symbols| - 1], ts);
        SymbolRunRequestsOnce(c, p, sqrt, log + prev.events, symbols[|symbols| - 1], ts);
        RequestedAppend(prev.events, s.events);
        assert init + [symbols[|symbols| - 1]] == symbols;
        assert symbols[..|symbols|] == symbols;
      }
    }
  }

  /**
   * When every message is delivered and no stored last price of a symbol with
   * a limit is zero, nothing raises: the handler returns `{"status": "ok"}`.
   */
  lemma {:induction false} HandlerCompletes(c: Config, p: Ports, sqrt: real -> real, log: seq<Event>, symbols: seq<string>, ts: real)
    requires IsSqrt(sqrt)
    requires forall l, m :: p.delivers(l, m)
    requires forall l, s :: s in c.variationLimits ==> p.lastPrice(l, s) != Some(0.0)
    ensures HandlerRun(c, p, sqrt, log, symbols, ts).outcome == Continue
    decreases |symbols|
  {
    if symbols != [] {
      var init := symbols[..|symbols| - 1];
      HandlerCompletes(c, p, sqrt, log, init, ts);
      var prev := HandlerRun(c, p, sqrt, log, init, ts);
      SymbolRunCompletes(c, p, sqrt, log + prev.events, symbols[|symbols| - 1], ts);
    }
  }

  lemma StagesComplete(c: Config, p: Ports, sqrt: real -> real, log: seq<Event>, symbol: string, price: real, last: Option<real>)
    requires IsSqrt(sqrt)
    requires forall l, m :: p.delivers(l, m)
    requires symbol in c.variationLimits ==> last != Some(0.0)
    ensures VariationStage(c, p, log, symbol, price, last).outcome == Continue
    ensures AverageStage(c, p, sqrt, log, symbol, price).outcome == Continue
    ensures RecordsStage(c, p, log, symbol, price).outcome == Continue
  {
  }

  lemma SymbolRunCompletes(c: Config, p: Ports, sqrt: real -> real, log: seq<Event>, symbol: string, ts: real)
    requires IsSqrt(sqrt)
    requires forall l, m :: p.delivers(l, m)
    requires forall l, s :: s in c.variationLimits ==> p.lastPrice(l, s) != Some(0.0)
    ensures SymbolRun(c, p, sqrt, log, symbol, ts).outcome == Continue
  {
    if p.price(log, symbol).None? {
      SymbolRunFetchFailed(c, p, sqrt, log, symbol, ts);
    } else {
      SymbolRunFetched(c, p, sqrt, log, symbol, ts);
      var price := p.price(log, symbol).value;
      var last := p.lastPrice(log + [PriceRequested(symbol)], symbol);
      var l := log + [PriceRequested(symbol), LastPriceRead(symbol), PriceAppended(symbol, price, ts)];
      StrategiesSteps(c, p, sqrt, l, symbol, price, last);
      var v := VariationStage(c, p, l, symbol, price, last);
      var a := AverageStage(c, p, sqrt, l + v.events, symbol, price);
      StagesComplete(c, p, sqrt, l, symbol, price, last);
      StagesComplete(c, p, sqrt, l + v.events, symbol, price, last);
      StagesComplete(c, p, sqrt, l + v.events + a.events, symbol, price, last);
    }
  }

  /** A stop is a zero last price of the symbol, which has a limit, or the message last sent. */
  predicate StopExplained(c: Config, symbol: string, r: Run) {
    r.outcome.Stopped? ==>
      || (r.outcome.reason == DivisionByZero(symbol) && symbol in c.variationLimits)
      || (r.outcome.reason.DeliveryFailed? && r.events != [] && r.events[|r.events| - 1] == Sent(r.outcome.reason.message))
  }

  lemma StagesExplained(c: Config, p: Ports, sqrt: real -> real, log: seq<Event>, symbol: string, price: real, last: Option<real>)
    requires IsSqrt(sqrt)
    ensures StopExplained(c, symbol, VariationStage(c, p, log, symbol, price, last))
    ensures StopExplained(c, symbol, AverageStage(c, p, sqrt, log, symbol, price))
    ensures StopExplained(c, symbol, RecordsStage(c, p, log, symbol, price))
  {
    var rec := p.stats(log + [StatsRead(symbol)], symbol);
    var e := RecordsEffects(p, log + [StatsRead(symbol)], symbol, price, p.stats(log, symbol));
    assert StopExplained(c, symbol, e);
  }

  lemma ExplainedAfter(c: Config, symbol: string, prefix: seq<Event>, r: Run)
    requires StopExplained(c, symbol, r)
    ensures StopExplained(c, symbol, Run(prefix + r.events, r.outcome))
  {
    if r.events != [] {
      assert (prefix + r.events)[|prefix + r.events| - 1] == r.events[|r.events| - 1];
    }
  }

  /** A run that stops names the exception: a zero last price of a configured symbol, or a message that could not be sent. */
  lemma {:induction false} HandlerStopReasons(c: Config, p: Ports, sqrt: real -> real, log: seq<Event>, symbols: seq<string>, ts: real)
    requires IsSqrt(sqrt)
    ensures var r := HandlerRun(c, p, sqrt, log, symbols, ts);
      r.outcome.Stopped? ==>
        || (r.outcome.reason.DivisionByZero? && r.outcome.reason.symbol in symbols && r.outcome.reason.symbol in c.variationLimits)
        || (r.outcome.reason.DeliveryFailed? && r.events != [] && r.events[|r.events| - 1] == Sent(r.outcome.reason.message))
    decreases |symbols|
  {
    if symbols != [] {
      var init := symbols[..|symbols| - 1];
      HandlerStopReasons(c, p, sqrt, log, init, ts);
      var prev := HandlerRun(c, p, sqrt, log, init, ts);
      var symbol := symbols[|symbols| - 1];
      if prev.outcome.Stopped? {
        if prev.outcome.reason.DivisionByZero? {
          assert prev.outcome.reason.symbol in init;
          assert forall x :: x in init ==> x in symbols;
        }
      } else {
        var s := SymbolRun(c, p, sqrt, log + prev.events, symbol, ts);
        SymbolStopReasons(c, p, sqrt, log + prev.events, symbol, ts);
        assert symbol in symbols;
        if s.outcome.Stopped? && s.outcome.reason.DeliveryFailed? {
          assert (prev.events + s.events)[|prev.events + s.events| - 1] == s.events[|s.events| - 1];
        }
      }
    }
  }

  lemma SymbolStopReasons(c: Config, p: Ports, sqrt: real -> real, log: seq<Event>, symbol: string, ts: real)
    requires IsSqrt(sqrt)
    ensures StopExplained(c, symbol, SymbolRun(c, p, sqrt, log, symbol, ts))
  {
    if p.price(log, symbol).None? {
      SymbolRunFetchFailed(c, p, sqrt, log, symbol, ts);
    } else {
      SymbolRunFetched(c, p, sqrt, log, symbol, ts);
      var price := p.price(log, symbol).value;
      var last := p.lastPrice(log + [PriceRequested(symbol)], symbol);
      var stored := [PriceRequested(symbol), LastPriceRead(symbol), PriceAppended(symbol, price, ts)];
      var l := log + stored;
      StrategiesSteps(c, p, sqrt, l, symbol, price, last);
      var v := VariationStage(c, p, l, symbol, price, last);
      var a := AverageStage(c, p, sqrt, l + v.events, symbol, price);
      var rs := RecordsStage(c, p, l + v.events + a.events, symbol, price);
      StagesExplained(c, p, sqrt, l, symbol, price, last);
      StagesExplained(c, p, sqrt, l + v.events, symbol, price, last);
      StagesExplained(c, p, sqrt, l + v.events + a.events, symbol, price, last);
      ExplainedAfter(c, symbol, v.events, a);
      ExplainedAfter(c, symbol, v.events + a.events, rs);
      var st := Strategies(c, p, sqrt, l, symbol, price, last);
      assert StopExplained(c, symbol, st);
      ExplainedAfter(c, symbol, stored, st);
    }
  }
}
