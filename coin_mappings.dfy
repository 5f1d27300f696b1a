/** The symbol-to-CoinGecko-id table and its lookup. */
module CoinMappings {
  import opened Text

  const CoingeckoIdMap: map<string, string> := map[
    "BTC" := "bitcoin",
    "BTCUSDT" := "bitcoin",
    "ETH" := "ethereum",
    "ETHUSDT" := "ethereum",
    "SOL" := "solana",
    "SOLUSDT" := "solana",
    "DOGE" := "dogecoin",
    "BNB" := "binancecoin",
    "XRP" := "ripple",
    "ADA" := "cardano"
  ]

  /** The lookup key: the upper-cased symbol with every `USDT` removed. */
  function CleanSymbol(symbol: string): (clean: string)
    ensures |clean| <= |symbol|
  {
    RemoveAll(Upper(symbol), "USDT")
  }

  /** `get_coingecko_id`: the cleaned key, then the upper-cased symbol, then `bitcoin`. */
  function GetCoingeckoId(symbol: string): (id: string)
    ensures id in CoingeckoIdMap.Values
    ensures CleanSymbol(symbol) in CoingeckoIdMap ==> id == CoingeckoIdMap[CleanSymbol(symbol)]
    ensures CleanSymbol(symbol) !in CoingeckoIdMap && Upper(symbol) !in CoingeckoIdMap ==> id == "bitcoin"
  {
    var upper := Upper(symbol);
    var clean := RemoveAll(upper, "USDT");
    assert CoingeckoIdMap["BTC"] == "bitcoin";
    if clean in CoingeckoIdMap then CoingeckoIdMap[clean]
    else if upper in CoingeckoIdMap then CoingeckoIdMap[upper]
    else "bitcoin"
  }

  /** The lookup ignores case. */
  lemma GetCoingeckoIdIgnoresCase(symbol: string)
    ensures GetCoingeckoId(Upper(symbol)) == GetCoingeckoId(symbol)
  {
    UpperIdempotent(symbol);
  }

  /** A string holding no `U` has no `USDT` to remove. */
  lemma {:induction false} RemoveAllWithoutU(s: string)
    requires 'U' !in s
    ensures RemoveAll(s, "USDT") == s
  {
    if |s| >= 4 {
      assert s[..4][0] == s[0];
      assert s[0] != 'U';
      assert 'U' !in s[1..];
      RemoveAllWithoutU(s[1..]);
      assert s == [s[0]] + s[1..];
    }
  }

  /** A string without lower-case letters is its own upper-case form. */
  lemma {:induction false} UpperOfUpper(s: string)
    requires forall i :: 0 <= i < |s| ==> !('a' <= s[i] <= 'z')
    ensures Upper(s) == s
  {
    if s != [] {
      UpperOfUpper(s[1..]);
      assert s == [s[0]] + s[1..];
    }
  }

  /** An upper-case symbol without `U` is its own key. */
  lemma CleanPlainSymbol(s: string)
    requires forall i :: 0 <= i < |s| ==> 'A' <= s[i] <= 'Z' && s[i] != 'U'
    ensures CleanSymbol(s) == s
  {
    UpperOfUpper(s);
    RemoveAllWithoutU(s);
  }

  /** Removing `USDT` from text without `U` followed by `USDT` leaves the text. */
  lemma {:induction false} RemoveTrailingUsdt(x: string)
    requires 'U' !in x
    ensures RemoveAll(x + "USDT", "USDT") == x
  {
    var s := x + "USDT";
    if x == [] {
      assert s == "USDT" && s[4..] == [];
    } else {
      assert s[0] == x[0] && s[..4][0] == s[0];
      assert s[1..] == x[1..] + "USDT";
      assert 'U' !in x[1..];
      RemoveTrailingUsdt(x[1..]);
      assert x == [x[0]] + x[1..];
    }
  }

  /** `base + "USDT"` cleans to `base` when `base` is upper case and holds no `U`. */
  lemma CleanUsdtPair(base: string)
    requires forall i :: 0 <= i < |base| ==> 'A' <= base[i] <= 'Z' && base[i] != 'U'
    ensures CleanSymbol(base + "USDT") == base
  {
    var s := base + "USDT";
    assert forall i :: 0 <= i < |s| ==> !('a' <= s[i] <= 'z') by {
      assert forall i :: |base| <= i < |s| ==> s[i] == "USDT"[i - |base|];
    }
    UpperOfUpper(s);
    RemoveTrailingUsdt(base);
  }

  /** The table's keys. */
  lemma KeysOfTable(k: string)
    requires k in CoingeckoIdMap
    ensures k in {"BTC", "BTCUSDT", "ETH", "ETHUSDT", "SOL", "SOLUSDT", "DOGE", "BNB", "XRP", "ADA"}
  {
  }

  /** The keys without a quote currency clean to themselves. */
  lemma CleanOfPlainKey(k: string)
    requires k in {"BTC", "ETH", "SOL", "DOGE", "BNB", "XRP", "ADA"}
    ensures CleanSymbol(k) == k
  {
    if k == "BTC" {
      CleanPlainSymbol("BTC");
    } else if k == "ETH" {
      CleanPlainSymbol("ETH");
    } else if k == "SOL" {
      CleanPlainSymbol("SOL");
    } else if k == "DOGE" {
      CleanPlainSymbol("DOGE");
    } else if k == "BNB" {
      CleanPlainSymbol("BNB");
    } else if k == "XRP" {
      CleanPlainSymbol("XRP");
    } else {
      CleanPlainSymbol("ADA");
    }
  }

  /** The `...USDT` keys. */
  const PairKeys: set<string> := {"BTCUSDT", "ETHUSDT", "SOLUSDT"}

  /** The `...USDT` keys clean to their base symbol. */
  lemma CleanOfPairKey(k: string)
    requires k in PairKeys
    ensures CleanSymbol(k) == k[..3]
  {
    var base := k[..3];
    assert k == base + "USDT";
    if k == "BTCUSDT" {
      assert base == "BTC";
    } else if k == "ETHUSDT" {
      assert base == "ETH";
    } else {
      assert base == "SOL";
    }
    CleanUsdtPair(base);
  }

  /** The base of each `...USDT` key is a key with the same id. */
  lemma PairKeyBase(k: string)
    requires k in PairKeys
    ensures k[..3] in CoingeckoIdMap && CoingeckoIdMap[k[..3]] == CoingeckoIdMap[k]
  {
    if k == "BTCUSDT" {
      assert k[..3] == "BTC";
    } else if k == "ETHUSDT" {
      assert k[..3] == "ETH";
    } else {
      assert k[..3] == "SOL";
    }
  }

  /** Each key of the table cleans to a key of the table with the same id. */
  lemma CleanOfKey(k: string)
    requires k in CoingeckoIdMap
    ensures CleanSymbol(k) in CoingeckoIdMap && CoingeckoIdMap[CleanSymbol(k)] == CoingeckoIdMap[k]
  {
    KeysOfTable(k);
    if k in PairKeys {
      CleanOfPairKey(k);
      PairKeyBase(k);
    } else {
      CleanOfPlainKey(k);
    }
  }

  /** Every key of the table looks up its own entry. */
  lemma GetCoingeckoIdOfKey(k: string)
    requires k in CoingeckoIdMap
    ensures GetCoingeckoId(k) == CoingeckoIdMap[k]
  {
    CleanOfKey(k);
  }

  /** The second fallback never changes the answer: the result comes from the cleaned key or is `bitcoin`. */
  lemma SecondFallbackUnused(symbol: string)
    ensures Upper(symbol) in CoingeckoIdMap ==> CleanSymbol(symbol) in CoingeckoIdMap
    ensures GetCoingeckoId(symbol) == if CleanSymbol(symbol) in CoingeckoIdMap then CoingeckoIdMap[CleanSymbol(symbol)] else "bitcoin"
  {
    var u := Upper(symbol);
    if u in CoingeckoIdMap {
      CleanOfKey(u);
      UpperIdempotent(symbol);
      assert CleanSymbol(u) == CleanSymbol(symbol);
    }
  }

  /** Any spelling of `BTC` (`btc`, `Btc`, ...) names bitcoin. */
  lemma GetCoingeckoIdBitcoin(symbol: string)
    requires Upper(symbol) == "BTC"
    ensures GetCoingeckoId(symbol) == "bitcoin"
  {
    SameUpperSameId(symbol, "BTC");
    GetCoingeckoIdOfKey("BTC");
  }

  /** Two symbols with the same upper-case form get the same id. */
  lemma SameUpperSameId(symbol: string, key: string)
    requires Upper(symbol) == key
    ensures GetCoingeckoId(symbol) == GetCoingeckoId(key)
  {
    GetCoingeckoIdIgnoresCase(symbol);
  }

  /**
   * A symbol whose cleaned key is outside the table falls back to bitcoin. The
   * cleaned key is what decides, not the symbol: `USDTSOL` is not a key but
   * cleans to `SOL`.
   */
  lemma GetCoingeckoIdUnknown(symbol: string)
    requires CleanSymbol(symbol) !in CoingeckoIdMap
    ensures GetCoingeckoId(symbol) == "bitcoin"
  {
    SecondFallbackUnused(symbol);
  }

  /** `PEPE` is outside the table and gets bitcoin. */
  lemma GetCoingeckoIdPepe()
    ensures GetCoingeckoId("PEPE") == "bitcoin"
  {
    CleanPlainSymbol("PEPE");
    UpperOfUpper("PEPE");
  }
}
