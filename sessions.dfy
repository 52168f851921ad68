/** Sequences of requests, each handled as one atomic step, against the
    framework's table and cache and against the front script's table: the
    invariants every reachable state keeps, and the places they break. */
module Sessions {
  import opened Ledger
  import opened SpinEngine
  import WalletControllerModel
  import SlotControllerModel
  import FrontScriptModel

  /** The framework's shared state: the players table and the Redis cache. */
  datatype AppState = AppState(rows: Rows, cache: Cache)

  /** The framework's environment: cache TTL and bet bounds. */
  datatype Settings = Settings(cacheTtl: int, minBet: int, maxBet: int)

  /** A framework request, with the values its random and id generators produce. */
  datatype Request =
    | BalanceRequest(id: PlayerId)
    | CreditRequest(id: PlayerId, amount: Option<int>, ref: Option<string>, generatedRef: string, txId: string)
    | DebitRequest(id: PlayerId, amount: Option<int>, ref: Option<string>, generatedRef: string, txId: string)
    | SpinRequest(id: PlayerId, bet: Option<int>, picks: Picks, roundId: string)
    | CacheExpiry(id: PlayerId)  // the TTL of the player's cache entry elapses

  function Apply(cfg: Settings, st: AppState, req: Request): AppState {
    match req
    case BalanceRequest(id) =>
      AppState(st.rows, WalletControllerModel.ReadStep(st.cache, st.rows, id, cfg.cacheTtl).cache)
    case CreditRequest(id, amount, ref, generatedRef, txId) =>
      var s := WalletControllerModel.UpdateStep(st.rows, st.cache, id, amount, ref, Credit, generatedRef, txId);
      AppState(s.rows, s.cache)
    case DebitRequest(id, amount, ref, generatedRef, txId) =>
      var s := WalletControllerModel.UpdateStep(st.rows, st.cache, id, amount, ref, Debit, generatedRef, txId);
      AppState(s.rows, s.cache)
    case SpinRequest(id, bet, picks, roundId) =>
      AppState(SlotControllerModel.SpinStep(st.rows, id, bet, cfg.minBet, cfg.maxBet, picks, roundId).rows, st.cache)
    case CacheExpiry(id) =>
      AppState(st.rows, st.cache - {CacheKey(id)})
  }

  /** The state after handling `reqs` in order. */
  function Run(cfg: Settings, st: AppState, reqs: seq<Request>): AppState
    decreases |reqs|
  {
    if reqs == [] then st else Run(cfg, Apply(cfg, st, reqs[0]), reqs[1..])
  }

  /** With a non-negative minimum bet, no sequence of requests drives any
      balance below zero. */
  lemma {:induction false} RunKeepsBalancesNonNegative(cfg: Settings, st: AppState, reqs: seq<Request>)
    requires cfg.minBet >= 0 && NonNegative(st.rows)
    ensures NonNegative(Run(cfg, st, reqs).rows)
    decreases |reqs|
  {
    if reqs != [] {
      RunKeepsBalancesNonNegative(cfg, Apply(cfg, st, reqs[0]), reqs[1..]);
    }
  }

  predicate WalletOnly(reqs: seq<Request>) {
    forall i :: 0 <= i < |reqs| ==> !reqs[i].SpinRequest?
  }

  /** Wallet requests and cache expiry keep every cached balance equal to the
      stored one, so a cache hit never shows a stale balance. */
  lemma {:induction false} WalletRunKeepsCacheCoherent(cfg: Settings, st: AppState, reqs: seq<Request>)
    requires WalletOnly(reqs) && Coherent(st.cache, st.rows)
    ensures var end := Run(cfg, st, reqs);
            Coherent(end.cache, end.rows)
    decreases |reqs|
  {
    if reqs != [] {
      var next := Apply(cfg, st, reqs[0]);
      assert Coherent(next.cache, next.rows) by {
        if reqs[0].CacheExpiry? {
          forall q | CacheKey(q) in next.cache
            ensures q in next.rows && next.cache[CacheKey(q)].value == next.rows[q].balance
          {
            assert CacheKey(q) in st.cache;
          }
        }
      }
      assert WalletOnly(reqs[1..]) by {
        forall i | 0 <= i < |reqs[1..]|
          ensures !reqs[1..][i].SpinRequest?
        {
          assert reqs[1..][i] == reqs[i + 1];
        }
      }
      WalletRunKeepsCacheCoherent(cfg, next, reqs[1..]);
    }
  }

  /** The framework spin does not invalidate the cache: after a cached read,
      a losing spin of 100, and a second read, the second read still shows
      the pre-spin balance from the cache while the table holds 100 less. */
  lemma SpinLeavesCachedBalanceStale()
    ensures var cfg := Settings(30, 1, 1000);
            var st0 := AppState(map["p1" := Player(PlayerRole, 10000)], map[]);
            var st1 := Apply(cfg, st0, BalanceRequest("p1"));
            var st2 := Apply(cfg, st1, SpinRequest("p1", Some(100), [0, 1, 2], "r1"));
            && Coherent(st1.cache, st1.rows)
            && st2.rows["p1"].balance == 9900
            && WalletControllerModel.ReadStep(st2.cache, st2.rows, "p1", 30).reply
               == Ok(BalanceView("p1", 10000, FromCache))
            && !Coherent(st2.cache, st2.rows)
  {
    var cfg := Settings(30, 1, 1000);
    var st0 := AppState(map["p1" := Player(PlayerRole, 10000)], map[]);
    var st1 := Apply(cfg, st0, BalanceRequest("p1"));
    assert st1.cache == map[CacheKey("p1") := CacheEntry(10000, 30)];
    SymbolsDistinct();
    var reels := Draw([0, 1, 2]);
    assert reels == [Cherry, Lemon, Grape];
    assert !AllMatch(reels);
    var st2 := Apply(cfg, st1, SpinRequest("p1", Some(100), [0, 1, 2], "r1"));
    assert st2.rows["p1"].balance == 9900;
    assert st2.cache[CacheKey("p1")].value != st2.rows["p1"].balance;
  }

  /** `Apply` with the spin replaced by `SpinStepInvalidating`, which deletes
      the player's cache entry as credit and debit do. */
  function ApplyInvalidating(cfg: Settings, st: AppState, req: Request): AppState {
    match req
    case SpinRequest(id, bet, picks, roundId) =>
      var s := SlotControllerModel.SpinStepInvalidating(st.rows, st.cache, id, bet, cfg.minBet, cfg.maxBet, picks, roundId);
      AppState(s.rows, s.cache)
    case _ => Apply(cfg, st, req)
  }

  function RunInvalidating(cfg: Settings, st: AppState, reqs: seq<Request>): AppState
    decreases |reqs|
  {
    if reqs == [] then st else RunInvalidating(cfg, ApplyInvalidating(cfg, st, reqs[0]), reqs[1..])
  }

  /** Once the spin deletes the cache entry, every sequence of requests of
      every kind, spins included, keeps each cached balance equal to the
      stored one. */
  lemma {:induction false} InvalidatingRunKeepsCacheCoherent(cfg: Settings, st: AppState, reqs: seq<Request>)
    requires Coherent(st.cache, st.rows)
    ensures var end := RunInvalidating(cfg, st, reqs);
            Coherent(end.cache, end.rows)
    decreases |reqs|
  {
    if reqs != [] {
      var next := ApplyInvalidating(cfg, st, reqs[0]);
      assert Coherent(next.cache, next.rows) by {
        if reqs[0].CacheExpiry? {
          forall q | CacheKey(q) in next.cache
            ensures q in next.rows && next.cache[CacheKey(q)].value == next.rows[q].balance
          {
            assert CacheKey(q) in st.cache;
          }
        }
      }
      InvalidatingRunKeepsCacheCoherent(cfg, next, reqs[1..]);
    }
  }

  /** The stale-read sequence of `SpinLeavesCachedBalanceStale` with the
      invalidating spin: the second read misses the cache and shows 9900. */
  lemma InvalidatingSpinReadsFreshBalance()
    ensures var cfg := Settings(30, 1, 1000);
            var st0 := AppState(map["p1" := Player(PlayerRole, 10000)], map[]);
            var st1 := ApplyInvalidating(cfg, st0, BalanceRequest("p1"));
            var st2 := ApplyInvalidating(cfg, st1, SpinRequest("p1", Some(100), [0, 1, 2], "r1"));
            && st2.rows["p1"].balance == 9900
            && WalletControllerModel.ReadStep(st2.cache, st2.rows, "p1", 30).reply
               == Ok(BalanceView("p1", 9900, FromDatabase))
  {
    var cfg := Settings(30, 1, 1000);
    var st0 := AppState(map["p1" := Player(PlayerRole, 10000)], map[]);
    var st1 := ApplyInvalidating(cfg, st0, BalanceRequest("p1"));
    assert st1.cache == map[CacheKey("p1") := CacheEntry(10000, 30)];
    SymbolsDistinct();
    assert Draw([0, 1, 2]) == [Cherry, Lemon, Grape];
    var st2 := ApplyInvalidating(cfg, st1, SpinRequest("p1", Some(100), [0, 1, 2], "r1"));
    assert st2.rows["p1"].balance == 9900;
    assert CacheKey("p1") !in st2.cache;
  }

  /** A front-script request, with the values its random and id generators produce. */
  datatype FrontRequest =
    | FrontLogin(id: PlayerId)
    | FrontBalanceRequest(id: PlayerId)
    | FrontCreditRequest(id: PlayerId, amount: Option<int>, ref: string, txId: string)
    | FrontDebitRequest(id: PlayerId, amount: Option<int>, ref: string, txId: string)
    | FrontSpinRequest(id: PlayerId, bet: Option<int>, picks: Picks, roundId: string)

  function FrontApply(rows: Rows, req: FrontRequest): Rows {
    match req
    case FrontLogin(id) => FrontScriptModel.LoginStep(rows, id).rows
    case FrontBalanceRequest(_) => rows
    case FrontCreditRequest(id, amount, ref, txId) => FrontScriptModel.FrontCredit(rows, id, amount, ref, txId).rows
    case FrontDebitRequest(id, amount, ref, txId) => FrontScriptModel.FrontDebit(rows, id, amount, ref, txId).rows
    case FrontSpinRequest(id, bet, picks, roundId) => FrontScriptModel.FrontSpin(rows, id, bet, picks, roundId).rows
  }

  function FrontRun(rows: Rows, reqs: seq<FrontRequest>): Rows
    decreases |reqs|
  {
    if reqs == [] then rows else FrontRun(FrontApply(rows, reqs[0]), reqs[1..])
  }

  /** Starting from any table with no negative balance (an empty one, say),
      no sequence of front-script requests makes a balance negative. */
  lemma {:induction false} FrontRunKeepsBalancesNonNegative(rows: Rows, reqs: seq<FrontRequest>)
    requires NonNegative(rows)
    ensures NonNegative(FrontRun(rows, reqs))
    decreases |reqs|
  {
    if reqs != [] {
      FrontRunKeepsBalancesNonNegative(FrontApply(rows, reqs[0]), reqs[1..]);
    }
  }

  /** A new player logs in with 10000, loses a spin of 100 (9900), then hits
      three cherries on a spin of 100: win 1000, balance 10800. */
  lemma NewPlayerScenario()
    ensures var login := FrontScriptModel.LoginStep(map[], "p1");
            var lose := FrontScriptModel.FrontSpin(login.rows, "p1", Some(100), [0, 1, 2], "r1");
            var win := FrontScriptModel.FrontSpin(lose.rows, "p1", Some(100), [0, 0, 0], "r2");
            && login.rows == map["p1" := Player(PlayerRole, 10000)]
            && lose.reply.Ok? && lose.reply.value.win == 0 && lose.reply.value.balance == 9900
            && win.reply.Ok? && win.reply.value.win == 1000 && win.reply.value.balance == 10800
  {
    SymbolsDistinct();
    assert Draw([0, 1, 2]) == [Cherry, Lemon, Grape];
    assert Draw([0, 0, 0]) == [Cherry, Cherry, Cherry];
  }

  /** Three diamonds on a bet of 10 win 500, so the balance moves by -10 + 500. */
  lemma DiamondJackpot(rows: Rows, id: PlayerId)
    requires id in rows && rows[id].balance >= 10
    ensures var s := SlotControllerModel.SpinStep(rows, id, Some(10), 1, 1000, [3, 3, 3], "r");
            s.reply.Ok? && s.reply.value.win == 500 && s.rows[id].balance == rows[id].balance - 10 + 500
  {
    assert Draw([3, 3, 3]) == [Diamond, Diamond, Diamond];
  }

  /** Bets of 0 and 1001 are refused under the default bounds, balance untouched. */
  lemma OutOfRangeBetsRefused(rows: Rows, id: PlayerId, picks: Picks)
    ensures var low := SlotControllerModel.SpinStep(rows, id, Some(0), 1, 1000, picks, "r");
            var high := SlotControllerModel.SpinStep(rows, id, Some(1001), 1, 1000, picks, "r");
            low.reply == Err(BetOutOfRange(1, 1000)) && low.rows == rows
            && high.reply == Err(BetOutOfRange(1, 1000)) && high.rows == rows
  {
  }
}
