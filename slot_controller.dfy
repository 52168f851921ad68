/** The framework slot handlers: `config` reports the game constants and
    `spin` validates the bet against configurable bounds, debits it, draws
    three reels and credits any win. */
module SlotControllerModel {
  import opened Ledger
  import opened SpinEngine

  /** `SLOT_MIN_BET` / `SLOT_MAX_BET` when the environment does not set them. */
  const DefaultMinBet: int := 1
  const DefaultMaxBet: int := 1000

  /** `spin` with bounds `minBet..maxBet`; a missing bet defaults to `minBet`.
      The handler saves once with the bet taken off and, only on a
      three-of-a-kind, a second time with the win added. */
  function SpinStep(rows: Rows, id: PlayerId, betIn: Option<int>, minBet: int, maxBet: int,
                    picks: Picks, roundId: string): (s: Step<SpinResult>)
    ensures var bet := betIn.GetOr(minBet);
            s.reply == Err(BetOutOfRange(minBet, maxBet)) <==> bet < minBet || bet > maxBet
    ensures var bet := betIn.GetOr(minBet);
            s.reply == Err(InsufficientBalance) <==>
              minBet <= bet <= maxBet && (id !in rows || rows[id].balance < bet)
    ensures var bet := betIn.GetOr(minBet);
            s.reply.Ok? <==> minBet <= bet <= maxBet && id in rows && rows[id].balance >= bet
    ensures s.reply.Err? ==> s.rows == rows
    ensures s.reply.Ok? ==>
              var r := s.reply.value;
              && id in rows && id in s.rows
              && r.bet == betIn.GetOr(minBet)
              && minBet <= r.bet <= maxBet
              && r.bet <= rows[id].balance
              && r.reels == Draw(picks)
              && r.win == Payout(r.reels, r.bet)
              && s.rows[id].balance == rows[id].balance - r.bet + r.win
              && r.balance == s.rows[id].balance
              && s.rows[id].role == rows[id].role
              && r.roundId == roundId
    ensures s.rows.Keys == rows.Keys
    ensures forall q :: q in rows && q != id ==> s.rows[q] == rows[q]
    ensures minBet >= 0 && NonNegative(rows) ==> NonNegative(s.rows)
  {
    var bet := betIn.GetOr(minBet);
    if bet < minBet || bet > maxBet then
      Step(Err(BetOutOfRange(minBet, maxBet)), rows)
    else if id !in rows || rows[id].balance < bet then
      Step(Err(InsufficientBalance), rows)
    else
      var debited := WithBalance(rows, id, rows[id].balance - bet);
      var reels := Draw(picks);
      var win := Payout(reels, bet);
      var settled := if AllMatch(reels) then WithBalance(debited, id, debited[id].balance + win) else debited;
      Step(Ok(SpinResult(reels, bet, win, settled[id].balance, roundId)), settled)
  }

  /** What a spin replies, and the table and cache after it. */
  datatype SpinOutcome = SpinOutcome(reply: Result<SpinResult>, rows: Rows, cache: Cache)

  /** `spin` as credit and debit behave: the same reply and table as
      `SpinStep`, and, once the balance is saved, the player's cache entry
      is deleted, so a cached balance never outlives a spin. */
  function SpinStepInvalidating(rows: Rows, cache: Cache, id: PlayerId, betIn: Option<int>, minBet: int, maxBet: int,
                                picks: Picks, roundId: string): (s: SpinOutcome)
    ensures var w := SpinStep(rows, id, betIn, minBet, maxBet, picks, roundId);
            s.reply == w.reply && s.rows == w.rows
    ensures s.reply.Ok? ==> s.cache == cache - {CacheKey(id)}
    ensures s.reply.Err? ==> s.cache == cache
    ensures Coherent(cache, rows) ==> Coherent(s.cache, s.rows)
  {
    var w := SpinStep(rows, id, betIn, minBet, maxBet, picks, roundId);
    var after := if w.reply.Ok? then cache - {CacheKey(id)} else cache;
    assert Coherent(cache, rows) ==> Coherent(after, w.rows) by {
      forall q | CacheKey(q) in after
        ensures Coherent(cache, rows) ==> q in w.rows && after[CacheKey(q)].value == w.rows[q].balance
      {
        assert CacheKey(q) in cache;
        if w.reply.Ok? {
          assert q != id;
        }
      }
    }
    SpinOutcome(w.reply, w.rows, after)
  }

  /** With a negative `minBet` from the environment a negative stake is
      accepted, and a three-of-a-kind then takes more than the balance. */
  lemma NegativeMinBetCanOverdraw()
    ensures var rows := map["p" := Player(PlayerRole, 0)];
            var s := SpinStep(rows, "p", Some(-1), -1, 1000, [0, 0, 0], "r");
            NonNegative(rows) && s.reply.Ok? && s.rows["p"].balance == -9
  {
    var rows := map["p" := Player(PlayerRole, 0)];
    var s := SpinStep(rows, "p", Some(-1), -1, 1000, [0, 0, 0], "r");
    assert Draw([0, 0, 0]) == [Cherry, Cherry, Cherry];
    assert s.rows["p"].balance == 0 + 1 + (-1) * 10;
  }

  /** The framework slot controller over the shared table. */
  class SlotController {
    const db: Database
    const minBet: int
    const maxBet: int

    /** `envMinBet` / `envMaxBet` are `SLOT_MIN_BET` / `SLOT_MAX_BET`, when set. */
    constructor (db: Database, envMinBet: Option<int>, envMaxBet: Option<int>)
      ensures this.db == db
      ensures minBet == envMinBet.GetOr(DefaultMinBet) && maxBet == envMaxBet.GetOr(DefaultMaxBet)
    {
      this.db := db;
      this.minBet := envMinBet.GetOr(DefaultMinBet);
      this.maxBet := envMaxBet.GetOr(DefaultMaxBet);
    }

    /** `config`: the bounds `spin` enforces and the alphabet its reels come from. */
    function Config(): (c: SlotConfig)
      ensures c.minBet == minBet && c.maxBet == maxBet
      ensures c.paylines == Paylines && c.reels == ReelCount
      ensures |c.symbols| == 5
      ensures forall picks: Picks, i :: 0 <= i < ReelCount ==> Draw(picks)[i] in c.symbols
      ensures forall sym :: sym in c.symbols ==> sym in Multipliers
    {
      SlotConfig(minBet, maxBet, Symbols, Paylines, ReelCount)
    }

    method Spin(id: PlayerId, betIn: Option<int>, picks: Picks, roundId: string) returns (reply: Result<SpinResult>)
      modifies db
      ensures var s := SpinStep(old(db.rows), id, betIn, minBet, maxBet, picks, roundId);
              reply == s.reply && db.rows == s.rows
    {
      var bet := betIn.GetOr(minBet);
      if bet < minBet || bet > maxBet {
        return Err(BetOutOfRange(minBet, maxBet));
      }
      var found := db.Find(id);
      if found.None? || found.value.balance < bet {
        return Err(InsufficientBalance);
      }
      var player := found.value;
      player := player.(balance := player.balance - bet);
      db.Save(id, player);
      var reels := Draw(picks);
      var win := 0;
      if AllMatch(reels) {
        win := Payout(reels, bet);
        player := player.(balance := player.balance + win);
        db.Save(id, player);
      }
      reply := Ok(SpinResult(reels, bet, win, player.balance, roundId));
    }
  }
}
