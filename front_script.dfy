/** The standalone front script: the same ledger and payout rules as the
    framework controllers, written as SQL statements over the players table,
    with no cache, a fixed bet range of 1..1000, a default bet of 10, and
    lazy player creation at login. */
module FrontScriptModel {
  import opened Ledger
  import opened SpinEngine
  import WalletControllerModel
  import SlotControllerModel

  const FrontMinBet: int := 1
  const FrontMaxBet: int := 1000
  const FrontDefaultBet: int := 10

  /** What login replies besides the token. */
  datatype LoginReply = LoginReply(playerId: PlayerId, role: Role)

  /** `/api/slot/config`: fixed constants. */
  function FrontConfig(): (c: SlotConfig)
    ensures c.minBet == FrontMinBet && c.maxBet == FrontMaxBet
    ensures c.paylines == Paylines && c.reels == ReelCount
    ensures |c.symbols| == 5
    ensures forall picks: Picks, i :: 0 <= i < ReelCount ==> Draw(picks)[i] in c.symbols
    ensures forall sym :: sym in c.symbols ==> sym in Multipliers
  {
    SlotConfig(1, 1000, Symbols, 5, 3)
  }

  /** `/api/login`: an absent player is inserted with role `player` and the
      starting balance; a present one is left as it is. */
  function LoginStep(rows: Rows, id: PlayerId): (s: Step<LoginReply>)
    ensures id in s.rows
    ensures id in rows ==> s.rows == rows
    ensures id !in rows ==> s.rows == rows[id := Player(PlayerRole, StartingBalance)]
    ensures s.reply == Ok(LoginReply(id, s.rows[id].role))
    ensures NonNegative(rows) ==> NonNegative(s.rows)
  {
    if id in rows then
      Step(Ok(LoginReply(id, rows[id].role)), rows)
    else
      var player := Player(PlayerRole, StartingBalance);
      Step(Ok(LoginReply(id, player.role)), rows[id := player])
  }

  /** Logging in twice changes nothing the first login did not. */
  lemma LoginIdempotent(rows: Rows, id: PlayerId)
    ensures var once := LoginStep(rows, id);
            LoginStep(once.rows, id) == once
  {
  }

  /** `/api/wallet/balance`: always read from the table. */
  function FrontBalance(rows: Rows, id: PlayerId): (r: Result<BalanceView>)
    ensures r.Ok? <==> id in rows
    ensures r.Ok? ==> r.value == BalanceView(id, rows[id].balance, FromDatabase)
    ensures r.Err? ==> r.failure == PlayerNotFound
  {
    if id in rows then Ok(BalanceView(id, rows[id].balance, FromDatabase)) else Err(PlayerNotFound)
  }

  /** The balance a `SELECT balance` reports: an absent row reads as `false`,
      whose `['balance']` is `null`, cast to 0. */
  function SelectedBalance(rows: Rows, id: PlayerId): (b: int)
    ensures id in rows ==> b == rows[id].balance
    ensures id !in rows ==> b == 0
  {
    if id in rows then rows[id].balance else 0
  }

  /** `/api/wallet/credit`: a missing amount counts as 0. There is no
      existence check: for an absent player the UPDATE matches no row and
      the reply is a success reporting balance 0. */
  function FrontCredit(rows: Rows, id: PlayerId, amountIn: Option<int>, ref: string, txId: string): (s: Step<Receipt>)
    ensures s.reply.Err? <==> amountIn.GetOr(0) <= 0
    ensures s.reply.Err? ==> s.reply.failure == InvalidAmount
    ensures s.rows.Keys == rows.Keys
    ensures forall q :: q in rows && q != id ==> s.rows[q] == rows[q]
    ensures s.reply.Err? || id !in rows ==> s.rows == rows
    ensures s.reply.Ok? ==>
              && s.reply.value.delta == amountIn.GetOr(0)
              && s.reply.value.playerId == id
              && s.reply.value.ref == ref && s.reply.value.txId == txId
    ensures s.reply.Ok? && id in rows ==>
              && s.rows[id].balance == rows[id].balance + s.reply.value.delta
              && s.rows[id].role == rows[id].role
              && s.reply.value.balance == s.rows[id].balance
    ensures s.reply.Ok? && id !in rows ==> s.reply.value.balance == 0
    ensures NonNegative(rows) ==> NonNegative(s.rows)
  {
    var amount := amountIn.GetOr(0);
    if amount <= 0 then
      Step(Err(InvalidAmount), rows)
    else
      var updated := if id in rows then WithBalance(rows, id, rows[id].balance + amount) else rows;
      Step(Ok(Receipt(id, SelectedBalance(updated, id), amount, ref, txId)), updated)
  }

  /** `/api/wallet/debit`: a missing player and a short balance both fail
      with "Insufficient balance". */
  function FrontDebit(rows: Rows, id: PlayerId, amountIn: Option<int>, ref: string, txId: string): (s: Step<Receipt>)
    ensures s.reply == Err(InvalidAmount) <==> amountIn.GetOr(0) <= 0
    ensures s.reply == Err(InsufficientBalance) <==>
              amountIn.GetOr(0) > 0 && (id !in rows || rows[id].balance < amountIn.GetOr(0))
    ensures s.reply.Ok? <==> amountIn.GetOr(0) > 0 && id in rows && rows[id].balance >= amountIn.GetOr(0)
    ensures s.reply.Err? ==> s.rows == rows
    ensures s.reply.Ok? ==>
              && id in rows && id in s.rows
              && s.reply.value.delta == -amountIn.GetOr(0)
              && s.rows[id].balance == rows[id].balance + s.reply.value.delta
              && s.rows[id].role == rows[id].role
              && s.reply.value.balance == s.rows[id].balance
              && s.reply.value.playerId == id
              && s.reply.value.ref == ref && s.reply.value.txId == txId
    ensures s.rows.Keys == rows.Keys
    ensures forall q :: q in rows && q != id ==> s.rows[q] == rows[q]
    ensures NonNegative(rows) ==> NonNegative(s.rows)
  {
    var amount := amountIn.GetOr(0);
    if amount <= 0 then
      Step(Err(InvalidAmount), rows)
    else if id !in rows || rows[id].balance < amount then
      Step(Err(InsufficientBalance), rows)
    else
      var updated := WithBalance(rows, id, rows[id].balance - amount);
      Step(Ok(Receipt(id, SelectedBalance(updated, id), -amount, ref, txId)), updated)
  }

  /** `/api/slot/spin`: bet defaults to 10 and must lie in 1..1000. */
  function FrontSpin(rows: Rows, id: PlayerId, betIn: Option<int>, picks: Picks, roundId: string): (s: Step<SpinResult>)
    ensures var bet := betIn.GetOr(FrontDefaultBet);
            s.reply == Err(InvalidBet) <==> bet < FrontMinBet || bet > FrontMaxBet
    ensures var bet := betIn.GetOr(FrontDefaultBet);
            s.reply == Err(InsufficientBalance) <==>
              FrontMinBet <= bet <= FrontMaxBet && (id !in rows || rows[id].balance < bet)
    ensures var bet := betIn.GetOr(FrontDefaultBet);
            s.reply.Ok? <==> FrontMinBet <= bet <= FrontMaxBet && id in rows && rows[id].balance >= bet
    ensures s.reply.Err? ==> s.rows == rows
    ensures s.reply.Ok? ==>
              var r := s.reply.value;
              && id in rows && id in s.rows
              && r.bet == betIn.GetOr(FrontDefaultBet)
              && r.reels == Draw(picks)
              && r.win == Payout(r.reels, r.bet)
              && s.rows[id].balance == rows[id].balance - r.bet + r.win
              && r.balance == s.rows[id].balance
              && s.rows[id].role == rows[id].role
              && r.roundId == roundId
    ensures s.rows.Keys == rows.Keys
    ensures forall q :: q in rows && q != id ==> s.rows[q] == rows[q]
    ensures NonNegative(rows) ==> NonNegative(s.rows)
  {
    var bet := betIn.GetOr(FrontDefaultBet);
    if bet < FrontMinBet || bet > FrontMaxBet then
      Step(Err(InvalidBet), rows)
    else if id !in rows || rows[id].balance < bet then
      Step(Err(InsufficientBalance), rows)
    else
      var debited := WithBalance(rows, id, rows[id].balance - bet);
      var reels := Draw(picks);
      var win := Payout(reels, bet);
      var settled := if AllMatch(reels) then WithBalance(debited, id, debited[id].balance + win) else debited;
      Step(Ok(SpinResult(reels, bet, win, SelectedBalance(settled, id), roundId)), settled)
  }

  /** Given the same bet, the front script's spin and the framework spin
      under its default bounds change the table alike and reply alike; only
      the wording of the out-of-range failure differs. */
  lemma FrontSpinMatchesController(rows: Rows, id: PlayerId, bet: int, picks: Picks, roundId: string)
    ensures var f := FrontSpin(rows, id, Some(bet), picks, roundId);
            var c := SlotControllerModel.SpinStep(rows, id, Some(bet), SlotControllerModel.DefaultMinBet,
                                                  SlotControllerModel.DefaultMaxBet, picks, roundId);
            && f.rows == c.rows
            && (f.reply == Err(InvalidBet) <==> c.reply == Err(BetOutOfRange(1, 1000)))
            && (f.reply != Err(InvalidBet) ==> f.reply == c.reply)
  {
  }

  /** Without a bet the two spins stake differently: 10 here, `minBet`
      (1 by default) in the framework controller. */
  lemma DefaultBetsDiffer(rows: Rows, id: PlayerId, picks: Picks, roundId: string)
    requires id in rows && rows[id].balance >= FrontDefaultBet
    ensures var f := FrontSpin(rows, id, None, picks, roundId);
            var c := SlotControllerModel.SpinStep(rows, id, None, SlotControllerModel.DefaultMinBet,
                                                  SlotControllerModel.DefaultMaxBet, picks, roundId);
            f.reply.Ok? && c.reply.Ok? && f.reply.value.bet == 10 && c.reply.value.bet == 1
  {
  }

  /** For a known player the front script's debit moves the balance exactly
      as the framework debit does; for an unknown one it reports
      "Insufficient balance" where the framework reports "Player not found". */
  lemma FrontDebitMatchesController(rows: Rows, cache: Cache, id: PlayerId, amount: int,
                                    ref: string, txId: string)
    ensures var f := FrontDebit(rows, id, Some(amount), ref, txId);
            var c := WalletControllerModel.UpdateStep(rows, cache, id, Some(amount), None, Debit, ref, txId);
            && f.rows == c.rows
            && (id in rows ==> f.reply == c.reply)
            && (id !in rows && amount > 0 ==> f.reply == Err(InsufficientBalance) && c.reply == Err(PlayerNotFound))
  {
  }

  /** For a known player the front script's credit moves the balance as the
      framework credit does; for an unknown one it reports success with
      balance 0 and changes no row, where the framework fails. */
  lemma FrontCreditMatchesController(rows: Rows, cache: Cache, id: PlayerId, amount: int,
                                     ref: string, txId: string)
    ensures var f := FrontCredit(rows, id, Some(amount), ref, txId);
            var c := WalletControllerModel.UpdateStep(rows, cache, id, Some(amount), None, Credit, ref, txId);
            && f.rows == c.rows
            && (id in rows ==> f.reply == c.reply)
            && (id !in rows && amount > 0 ==>
                  f.reply == Ok(Receipt(id, 0, amount, ref, txId)) && c.reply == Err(PlayerNotFound))
  {
  }

  /** Both config endpoints agree when the environment sets no bounds. */
  lemma ConfigsAgreeUnderDefaults(ctl: SlotControllerModel.SlotController)
    requires ctl.minBet == SlotControllerModel.DefaultMinBet && ctl.maxBet == SlotControllerModel.DefaultMaxBet
    ensures ctl.Config() == FrontConfig()
  {
  }

  /** The front script's handlers over the players table. */
  class FrontScript {
    const db: Database

    constructor (db: Database)
      ensures this.db == db
    {
      this.db := db;
    }

    method Login(id: PlayerId) returns (reply: Result<LoginReply>)
      modifies db
      ensures var s := LoginStep(old(db.rows), id);
              reply == s.reply && db.rows == s.rows
    {
      var found := db.Find(id);
      var player: Player;
      if found.None? {
        db.Insert(id, Player(PlayerRole, StartingBalance));
        player := Player(PlayerRole, StartingBalance);
      } else {
        player := found.value;
      }
      reply := Ok(LoginReply(id, player.role));
    }

    method Balance(id: PlayerId) returns (reply: Result<BalanceView>)
      ensures reply == FrontBalance(db.rows, id)
    {
      var found := db.Find(id);
      if found.Some? {
        reply := Ok(BalanceView(id, found.value.balance, FromDatabase));
      } else {
        reply := Err(PlayerNotFound);
      }
    }

    method Credit(id: PlayerId, amountIn: Option<int>, ref: string, txId: string) returns (reply: Result<Receipt>)
      modifies db
      ensures var s := FrontCredit(old(db.rows), id, amountIn, ref, txId);
              reply == s.reply && db.rows == s.rows
    {
      var amount := amountIn.GetOr(0);
      if amount <= 0 {
        return Err(InvalidAmount);
      }
      db.AddToBalance(id, amount);
      var found := db.Find(id);
      var balance := if found.Some? then found.value.balance else 0;
      reply := Ok(Receipt(id, balance, amount, ref, txId));
    }

    method Debit(id: PlayerId, amountIn: Option<int>, ref: string, txId: string) returns (reply: Result<Receipt>)
      modifies db
      ensures var s := FrontDebit(old(db.rows), id, amountIn, ref, txId);
              reply == s.reply && db.rows == s.rows
    {
      var amount := amountIn.GetOr(0);
      if amount <= 0 {
        return Err(InvalidAmount);
      }
      var found := db.Find(id);
      if found.None? || found.value.balance < amount {
        return Err(InsufficientBalance);
      }
      db.AddToBalance(id, -amount);
      found := db.Find(id);
      var balance := if found.Some? then found.value.balance else 0;
      reply := Ok(Receipt(id, balance, -amount, ref, txId));
    }

    method Spin(id: PlayerId, betIn: Option<int>, picks: Picks, roundId: string) returns (reply: Result<SpinResult>)
      modifies db
      ensures var s := FrontSpin(old(db.rows), id, betIn, picks, roundId);
              reply == s.reply && db.rows == s.rows
    {
      var bet := betIn.GetOr(FrontDefaultBet);
      if bet < FrontMinBet || bet > FrontMaxBet {
        return Err(InvalidBet);
      }
      var found := db.Find(id);
      if found.None? || found.value.balance < bet {
        return Err(InsufficientBalance);
      }
      db.AddToBalance(id, -bet);
      var reels := Draw(picks);
      var win := 0;
      if AllMatch(reels) {
        win := Payout(reels, bet);
        db.AddToBalance(id, win);
      }
      found := db.Find(id);
      var balance := if found.Some? then found.value.balance else 0;
      reply := Ok(SpinResult(reels, bet, win, balance, roundId));
    }
  }
}
