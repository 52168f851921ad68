/** The framework wallet: a read-through Redis cache over the players table,
    and credit/debit that validate, update the stored balance, invalidate the
    player's cache entry and return a receipt. */
module WalletControllerModel {
  import opened Ledger

  /** `WALLET_CACHE_TTL` when the environment does not set it. */
  const DefaultCacheTtl: int := 30

  /** What a balance read replies and the cache it leaves behind. */
  datatype ReadOutcome = ReadOutcome(reply: Result<BalanceView>, cache: Cache)

  /** What a credit or debit replies, and the table and cache after it. */
  datatype UpdateOutcome = UpdateOutcome(reply: Result<Receipt>, rows: Rows, cache: Cache)

  /** `balance`: a hit answers from the cache alone; a miss loads the stored
      balance, caches it for `ttl` seconds and answers from the database. A
      `ttl` that is not positive makes Redis refuse the write, and the read
      of a known player then fails with the cache left as it was. */
  function ReadStep(cache: Cache, rows: Rows, id: PlayerId, ttl: int): (s: ReadOutcome)
    ensures CacheKey(id) in cache ==>
              s.reply == Ok(BalanceView(id, cache[CacheKey(id)].value, FromCache)) && s.cache == cache
    ensures s.reply == Err(PlayerNotFound) <==> CacheKey(id) !in cache && id !in rows
    ensures s.reply == Err(CacheWriteRejected) <==> CacheKey(id) !in cache && id in rows && ttl <= 0
    ensures s.reply.Err? ==> s.cache == cache
    ensures s.reply.Err? ==> s.reply.failure in {PlayerNotFound, CacheWriteRejected}
    ensures CacheKey(id) !in cache && id in rows && ttl > 0 ==>
              && s.reply == Ok(BalanceView(id, rows[id].balance, FromDatabase))
              && s.cache == cache[CacheKey(id) := CacheEntry(rows[id].balance, ttl)]
    ensures s.reply.Ok? ==> CacheKey(id) in s.cache && s.cache[CacheKey(id)].value == s.reply.value.balance
    ensures s.cache - {CacheKey(id)} == cache - {CacheKey(id)}
    ensures Coherent(cache, rows) ==> Coherent(s.cache, rows)
    ensures Coherent(cache, rows) && s.reply.Ok? ==> id in rows && s.reply.value.balance == rows[id].balance
  {
    var key := CacheKey(id);
    if key in cache then
      ReadOutcome(Ok(BalanceView(id, cache[key].value, FromCache)), cache)
    else if id !in rows then
      ReadOutcome(Err(PlayerNotFound), cache)
    else if ttl <= 0 then
      ReadOutcome(Err(CacheWriteRejected), cache)
    else
      var filled := cache[key := CacheEntry(rows[id].balance, ttl)];
      assert Coherent(cache, rows) ==> Coherent(filled, rows) by {
        forall q | CacheKey(q) in filled
          ensures Coherent(cache, rows) ==> q in rows && filled[CacheKey(q)].value == rows[q].balance
        {
          CacheKeyInjective(q, id);
        }
      }
      ReadOutcome(Ok(BalanceView(id, rows[id].balance, FromDatabase)), filled)
  }

  /** `updateBalance`: a missing amount counts as 0; the reference is the
      caller's or `generatedRef`, and `txId` is freshly generated. */
  function UpdateStep(rows: Rows, cache: Cache, id: PlayerId, amountIn: Option<int>, refIn: Option<string>,
                      kind: TxKind, generatedRef: string, txId: string): (s: UpdateOutcome)
    ensures s.reply == Err(InvalidAmount) <==> amountIn.GetOr(0) <= 0
    ensures s.reply == Err(PlayerNotFound) <==> amountIn.GetOr(0) > 0 && id !in rows
    ensures s.reply == Err(InsufficientBalance) <==>
              amountIn.GetOr(0) > 0 && id in rows && kind == Debit && rows[id].balance < amountIn.GetOr(0)
    ensures s.reply.Ok? <==>
              amountIn.GetOr(0) > 0 && id in rows && (kind == Credit || rows[id].balance >= amountIn.GetOr(0))
    ensures s.reply.Err? ==> s.rows == rows && s.cache == cache
    ensures s.reply.Ok? ==>
              && id in rows && id in s.rows
              && s.rows[id].balance == rows[id].balance + s.reply.value.delta
              && s.rows[id].role == rows[id].role
              && s.reply.value.delta == Delta(kind, amountIn.GetOr(0))
              && s.reply.value.balance == s.rows[id].balance
              && s.reply.value.playerId == id
              && s.reply.value.ref == refIn.GetOr(generatedRef)
              && s.reply.value.txId == txId
              && s.cache == cache - {CacheKey(id)}
    ensures s.rows.Keys == rows.Keys
    ensures forall q :: q in rows && q != id ==> s.rows[q] == rows[q]
    ensures NonNegative(rows) ==> NonNegative(s.rows)
    ensures Coherent(cache, rows) ==> Coherent(s.cache, s.rows)
  {
    var amount := amountIn.GetOr(0);
    var ref := refIn.GetOr(generatedRef);
    if amount <= 0 then
      UpdateOutcome(Err(InvalidAmount), rows, cache)
    else if id !in rows then
      UpdateOutcome(Err(PlayerNotFound), rows, cache)
    else if kind == Debit && rows[id].balance < amount then
      UpdateOutcome(Err(InsufficientBalance), rows, cache)
    else
      var balance := rows[id].balance + Delta(kind, amount);
      var updated := WithBalance(rows, id, balance);
      UpdateOutcome(Ok(Receipt(id, balance, Delta(kind, amount), ref, txId)), updated, cache - {CacheKey(id)})
  }

  /** A credit of `x` followed by a debit of `x` leaves every balance as it
      was, and the two receipts' deltas cancel. */
  lemma CreditThenDebitRestores(rows: Rows, cache: Cache, id: PlayerId, x: int, ref: Option<string>,
                                r1: string, t1: string, r2: string, t2: string)
    requires id in rows && rows[id].balance >= 0 && x > 0
    ensures var c := UpdateStep(rows, cache, id, Some(x), ref, Credit, r1, t1);
            var d := UpdateStep(c.rows, c.cache, id, Some(x), ref, Debit, r2, t2);
            && c.reply.Ok? && d.reply.Ok?
            && c.reply.value.delta + d.reply.value.delta == 0
            && d.rows == rows
            && d.cache == cache - {CacheKey(id)}
  {
    var c := UpdateStep(rows, cache, id, Some(x), ref, Credit, r1, t1);
    var d := UpdateStep(c.rows, c.cache, id, Some(x), ref, Debit, r2, t2);
    assert c.reply.Ok? && c.rows[id].balance == rows[id].balance + x;
    assert d.reply.Ok? && d.rows[id].balance == rows[id].balance;
    assert d.rows[id] == rows[id];
    assert d.rows == rows;
  }

  /** After a successful credit or debit the next balance read misses the
      cache and reports the stored, updated balance from the database, or,
      with a TTL that is not positive, fails on the refused cache write. */
  lemma ReadAfterUpdateComesFromDatabase(rows: Rows, cache: Cache, id: PlayerId, amountIn: Option<int>,
                                         refIn: Option<string>, kind: TxKind, generatedRef: string, txId: string,
                                         ttl: int)
    requires UpdateStep(rows, cache, id, amountIn, refIn, kind, generatedRef, txId).reply.Ok?
    ensures var u := UpdateStep(rows, cache, id, amountIn, refIn, kind, generatedRef, txId);
            var r := ReadStep(u.cache, u.rows, id, ttl);
            && (ttl > 0 ==> r.reply == Ok(BalanceView(id, u.reply.value.balance, FromDatabase)))
            && (ttl <= 0 ==> r.reply == Err(CacheWriteRejected) && r.cache == u.cache)
  {
  }

  /** `n` debits of `amount` applied one after the other. */
  datatype DebitRunOutcome = DebitRunOutcome(rows: Rows, cache: Cache, successes: nat)

  function DebitRun(rows: Rows, cache: Cache, id: PlayerId, amount: int, n: nat): DebitRunOutcome
    decreases n
  {
    if n == 0 then DebitRunOutcome(rows, cache, 0)
    else
      var s := UpdateStep(rows, cache, id, Some(amount), None, Debit, "", "");
      var rest := DebitRun(s.rows, s.cache, id, amount, n - 1);
      DebitRunOutcome(rest.rows, rest.cache, rest.successes + (if s.reply.Ok? then 1 else 0))
  }

  function Min(a: int, b: int): int { if a <= b then a else b }

  /** Of `n` debits of `amount` against a balance `B`, each taken as one
      atomic step, exactly `min(n, B / amount)` succeed and the balance ends
      at `B - amount * successes`, never below zero. */
  lemma {:induction false} SerializedDebits(rows: Rows, cache: Cache, id: PlayerId, amount: int, n: nat)
    requires id in rows && rows[id].balance >= 0 && amount > 0
    ensures var r := DebitRun(rows, cache, id, amount, n);
            && r.successes == Min(n, rows[id].balance / amount)
            && id in r.rows
            && r.rows[id].balance == rows[id].balance - amount * r.successes
            && r.rows[id].balance >= 0
    decreases n
  {
    if n > 0 {
      var b := rows[id].balance;
      var s := UpdateStep(rows, cache, id, Some(amount), None, Debit, "", "");
      var rest := DebitRun(s.rows, s.cache, id, amount, n - 1);
      SerializedDebits(s.rows, s.cache, id, amount, n - 1);
      if b >= amount {
        assert s.reply.Ok? && s.rows[id].balance == b - amount;
        OneMoreSuccess(b, amount, n, rest.successes);
      } else {
        assert s.reply.Err? && s.rows == rows;
        assert b / amount == 0;
      }
    }
  }

  /** The arithmetic of one successful debit followed by `k` more. */
  lemma OneMoreSuccess(b: int, amount: int, n: nat, k: int)
    requires 0 < amount <= b && n > 0
    requires k == Min(n - 1, (b - amount) / amount)
    ensures k + 1 == Min(n, b / amount)
    ensures (b - amount) - amount * k == b - amount * (k + 1)
  {
    DivStep(b, amount);
  }

  /** Taking `a` away from `b >= a` takes one off the quotient `b / a`. */
  lemma DivStep(b: int, a: int)
    requires 0 < a <= b
    ensures (b - a) / a == b / a - 1
  {
    var q, r := b / a, b % a;
    var q', r' := (b - a) / a, (b - a) % a;
    assert a * q + r - a == a * q' + r';
    assert a * (q - 1 - q') == r' - r;
    SmallMultipleIsZero(a, q - 1 - q');
  }

  /** The only multiple of `a` strictly between `-a` and `a` is zero. */
  lemma SmallMultipleIsZero(a: int, k: int)
    requires a > 0 && -a < a * k < a
    ensures k == 0
  {
  }

  /** The framework wallet handlers over the shared table and cache. */
  class WalletController {
    const db: Database
    const redis: Redis
    const cacheTtl: int

    /** `envTtl` is `WALLET_CACHE_TTL`, when set. */
    constructor (db: Database, redis: Redis, envTtl: Option<int>)
      ensures this.db == db && this.redis == redis
      ensures cacheTtl == envTtl.GetOr(DefaultCacheTtl)
    {
      this.db := db;
      this.redis := redis;
      this.cacheTtl := envTtl.GetOr(DefaultCacheTtl);
    }

    method Balance(id: PlayerId) returns (reply: Result<BalanceView>)
      modifies redis
      ensures var s := ReadStep(old(redis.entries), db.rows, id, cacheTtl);
              reply == s.reply && redis.entries == s.cache
    {
      var key := CacheKey(id);
      var cached := redis.Get(key);
      if cached.Some? {
        return Ok(BalanceView(id, cached.value, FromCache));
      }
      var player := db.Find(id);
      if player.None? {
        return Err(PlayerNotFound);
      }
      var stored := redis.SetEx(key, cacheTtl, player.value.balance);
      if !stored {
        return Err(CacheWriteRejected);
      }
      reply := Ok(BalanceView(id, player.value.balance, FromDatabase));
    }

    method CreditRequest(id: PlayerId, amountIn: Option<int>, refIn: Option<string>, generatedRef: string, txId: string)
      returns (reply: Result<Receipt>)
      modifies db, redis
      ensures var s := UpdateStep(old(db.rows), old(redis.entries), id, amountIn, refIn, Credit, generatedRef, txId);
              reply == s.reply && db.rows == s.rows && redis.entries == s.cache
    {
      reply := UpdateBalance(id, amountIn, refIn, Credit, generatedRef, txId);
    }

    method DebitRequest(id: PlayerId, amountIn: Option<int>, refIn: Option<string>, generatedRef: string, txId: string)
      returns (reply: Result<Receipt>)
      modifies db, redis
      ensures var s := UpdateStep(old(db.rows), old(redis.entries), id, amountIn, refIn, Debit, generatedRef, txId);
              reply == s.reply && db.rows == s.rows && redis.entries == s.cache
    {
      reply := UpdateBalance(id, amountIn, refIn, Debit, generatedRef, txId);
    }

    method UpdateBalance(id: PlayerId, amountIn: Option<int>, refIn: Option<string>, kind: TxKind,
                         generatedRef: string, txId: string)
      returns (reply: Result<Receipt>)
      modifies db, redis
      ensures var s := UpdateStep(old(db.rows), old(redis.entries), id, amountIn, refIn, kind, generatedRef, txId);
              reply == s.reply && db.rows == s.rows && redis.entries == s.cache
    {
      var amount := amountIn.GetOr(0);
      var ref := refIn.GetOr(generatedRef);
      if amount <= 0 {
        return Err(InvalidAmount);
      }
      var found := db.Find(id);
      if found.None? {
        return Err(PlayerNotFound);
      }
      var player := found.value;
      if kind == Debit && player.balance < amount {
        return Err(InsufficientBalance);
      }
      if kind == Credit {
        player := player.(balance := player.balance + amount);
      } else {
        player := player.(balance := player.balance - amount);
      }
      db.Save(id, player);
      redis.Del(CacheKey(id));
      reply := Ok(Receipt(id, player.balance, Delta(kind, amount), ref, txId));
    }
  }
}
