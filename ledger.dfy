/** The data both entry points share: the `players` table, the Redis balance
    cache, and the records the handlers reply with. */
module Ledger {

  type PlayerId = string

  datatype Option<T> = None | Some(value: T) {
    /** The value, or `default` when absent (PHP's `$input[...] ?? default`). */
    function GetOr(default: T): T {
      if Some? then value else default
    }
  }

  datatype Role = PlayerRole | AdminRole

  /** One row of the `players` table; `player_id` is the key of `Rows`. */
  datatype Player = Player(role: Role, balance: int)

  type Rows = map<PlayerId, Player>

  /** The failure messages the handlers return with `success: false`. */
  datatype Failure =
    | InvalidAmount                            // "Invalid amount"
    | PlayerNotFound                           // "Player not found"
    | InsufficientBalance                      // "Insufficient balance"
    | BetOutOfRange(minBet: int, maxBet: int)  // "Bet must be between {min} and {max}"
    | InvalidBet                               // "Invalid bet"
    | CacheWriteRejected                       // Redis refuses SETEX with an expiry <= 0; the client throws

  datatype Result<T> = Ok(value: T) | Err(failure: Failure)

  datatype Source = FromCache | FromDatabase

  datatype BalanceView = BalanceView(playerId: PlayerId, balance: int, source: Source)

  datatype TxKind = Credit | Debit

  datatype Receipt = Receipt(playerId: PlayerId, balance: int, delta: int, ref: string, txId: string)

  datatype SpinResult = SpinResult(reels: seq<string>, bet: int, win: int, balance: int, roundId: string)

  datatype SlotConfig = SlotConfig(minBet: int, maxBet: int, symbols: seq<string>, paylines: int, reels: int)

  /** A handler's reply together with the table it leaves behind. */
  datatype Step<T> = Step(reply: Result<T>, rows: Rows)

  /** The balance a lazily created player starts with. */
  const StartingBalance: int := 10000

  /** The signed change a credit or a debit of `amount` makes. */
  function Delta(kind: TxKind, amount: int): (d: int)
    ensures d == amount || d == -amount
    ensures amount > 0 ==> (d > 0 <==> kind == Credit)
  {
    match kind
    case Credit => amount
    case Debit => -amount
  }

  /** `rows` with the balance of `id` replaced and everything else kept. */
  function WithBalance(rows: Rows, id: PlayerId, balance: int): Rows
    requires id in rows
  {
    rows[id := rows[id].(balance := balance)]
  }

  /** No player's balance is negative. */
  ghost predicate NonNegative(rows: Rows) {
    forall id :: id in rows ==> rows[id].balance >= 0
  }

  /** The `players` table, as the handlers read and write it. */
  class Database {
    var rows: Rows

    constructor (rows: Rows)
      ensures this.rows == rows
    {
      this.rows := rows;
    }

    /** `SELECT ... WHERE player_id = ?` / `Player::where(...)->first()`. */
    method Find(id: PlayerId) returns (p: Option<Player>)
      ensures p.Some? <==> id in rows
      ensures p.Some? ==> p.value == rows[id]
    {
      p := if id in rows then Some(rows[id]) else None;
    }

    /** Eloquent's `save()` of a loaded, modified model: an update of the
        existing row. */
    method Save(id: PlayerId, p: Player)
      requires id in rows
      modifies this
      ensures rows == old(rows)[id := p]
    {
      rows := rows[id := p];
    }

    /** `UPDATE players SET balance = balance + ? WHERE player_id = ?`:
        matches no row, and so changes nothing, for an absent id. */
    method AddToBalance(id: PlayerId, delta: int)
      modifies this
      ensures id in old(rows) ==> rows == WithBalance(old(rows), id, old(rows)[id].balance + delta)
      ensures id !in old(rows) ==> rows == old(rows)
    {
      if id in rows {
        rows := WithBalance(rows, id, rows[id].balance + delta);
      }
    }

    /** `INSERT INTO players (player_id, role, balance) VALUES (...)`: adds a
        row for an id the table does not hold yet; it never replaces a row. */
    method Insert(id: PlayerId, p: Player)
      requires id !in rows
      modifies this
      ensures rows == old(rows)[id := p]
    {
      rows := rows[id := p];
    }
  }

  /** A cached balance and the time-to-live it was stored with. */
  datatype CacheEntry = CacheEntry(value: int, ttl: int)

  type Cache = map<string, CacheEntry>

  const CacheKeyPrefix: string := "wallet:balance:"

  /** The Redis key under which a player's balance is cached. */
  function CacheKey(id: PlayerId): string {
    CacheKeyPrefix + id
  }

  /** Distinct players never share a cache entry. */
  lemma CacheKeyInjective(a: PlayerId, b: PlayerId)
    ensures CacheKey(a) == CacheKey(b) ==> a == b
  {
    assert CacheKey(a)[|CacheKeyPrefix|..] == a;
    assert CacheKey(b)[|CacheKeyPrefix|..] == b;
  }

  /** Every cached balance equals the stored balance of its player. */
  ghost predicate Coherent(cache: Cache, rows: Rows) {
    forall id :: CacheKey(id) in cache ==> id in rows && cache[CacheKey(id)].value == rows[id].balance
  }

  /** The Redis store, as the wallet uses it. The TTL is stored but not
      timed: expiry is modelled in `Sessions` as an eviction that may happen
      between any two requests. */
  class Redis {
    var entries: Cache

    constructor (entries: Cache)
      ensures this.entries == entries
    {
      this.entries := entries;
    }

    /** `Redis::get($key)`; `None` plays PHP's `null`. */
    method Get(key: string) returns (v: Option<int>)
      ensures v.Some? <==> key in entries
      ensures v.Some? ==> v.value == entries[key].value
    {
      v := if key in entries then Some(entries[key].value) else None;
    }

    /** `Redis::setex($key, $ttl, $value)`: Redis refuses an expiry that is
        not positive ("invalid expire time") and stores nothing; `ok` is false
        exactly then. */
    method SetEx(key: string, ttl: int, value: int) returns (ok: bool)
      modifies this
      ensures ok <==> ttl > 0
      ensures ok ==> entries == old(entries)[key := CacheEntry(value, ttl)]
      ensures !ok ==> entries == old(entries)
    {
      ok := ttl > 0;
      if ok {
        entries := entries[key := CacheEntry(value, ttl)];
      }
    }

    /** `Redis::del($key)`. */
    method Del(key: string)
      modifies this
      ensures entries == old(entries) - {key}
    {
      entries := entries - {key};
    }
  }
}
