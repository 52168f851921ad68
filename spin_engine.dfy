/** The slot machine's fixed rules, shared by both spin handlers: the
    five-symbol alphabet, the three-reel draw and the payout table. */
module SpinEngine {

  const Cherry: string := "\U{1F352}"
  const Lemon: string := "\U{1F34B}"
  const Grape: string := "\U{1F347}"
  const Diamond: string := "\U{1F48E}"
  const Seven: string := "7\U{FE0F}\U{20E3}"

  /** The alphabet every reel is drawn from, in the order the handlers list it. */
  const Symbols: seq<string> := [Cherry, Lemon, Grape, Diamond, Seven]

  /** The payout multiplier of a three-of-a-kind, per symbol. */
  const Multipliers: map<string, nat> :=
    map[Cherry := 10, Lemon := 15, Grape := 20, Diamond := 50, Seven := 100]

  /** The multiplier of a symbol missing from the table (`?? 10`). */
  const DefaultMultiplier: nat := 10

  const Paylines: int := 5
  const ReelCount: int := 3

  /** A key `array_rand($symbols)` can return. */
  type SymbolIndex = i: nat | i < 5

  /** The random source's three draws, one per reel. */
  type Picks = p: seq<SymbolIndex> | |p| == 3 witness [0, 0, 0]

  /** The five symbols are distinct, so each has exactly one index. */
  lemma SymbolsDistinct()
    ensures forall i, j :: 0 <= i < j < |Symbols| ==> Symbols[i] != Symbols[j]
  {
    assert Cherry[0] != Lemon[0] && Cherry[0] != Grape[0] && Cherry[0] != Diamond[0] && Cherry[0] != Seven[0];
    assert Lemon[0] != Grape[0] && Lemon[0] != Diamond[0] && Lemon[0] != Seven[0];
    assert Grape[0] != Diamond[0] && Grape[0] != Seven[0];
    assert Diamond[0] != Seven[0];
  }

  /** Looks up the multiplier of `symbol`, falling back to the default. */
  function Multiplier(symbol: string): (m: nat)
    ensures m >= DefaultMultiplier
    ensures symbol !in Multipliers ==> m == DefaultMultiplier
  {
    if symbol in Multipliers then Multipliers[symbol] else DefaultMultiplier
  }

  /** The reels shown for three draws. */
  function Draw(picks: Picks): (reels: seq<string>)
    ensures |reels| == ReelCount
    ensures forall i :: 0 <= i < |reels| ==> reels[i] in Symbols
  {
    [Symbols[picks[0]], Symbols[picks[1]], Symbols[picks[2]]]
  }

  /** Every combination of three symbols is an outcome of some draw: the
      reels are independent and drawn with replacement. */
  lemma DrawReachesEveryOutcome(reels: seq<string>)
    requires |reels| == ReelCount
    requires forall i :: 0 <= i < |reels| ==> reels[i] in Symbols
    ensures exists picks: Picks :: Draw(picks) == reels
  {
    var a := IndexOf(reels[0]);
    var b := IndexOf(reels[1]);
    var c := IndexOf(reels[2]);
    var picks: Picks := [a, b, c];
    assert Draw(picks) == reels;
  }

  /** The index of a symbol of the alphabet. */
  function IndexOf(symbol: string): (i: SymbolIndex)
    requires symbol in Symbols
    ensures Symbols[i] == symbol
  {
    if symbol == Cherry then 0
    else if symbol == Lemon then 1
    else if symbol == Grape then 2
    else if symbol == Diamond then 3
    else 4
  }

  /** A drawn reel always has an entry in the payout table, so the default
      multiplier is never used for a spin's reels. */
  lemma DrawnSymbolsArePriced(picks: Picks)
    ensures forall i :: 0 <= i < ReelCount ==> Draw(picks)[i] in Multipliers
  {
    var reels := Draw(picks);
    forall i | 0 <= i < ReelCount
      ensures reels[i] in Multipliers
    {
      assert reels[i] in Symbols;
    }
  }

  /** All three reels show the same symbol. */
  predicate AllMatch(reels: seq<string>)
    requires |reels| == ReelCount
  {
    reels[0] == reels[1] && reels[1] == reels[2]
  }

  /** The win of a spin with stake `bet`. */
  function Payout(reels: seq<string>, bet: int): (win: int)
    requires |reels| == ReelCount
    ensures !AllMatch(reels) ==> win == 0
    ensures AllMatch(reels) ==> win == bet * Multiplier(reels[0])
    ensures bet >= 0 ==> win >= 0
    ensures bet > 0 ==> (win > 0 <==> AllMatch(reels))
    ensures bet >= 0 && AllMatch(reels) ==> win >= DefaultMultiplier * bet
  {
    if AllMatch(reels) then
      var m := Multiplier(reels[0]);
      MulMonotone(bet, m);
      bet * m
    else
      0
  }

  /** `bet * m` lies at or above `bet * 10` when `m >= 10`. */
  lemma MulMonotone(bet: int, m: nat)
    requires m >= DefaultMultiplier
    ensures bet >= 0 ==> bet * m >= DefaultMultiplier * bet
    ensures bet > 0 ==> bet * m > 0
  {
    if bet >= 0 {
      assert bet * m == bet * DefaultMultiplier + bet * (m - DefaultMultiplier);
    }
  }

  /** The payout table: a three-of-a-kind of each symbol pays its multiple. */
  lemma PayoutTable(bet: int)
    ensures Payout([Cherry, Cherry, Cherry], bet) == 10 * bet
    ensures Payout([Lemon, Lemon, Lemon], bet) == 15 * bet
    ensures Payout([Grape, Grape, Grape], bet) == 20 * bet
    ensures Payout([Diamond, Diamond, Diamond], bet) == 50 * bet
    ensures Payout([Seven, Seven, Seven], bet) == 100 * bet
  {
  }
}
