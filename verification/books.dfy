/** The bookkeeping the contract's aggregate records are meant to agree with:
    a round's counters and totals, and its `ROUNDDENOMBET` entries, are sums
    over the individual bets stored under that round's name. */
module Books {
  import opened State
  import opened Contract

  /** What a sum over a round's bets counts. */
  datatype Measure =
    | BetsOn(side: Side)      // number of bets on a side
    | StakeOn(side: Side)     // stake placed on a side
    | StakeIn(denom: Denom)   // stake placed in a denomination

  /** What one stored bet contributes to the measure of round `name`. */
  function Weigh(name: string, m: Measure, k: BetKey, b: Bet): nat {
    if k.0 != name then 0
    else match m
      case BetsOn(side) => if b.side == side then 1 else 0
      case StakeOn(side) => if b.side == side then b.amount else 0
      case StakeIn(d) => if b.denom == d then b.amount else 0
  }

  /** Some stored bet's key: the order in which `Total` visits the bets. */
  ghost function Pick(bets: map<BetKey, Bet>): (k: BetKey)
    requires |bets| != 0
    ensures k in bets
  {
    var k :| k in bets; k
  }

  /** The measure `m` summed over the bets of round `name`. */
  ghost function Total(bets: map<BetKey, Bet>, name: string, m: Measure): nat
    decreases |bets|
  {
    if |bets| == 0 then 0
    else
      var k := Pick(bets);
      Weigh(name, m, k, bets[k]) + Total(bets - {k}, name, m)
  }

  lemma {:induction false} TotalRemove(bets: map<BetKey, Bet>, name: string, m: Measure, k: BetKey)
    requires k in bets
    ensures Total(bets, name, m) == Weigh(name, m, k, bets[k]) + Total(bets - {k}, name, m)
    decreases |bets|
  {
    var j := Pick(bets);
    if j != k {
      var withoutJ, withoutK := bets - {j}, bets - {k};
      assert k in withoutJ && withoutJ[k] == bets[k];
      assert j in withoutK && withoutK[j] == bets[j];
      assert |withoutJ| < |bets| && |withoutK| < |bets| by {
        assert withoutJ.Keys < bets.Keys && withoutK.Keys < bets.Keys;
      }
      TotalRemove(withoutJ, name, m, k);
      TotalRemove(withoutK, name, m, j);
      assert withoutJ - {k} == withoutK - {j};
    }
  }

  lemma TotalInsert(bets: map<BetKey, Bet>, name: string, m: Measure, k: BetKey, b: Bet)
    requires k !in bets
    ensures Total(bets[k := b], name, m) == Total(bets, name, m) + Weigh(name, m, k, b)
  {
    TotalRemove(bets[k := b], name, m, k);
    assert bets[k := b] - {k} == bets;
  }

  lemma TotalUpdate(bets: map<BetKey, Bet>, name: string, m: Measure, k: BetKey, b: Bet)
    requires k in bets
    ensures Total(bets[k := b], name, m) + Weigh(name, m, k, bets[k]) == Total(bets, name, m) + Weigh(name, m, k, b)
  {
    TotalRemove(bets[k := b], name, m, k);
    TotalRemove(bets, name, m, k);
    assert bets[k := b] - {k} == bets - {k};
  }

  lemma {:induction false} TotalZero(bets: map<BetKey, Bet>, name: string, m: Measure)
    requires forall k :: k in bets ==> Weigh(name, m, k, bets[k]) == 0
    ensures Total(bets, name, m) == 0
    decreases |bets|
  {
    if |bets| != 0 {
      var k :| k in bets;
      TotalRemove(bets, name, m, k);
      TotalZero(bets - {k}, name, m);
    }
  }

  /** Every measure after a new bet is stored: the new bet's weight is added. */
  lemma TotalsAfterInsert(bets: map<BetKey, Bet>, k: BetKey, b: Bet)
    requires k !in bets
    ensures forall name, m :: Total(bets[k := b], name, m) == Total(bets, name, m) + Weigh(name, m, k, b)
  {
    forall name, m ensures Total(bets[k := b], name, m) == Total(bets, name, m) + Weigh(name, m, k, b) {
      TotalInsert(bets, name, m, k, b);
    }
  }

  /** Every measure after a bet is deleted: its weight is taken off. */
  lemma TotalsAfterRemove(bets: map<BetKey, Bet>, k: BetKey)
    requires k in bets
    ensures forall name, m :: Total(bets - {k}, name, m) + Weigh(name, m, k, bets[k]) == Total(bets, name, m)
  {
    forall name, m ensures Total(bets - {k}, name, m) + Weigh(name, m, k, bets[k]) == Total(bets, name, m) {
      TotalRemove(bets, name, m, k);
    }
  }

  /** Replacing a bet by one of the same side, stake and denomination (as
      marking it claimed does) leaves every measure as it was. */
  lemma TotalsAfterRelabel(bets: map<BetKey, Bet>, k: BetKey, b: Bet)
    requires k in bets
    requires b.side == bets[k].side && b.amount == bets[k].amount && b.denom == bets[k].denom
    ensures forall name, m :: Total(bets[k := b], name, m) == Total(bets, name, m)
  {
    forall name, m ensures Total(bets[k := b], name, m) == Total(bets, name, m) {
      TotalUpdate(bets, name, m, k, b);
    }
  }

  // ---------------------------------------------------------------------
  // The invariant

  /** The lifecycle facts of a stored round: its window is fixed at
      creation, and the start (stop) flag, timestamp and price are set
      together. */
  predicate Lifecycle(r: Round) {
    && r.stopTime == r.startTime + ROUND_DURATION
    && (r.isStarted <==> r.startedAt.Some?)
    && (r.isStarted <==> r.startPrice.Some?)
    && (r.isStopped <==> r.stoppedAt.Some?)
    && (r.isStopped <==> r.stopPrice.Some?)
  }

  /** A stored bet of round `name` is filed: its denomination is in the
      round's `bet_denoms` and has a `ROUNDDENOMBET` entry, and it can only
      have been claimed once the round has a start price. */
  predicate BetFiled(s: Storage, name: string, b: Bet)
    requires name in s.rounds
  {
    && b.denom in s.rounds[name].betDenoms
    && (name, b.denom) in s.roundDenomBets
    && (b.winClaimed ==> s.rounds[name].isStarted)
  }

  /** The bookkeeping of round `name`: per-side counts and stakes are sums
      over its bets, the totals are the sums of the sides, each
      `ROUNDDENOMBET` entry is the round's stake in that denomination, and
      `bet_denoms` has no repeats. */
  ghost predicate RoundBooks(s: Storage, name: string)
    requires name in s.rounds
  {
    var r := s.rounds[name];
    && r.upBetsCount == Total(s.bets, name, BetsOn(Up))
    && r.downBetsCount == Total(s.bets, name, BetsOn(Down))
    && r.totalUpBetAmount == Total(s.bets, name, StakeOn(Up))
    && r.totalDownBetAmount == Total(s.bets, name, StakeOn(Down))
    && r.totalBetAmount == r.totalUpBetAmount + r.totalDownBetAmount
    && r.participantsCount == r.upBetsCount + r.downBetsCount
    && NoDuplicates(r.betDenoms)
    && (forall d :: (name, d) in s.roundDenomBets ==>
          s.roundDenomBets[(name, d)] == Total(s.bets, name, StakeIn(d)))
    && (forall u :: (name, u) in s.bets ==> BetFiled(s, name, s.bets[(name, u)]))
  }

  /** The contract's store invariant: every bet and every per-denomination
      total belongs to a stored round, and every round keeps its lifecycle
      and its books. */
  ghost predicate Inv(s: Storage) {
    && (forall k :: k in s.bets ==> k.0 in s.rounds)
    && (forall k :: k in s.roundDenomBets ==> k.0 in s.rounds)
    && (forall name :: name in s.rounds ==> Lifecycle(s.rounds[name]) && RoundBooks(s, name))
  }

  /** The empty store (as `instantiate` leaves it) satisfies the invariant. */
  lemma InitialInv(cfg: Config)
    ensures Inv(Storage(cfg, map[], map[], map[], map[]))
  {
  }

  /** Under the invariant, a round's total in a denomination is the sum of
      its bets' stakes in it, whether or not it has an entry. */
  lemma RoundDenomTotalIsSum(s: Storage, name: string, d: Denom)
    requires Inv(s) && name in s.rounds
    ensures RoundDenomTotal(s, name, d) == Total(s.bets, name, StakeIn(d))
  {
    if (name, d) !in s.roundDenomBets {
      forall k | k in s.bets ensures Weigh(name, StakeIn(d), k, s.bets[k]) == 0 {
        if k.0 == name {
          assert BetFiled(s, name, s.bets[(name, k.1)]);
        }
      }
      TotalZero(s.bets, name, StakeIn(d));
    }
  }
}
