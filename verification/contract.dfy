/** The execute handlers of the prediction-game contract (src/contract.rs),
    each as a pure transition of the whole store.

    A handler either returns a domain error and leaves the store untouched,
    or returns the new store together with the bank payment orders it emits.
    `Abort` is a Rust panic (an `unwrap` of a missing price, a division by
    zero, an integer overflow or underflow): the host reverts the whole
    transaction, so it too leaves the store untouched. */
module Contract {
  import opened State
  import opened Errors

  datatype Coin = Coin(denom: Denom, amount: U128)

  /** A `BankMsg::Send` payment order: the contract emits it, the bank module
      executes it. */
  datatype BankSend = BankSend(toAddress: Addr, amount: seq<Coin>)

  datatype Outcome =
    | Ok(store: Storage, messages: seq<BankSend>)
    | Err(error: ContractError)
    | Abort

  /** A round must be created at least five minutes before it starts. */
  const MIN_LEAD_TIME: nat := 300
  /** A round's stop time is five minutes after its start time. */
  const ROUND_DURATION: nat := 300
  /** Share of each denomination's stake skimmed into the treasury at stop. */
  const TREASURY_FEE_PERCENT: nat := 15
  /** Share of the stakes meant to be distributed to winners. */
  const SHARABLE_PERCENT: nat := 85
  /** Share of the stake a sole winning participant is meant to receive. */
  const SOLE_WINNER_PERCENT: nat := 20

  /** `amount * pct / 100`, multiplying first (the skim in `stop_round`). */
  function Percent(amount: nat, pct: nat): (r: nat)
    ensures pct <= 100 ==> r <= amount
  {
    assert pct <= 100 ==> amount * pct <= amount * 100;
    amount * pct / 100
  }

  /** `pct / 100 * amount`, dividing first, as `claim_win` writes its
      percentages: for every percentage below 100 it is zero. */
  function PercentTruncated(amount: U128, pct: nat): (r: U128)
    requires pct < 100
    ensures r == 0
  {
    pct / 100 * amount
  }

  // ---------------------------------------------------------------------
  // Admin gate and config updates

  /** `sender_is_admin`: the sender is listed in the config's admins. */
  function SenderIsAdmin(s: Storage, sender: Addr): (r: bool)
    ensures r <==> sender in s.config.admins
  {
    IsAdmin(s.config, sender)
  }

  function UpdateAdmins(s: Storage, sender: Addr, admins: seq<Addr>): (r: Outcome)
    ensures r.Ok? <==> sender in s.config.admins
    ensures r.Err? <==> sender !in s.config.admins
    ensures r.Err? ==> r.error == Unauthorized
    ensures r.Ok? ==> r.messages == [] && r.store.config.admins == admins
    ensures r.Ok? ==> r.store == s.(config := s.config.(admins := r.store.config.admins))
  {
    if !SenderIsAdmin(s, sender) then Err(Unauthorized)
    else Ok(s.(config := s.config.(admins := admins)), [])
  }

  function UpdateAssetDenom(s: Storage, sender: Addr, assetDenom: Denom): (r: Outcome)
    ensures r.Ok? <==> sender in s.config.admins
    ensures r.Err? <==> sender !in s.config.admins
    ensures r.Err? ==> r.error == Unauthorized
    ensures r.Ok? ==> r.messages == [] && r.store.config.assetDenom == assetDenom
    ensures r.Ok? ==> r.store == s.(config := s.config.(assetDenom := r.store.config.assetDenom))
  {
    if !SenderIsAdmin(s, sender) then Err(Unauthorized)
    else Ok(s.(config := s.config.(assetDenom := assetDenom)), [])
  }

  function UpdateAcceptedBetDenoms(s: Storage, sender: Addr, denoms: seq<Denom>): (r: Outcome)
    ensures r.Ok? <==> sender in s.config.admins
    ensures r.Err? <==> sender !in s.config.admins
    ensures r.Err? ==> r.error == Unauthorized
    ensures r.Ok? ==> r.messages == [] && r.store.config.acceptedBetDenoms == denoms
    ensures r.Ok? ==> r.store == s.(config := s.config.(acceptedBetDenoms := r.store.config.acceptedBetDenoms))
  {
    if !SenderIsAdmin(s, sender) then Err(Unauthorized)
    else Ok(s.(config := s.config.(acceptedBetDenoms := denoms)), [])
  }

  // ---------------------------------------------------------------------
  // Round registry

  /** A round as `create_round` stores it: scheduled, with no bets, no
      prices, and every flag down. */
  predicate IsFreshRound(r: Round, now: U64, creator: Addr, startTime: U64) {
    && r.createdAt == now && r.creator == creator
    && r.startTime == startTime && r.stopTime == startTime + ROUND_DURATION
    && !r.isStarted && r.startedAt == None && r.startPrice == None
    && !r.isStopped && r.stoppedAt == None && r.stopPrice == None
    && r.participantsCount == 0 && r.upBetsCount == 0 && r.downBetsCount == 0
    && r.totalBetAmount == 0 && r.totalUpBetAmount == 0 && r.totalDownBetAmount == 0
    && r.totalWithdrawnAmount == 0
    && r.betDenoms == [] && !r.feesClaimed
  }

  /** `execute_create_round`. Anyone may create a round. */
  function CreateRound(s: Storage, sender: Addr, now: U64, startTime: U64, name: string): (r: Outcome)
    ensures r == Err(InvalidStartTime) <==> now + MIN_LEAD_TIME <= U64_MAX && startTime < now + MIN_LEAD_TIME
    ensures r == Err(RoundAlreadyExists) <==>
      now + MIN_LEAD_TIME <= startTime && startTime + ROUND_DURATION <= U64_MAX && name in s.rounds
    ensures r.Ok? <==>
      now + MIN_LEAD_TIME <= startTime && startTime + ROUND_DURATION <= U64_MAX && name !in s.rounds
    ensures r.Abort? <==>
      now + MIN_LEAD_TIME > U64_MAX || (now + MIN_LEAD_TIME <= startTime && startTime + ROUND_DURATION > U64_MAX)
    ensures r.Ok? ==>
      && r.messages == []
      && name in r.store.rounds
      && r.store.rounds == s.rounds[name := r.store.rounds[name]]
      && IsFreshRound(r.store.rounds[name], now, sender, startTime)
      && r.store == s.(rounds := r.store.rounds)
  {
    if now + MIN_LEAD_TIME > U64_MAX then Abort
    else if startTime < now + MIN_LEAD_TIME then Err(InvalidStartTime)
    else if startTime + ROUND_DURATION > U64_MAX then Abort
    else if name in s.rounds then Err(RoundAlreadyExists)
    else
      var round := Round(
        createdAt := now, creator := sender,
        isStarted := false, startedAt := None,
        isStopped := false, stoppedAt := None,
        startTime := startTime, stopTime := startTime + ROUND_DURATION,
        participantsCount := 0, upBetsCount := 0, downBetsCount := 0,
        totalBetAmount := 0, totalUpBetAmount := 0, totalDownBetAmount := 0,
        totalWithdrawnAmount := 0,
        startPrice := None, stopPrice := None,
        betDenoms := [], feesClaimed := false);
      Ok(s.(rounds := s.rounds[name := round]), [])
  }

  /** `execute_start_round`; `rate` is the oracle's current exchange rate of
      the configured asset. */
  function StartRound(s: Storage, sender: Addr, now: U64, name: string, rate: Price): (r: Outcome)
    ensures r == Err(Unauthorized) <==> sender !in s.config.admins
    ensures r == Err(RoundDoesNotExist) <==> sender in s.config.admins && name !in s.rounds
    ensures r == Err(RoundAlreadyStarted) <==>
      sender in s.config.admins && name in s.rounds && s.rounds[name].isStarted
    ensures r == Err(RoundStopTimePassed) <==>
      sender in s.config.admins && name in s.rounds && !s.rounds[name].isStarted
      && now > s.rounds[name].stopTime
    ensures r.Ok? <==>
      sender in s.config.admins && name in s.rounds && !s.rounds[name].isStarted
      && now <= s.rounds[name].stopTime
    ensures r.Ok? ==>
      && r.messages == []
      && r.store == s.(rounds := s.rounds[name :=
           s.rounds[name].(isStarted := true, startedAt := Some(now), startPrice := Some(rate))])
  {
    if !SenderIsAdmin(s, sender) then Err(Unauthorized)
    else if name !in s.rounds then Err(RoundDoesNotExist)
    else
      var round := s.rounds[name];
      if round.isStarted then Err(RoundAlreadyStarted)
      else if now > round.stopTime then Err(RoundStopTimePassed)
      else
        var started := round.(isStarted := true, startedAt := Some(now), startPrice := Some(rate));
        Ok(s.(rounds := s.rounds[name := started]), [])
  }

  /** The treasury balance of `d`, if the pool has an entry for it. */
  function PoolEntry(pool: map<Denom, U128>, d: Denom): Option<nat> {
    if d in pool then Some(pool[d]) else None
  }

  function PoolBalance(pool: map<Denom, U128>, d: Denom): nat {
    if d in pool then pool[d] else 0
  }

  /** Whether the skim of round `name`'s stake in `d` fits in a `u128`, both
      the product `amount * 15` and the new pool balance. */
  predicate SkimFits(pool: map<Denom, U128>, rdb: map<RoundDenomKey, U128>, name: string, d: Denom) {
    (name, d) in rdb ==>
      && rdb[(name, d)] * TREASURY_FEE_PERCENT <= U128_MAX
      && PoolBalance(pool, d) + Percent(rdb[(name, d)], TREASURY_FEE_PERCENT) <= U128_MAX
  }

  /** The pool entry of `d` after the fee of round `name` is skimmed once:
      15% of the round's stake in `d` is added, creating the entry when
      absent; a denomination without stake keeps its entry. */
  function Skimmed(pool: map<Denom, U128>, rdb: map<RoundDenomKey, U128>, name: string, d: Denom): Option<nat> {
    if (name, d) in rdb then Some(PoolBalance(pool, d) + Percent(rdb[(name, d)], TREASURY_FEE_PERCENT))
    else PoolEntry(pool, d)
  }

  /** The fee-skimming loop of `execute_stop_round`, one denomination at a
      time in `bet_denoms` order; `None` is an arithmetic overflow. */
  function SkimFees(pool: map<Denom, U128>, rdb: map<RoundDenomKey, U128>, name: string, denoms: seq<Denom>)
    : (r: Option<map<Denom, U128>>)
    decreases |denoms|
    ensures r.Some? ==> forall d :: d !in denoms ==> PoolEntry(r.value, d) == PoolEntry(pool, d)
    ensures NoDuplicates(denoms) ==>
      (r.Some? <==> forall d :: d in denoms ==> SkimFits(pool, rdb, name, d))
    ensures NoDuplicates(denoms) && r.Some? ==>
      forall d :: d in denoms ==> PoolEntry(r.value, d) == Skimmed(pool, rdb, name, d)
  {
    if |denoms| == 0 then Some(pool)
    else
      var d := denoms[0];
      assert NoDuplicates(denoms) ==> NoDuplicates(denoms[1..]) && d !in denoms[1..] by {
        if NoDuplicates(denoms) {
          forall i | 0 <= i < |denoms[1..]| ensures denoms[1..][i] != d {
            assert denoms[1..][i] == denoms[i + 1];
          }
        }
      }
      if (name, d) !in rdb then SkimFees(pool, rdb, name, denoms[1..])
      else
        var amount := rdb[(name, d)];
        if amount * TREASURY_FEE_PERCENT > U128_MAX then
          assert denoms[0] in denoms && !SkimFits(pool, rdb, name, d);
          None
        else
          var balance := PoolBalance(pool, d) + Percent(amount, TREASURY_FEE_PERCENT);
          if balance > U128_MAX then
            assert denoms[0] in denoms && !SkimFits(pool, rdb, name, d);
            None
          else
            var pool' := pool[d := balance];
            assert forall e :: e != d ==>
              && PoolEntry(pool', e) == PoolEntry(pool, e)
              && SkimFits(pool', rdb, name, e) == SkimFits(pool, rdb, name, e)
              && Skimmed(pool', rdb, name, e) == Skimmed(pool, rdb, name, e);
            SkimFees(pool', rdb, name, denoms[1..])
  }

  /** `execute_stop_round`; `rate` is the oracle's current exchange rate.
      The fee skim happens whatever the start and stop prices are. */
  function StopRound(s: Storage, sender: Addr, now: U64, name: string, rate: Price): (r: Outcome)
    ensures r == Err(Unauthorized) <==> sender !in s.config.admins
    ensures r == Err(RoundDoesNotExist) <==> sender in s.config.admins && name !in s.rounds
    ensures r == Err(RoundAlreadyEnded) <==>
      sender in s.config.admins && name in s.rounds && s.rounds[name].isStopped
    ensures r == Err(RoundStillInProgress) <==>
      sender in s.config.admins && name in s.rounds && !s.rounds[name].isStopped
      && now < s.rounds[name].stopTime
    ensures r.Ok? || r.Abort? ==>
      sender in s.config.admins && name in s.rounds && !s.rounds[name].isStopped
      && now >= s.rounds[name].stopTime
    ensures r.Ok? ==>
      && r.messages == []
      && r.store.rounds == s.rounds[name :=
           s.rounds[name].(isStopped := true, stoppedAt := Some(now), stopPrice := Some(rate))]
      && r.store == s.(rounds := r.store.rounds, treasuryPool := r.store.treasuryPool)
      && (forall d :: d !in s.rounds[name].betDenoms ==>
            PoolEntry(r.store.treasuryPool, d) == PoolEntry(s.treasuryPool, d))
    ensures sender in s.config.admins && name in s.rounds && !s.rounds[name].isStopped
            && now >= s.rounds[name].stopTime && NoDuplicates(s.rounds[name].betDenoms) ==>
      && !r.Err?
      && (r.Ok? <==> forall d :: d in s.rounds[name].betDenoms ==>
                       SkimFits(s.treasuryPool, s.roundDenomBets, name, d))
    ensures name in s.rounds && NoDuplicates(s.rounds[name].betDenoms) && r.Ok? ==>
      forall d :: d in s.rounds[name].betDenoms ==>
        PoolEntry(r.store.treasuryPool, d) == Skimmed(s.treasuryPool, s.roundDenomBets, name, d)
  {
    if !SenderIsAdmin(s, sender) then Err(Unauthorized)
    else if name !in s.rounds then Err(RoundDoesNotExist)
    else
      var round := s.rounds[name];
      if round.isStopped then Err(RoundAlreadyEnded)
      else if now < round.stopTime then Err(RoundStillInProgress)
      else
        var stopped := round.(isStopped := true, stoppedAt := Some(now), stopPrice := Some(rate));
        match SkimFees(s.treasuryPool, s.roundDenomBets, name, round.betDenoms)
        case None => Abort
        case Some(pool) => Ok(s.(rounds := s.rounds[name := stopped], treasuryPool := pool), [])
  }

  // ---------------------------------------------------------------------
  // Bet ledger

  /** `ROUNDDENOMBET[(name, denom)]`, zero when there is no entry. */
  function RoundDenomTotal(s: Storage, name: string, denom: Denom): nat {
    if (name, denom) in s.roundDenomBets then s.roundDenomBets[(name, denom)] else 0
  }

  function SideCount(round: Round, side: Side): nat {
    match side
    case Up => round.upBetsCount
    case Down => round.downBetsCount
  }

  function SideTotal(round: Round, side: Side): nat {
    match side
    case Up => round.totalUpBetAmount
    case Down => round.totalDownBetAmount
  }

  /** All the checks `execute_place_bet` makes before it writes anything. */
  predicate BetAdmissible(s: Storage, sender: Addr, now: U64, funds: seq<Coin>, roundName: string) {
    && |funds| == 1
    && funds[0].denom in s.config.acceptedBetDenoms
    && roundName in s.rounds
    && !(s.rounds[roundName].startTime < now && s.rounds[roundName].isStarted)
    && (roundName, sender) !in s.bets
  }

  /** `s'` is `s` with `bet` recorded for `sender` in round `name`: the bet
      is new, the round's counters for its side, its total and its
      participant count grow by the stake and by one, its denomination joins
      `bet_denoms` if new, and the round's total in that denomination grows
      by the stake. Nothing else changes. */
  ghost predicate BetRecorded(s: Storage, s': Storage, name: string, sender: Addr, bet: Bet) {
    && name in s.rounds && name in s'.rounds
    && (name, sender) !in s.bets
    && s'.bets == s.bets[(name, sender) := bet]
    && s'.rounds == s.rounds[name := s'.rounds[name]]
    && var r0, r1 := s.rounds[name], s'.rounds[name];
    && SideCount(r1, bet.side) == SideCount(r0, bet.side) + 1
    && SideTotal(r1, bet.side) == SideTotal(r0, bet.side) + bet.amount
    && r1.totalBetAmount == r0.totalBetAmount + bet.amount
    && r1.participantsCount == r0.participantsCount + 1
    && r1.betDenoms == (if bet.denom in r0.betDenoms then r0.betDenoms else r0.betDenoms + [bet.denom])
    && r1 == r0.(upBetsCount := r1.upBetsCount, downBetsCount := r1.downBetsCount,
                 totalUpBetAmount := r1.totalUpBetAmount, totalDownBetAmount := r1.totalDownBetAmount,
                 totalBetAmount := r1.totalBetAmount, participantsCount := r1.participantsCount,
                 betDenoms := r1.betDenoms)
    && (bet.side == Up ==> r1.downBetsCount == r0.downBetsCount && r1.totalDownBetAmount == r0.totalDownBetAmount)
    && (bet.side == Down ==> r1.upBetsCount == r0.upBetsCount && r1.totalUpBetAmount == r0.totalUpBetAmount)
    && (name, bet.denom) in s'.roundDenomBets
    && s'.roundDenomBets == s.roundDenomBets[(name, bet.denom) := s'.roundDenomBets[(name, bet.denom)]]
    && s'.roundDenomBets[(name, bet.denom)] == RoundDenomTotal(s, name, bet.denom) + bet.amount
    && s'.treasuryPool == s.treasuryPool
    && s'.config == s.config
  }

  /** Whether recording a bet of `coin` on `side` would take one of round
      `name`'s counters, or its total in the coin's denomination, past
      `u128::MAX`. */
  predicate RecordOverflows(s: Storage, name: string, coin: Coin, side: Side)
    requires name in s.rounds
  {
    var round := s.rounds[name];
    || SideCount(round, side) + 1 > U128_MAX
    || SideTotal(round, side) + coin.amount > U128_MAX
    || RoundDenomTotal(s, name, coin.denom) + coin.amount > U128_MAX
    || round.totalBetAmount + coin.amount > U128_MAX
    || round.participantsCount + 1 > U128_MAX
  }

  /** The writes of `execute_place_bet` once every check has passed; a
      counter that would exceed `u128` panics. */
  function RecordBet(s: Storage, sender: Addr, now: U64, coin: Coin, side: Side, roundName: string): (r: Outcome)
    requires roundName in s.rounds && (roundName, sender) !in s.bets
    ensures r.Ok? || r.Abort?
    ensures r.Ok? ==> r.messages == [] && BetRecorded(s, r.store, roundName, sender, Bet(side, coin.amount, coin.denom, false, now))
    ensures r.Abort? <==> RecordOverflows(s, roundName, coin, side)
    ensures !r.Err?
  {
    var round := s.rounds[roundName];
    var amount := coin.amount;
    if || SideCount(round, side) + 1 > U128_MAX
       || SideTotal(round, side) + amount > U128_MAX
       || RoundDenomTotal(s, roundName, coin.denom) + amount > U128_MAX
       || round.totalBetAmount + amount > U128_MAX
       || round.participantsCount + 1 > U128_MAX
    then Abort
    else Ok(BetStored(s, sender, now, coin, side, roundName), [])
  }

  /** `round` with one more bet of `amount` on `side`: that side's count
      and stake grow, the other side and every other field stay. */
  function CountBet(round: Round, side: Side, amount: U128): (r: Round)
    requires SideCount(round, side) + 1 <= U128_MAX && SideTotal(round, side) + amount <= U128_MAX
    ensures SideCount(r, side) == SideCount(round, side) + 1
    ensures SideTotal(r, side) == SideTotal(round, side) + amount
    ensures side == Up ==> r.downBetsCount == round.downBetsCount && r.totalDownBetAmount == round.totalDownBetAmount
    ensures side == Down ==> r.upBetsCount == round.upBetsCount && r.totalUpBetAmount == round.totalUpBetAmount
    ensures r == round.(upBetsCount := r.upBetsCount, downBetsCount := r.downBetsCount,
                        totalUpBetAmount := r.totalUpBetAmount, totalDownBetAmount := r.totalDownBetAmount)
  {
    match side
    case Up => round.(upBetsCount := round.upBetsCount + 1,
                      totalUpBetAmount := round.totalUpBetAmount + amount)
    case Down => round.(downBetsCount := round.downBetsCount + 1,
                        totalDownBetAmount := round.totalDownBetAmount + amount)
  }

  /** The store once a bet that overflows nothing is written: the bet, the
      round's updated counters and `bet_denoms`, and the round's new total in
      the coin's denomination. */
  function BetStored(s: Storage, sender: Addr, now: U64, coin: Coin, side: Side, roundName: string): (r: Storage)
    requires roundName in s.rounds && (roundName, sender) !in s.bets
    requires !RecordOverflows(s, roundName, coin, side)
    ensures BetRecorded(s, r, roundName, sender, Bet(side, coin.amount, coin.denom, false, now))
  {
    var round := s.rounds[roundName];
    var amount := coin.amount;
    var denomTotal := RoundDenomTotal(s, roundName, coin.denom);
    var denoms := if Contains(round.betDenoms, coin.denom) then round.betDenoms
                  else round.betDenoms + [coin.denom];
    var counted := CountBet(round, side, amount);
    var updated := counted.(betDenoms := denoms,
                            totalBetAmount := round.totalBetAmount + amount,
                            participantsCount := round.participantsCount + 1);
    s.(bets := s.bets[(roundName, sender) := Bet(side, amount, coin.denom, false, now)],
       rounds := s.rounds[roundName := updated],
       roundDenomBets := s.roundDenomBets[(roundName, coin.denom) := denomTotal + amount])
  }

  /** `execute_place_bet`: the sender stakes the one coin they sent on
      `side`. There is no check that the round has stopped. */
  function PlaceBet(s: Storage, sender: Addr, now: U64, funds: seq<Coin>, side: Side, roundName: string): (r: Outcome)
    ensures r == Err(NoCoinsSent) <==> |funds| == 0
    ensures r == Err(TooManyCoins) <==> |funds| > 1
    ensures r == Err(DenomNotSupported) <==>
      |funds| == 1 && funds[0].denom !in s.config.acceptedBetDenoms
    ensures r == Err(RoundDoesNotExist) <==>
      |funds| == 1 && funds[0].denom in s.config.acceptedBetDenoms && roundName !in s.rounds
    ensures r == Err(RoundAlreadyStarted) <==>
      |funds| == 1 && funds[0].denom in s.config.acceptedBetDenoms && roundName in s.rounds
      && s.rounds[roundName].startTime < now && s.rounds[roundName].isStarted
    ensures r == Err(BetAlreadyPlaced) <==>
      |funds| == 1 && funds[0].denom in s.config.acceptedBetDenoms && roundName in s.rounds
      && !(s.rounds[roundName].startTime < now && s.rounds[roundName].isStarted)
      && (roundName, sender) in s.bets
    ensures r.Ok? || r.Abort? <==> BetAdmissible(s, sender, now, funds, roundName)
    ensures BetAdmissible(s, sender, now, funds, roundName) ==>
      (r.Abort? <==> RecordOverflows(s, roundName, funds[0], side))
    ensures r.Ok? ==>
      && r.messages == []
      && BetRecorded(s, r.store, roundName, sender, Bet(side, funds[0].amount, funds[0].denom, false, now))
  {
    if |funds| < 1 then Err(NoCoinsSent)
    else if |funds| > 1 then Err(TooManyCoins)
    else
      var coin := funds[0];
      if !Contains(s.config.acceptedBetDenoms, coin.denom) then Err(DenomNotSupported)
      else if roundName !in s.rounds then Err(RoundDoesNotExist)
      else
        var round := s.rounds[roundName];
        if round.startTime < now && round.isStarted then Err(RoundAlreadyStarted)
        else if (roundName, sender) in s.bets then Err(BetAlreadyPlaced)
        else RecordBet(s, sender, now, coin, side, roundName)
  }

  /** `s'` is `s` with `sender`'s bet in round `name` undone: the bet is
      deleted, the round's counters for its side, its total and its
      participant count shrink by the stake and by one, and the round's
      total in the bet's denomination shrinks by the stake if it has an
      entry. `bet_denoms` and everything else is left as it was. */
  ghost predicate BetUndone(s: Storage, s': Storage, name: string, sender: Addr) {
    && name in s.rounds && name in s'.rounds
    && (name, sender) in s.bets
    && var bet := s.bets[(name, sender)];
    && s'.bets == s.bets - {(name, sender)}
    && s'.rounds == s.rounds[name := s'.rounds[name]]
    && var r0, r1 := s.rounds[name], s'.rounds[name];
    && SideCount(r1, bet.side) + 1 == SideCount(r0, bet.side)
    && SideTotal(r1, bet.side) + bet.amount == SideTotal(r0, bet.side)
    && r1.totalBetAmount + bet.amount == r0.totalBetAmount
    && r1.participantsCount + 1 == r0.participantsCount
    && r1 == r0.(upBetsCount := r1.upBetsCount, downBetsCount := r1.downBetsCount,
                 totalUpBetAmount := r1.totalUpBetAmount, totalDownBetAmount := r1.totalDownBetAmount,
                 totalBetAmount := r1.totalBetAmount, participantsCount := r1.participantsCount)
    && (bet.side == Up ==> r1.downBetsCount == r0.downBetsCount && r1.totalDownBetAmount == r0.totalDownBetAmount)
    && (bet.side == Down ==> r1.upBetsCount == r0.upBetsCount && r1.totalUpBetAmount == r0.totalUpBetAmount)
    && (if (name, bet.denom) in s.roundDenomBets
        then
          && (name, bet.denom) in s'.roundDenomBets
          && s'.roundDenomBets == s.roundDenomBets[(name, bet.denom) := s'.roundDenomBets[(name, bet.denom)]]
          && s'.roundDenomBets[(name, bet.denom)] + bet.amount == s.roundDenomBets[(name, bet.denom)]
        else s'.roundDenomBets == s.roundDenomBets)
    && s'.treasuryPool == s.treasuryPool
    && s'.config == s.config
  }

  /** Whether undoing `bet` would take one of the round's counters (or the
      round's total in the bet's denomination) below zero. */
  predicate UndoUnderflows(s: Storage, round: Round, name: string, bet: Bet) {
    || SideCount(round, bet.side) < 1
    || SideTotal(round, bet.side) < bet.amount
    || round.totalBetAmount < bet.amount
    || round.participantsCount < 1
    || ((name, bet.denom) in s.roundDenomBets && s.roundDenomBets[(name, bet.denom)] < bet.amount)
  }

  /** `execute_withdraw_bet`: before the round starts, a bettor takes their
      stake back. */
  function WithdrawBet(s: Storage, sender: Addr, now: U64, roundName: string): (r: Outcome)
    ensures r == Err(RoundDoesNotExist) <==> roundName !in s.rounds
    ensures r == Err(RoundAlreadyStarted) <==>
      roundName in s.rounds && (s.rounds[roundName].startTime < now || s.rounds[roundName].isStarted)
    ensures r == Err(BetNotFound) <==>
      roundName in s.rounds && !s.rounds[roundName].isStarted && now <= s.rounds[roundName].startTime
      && (roundName, sender) !in s.bets
    ensures r.Abort? <==>
      roundName in s.rounds && !s.rounds[roundName].isStarted && now <= s.rounds[roundName].startTime
      && (roundName, sender) in s.bets
      && UndoUnderflows(s, s.rounds[roundName], roundName, s.bets[(roundName, sender)])
    ensures r.Ok? <==>
      roundName in s.rounds && !s.rounds[roundName].isStarted && now <= s.rounds[roundName].startTime
      && (roundName, sender) in s.bets
      && !UndoUnderflows(s, s.rounds[roundName], roundName, s.bets[(roundName, sender)])
    ensures r.Ok? ==>
      && roundName in s.rounds && !s.rounds[roundName].isStarted && now <= s.rounds[roundName].startTime
      && BetUndone(s, r.store, roundName, sender)
      && var bet := s.bets[(roundName, sender)];
      && r.messages == [BankSend(sender, [Coin(bet.denom, bet.amount)])]
  {
    if roundName !in s.rounds then Err(RoundDoesNotExist)
    else
      var round := s.rounds[roundName];
      if round.startTime < now || round.isStarted then Err(RoundAlreadyStarted)
      else if (roundName, sender) !in s.bets then Err(BetNotFound)
      else
        var bet := s.bets[(roundName, sender)];
        if UndoUnderflows(s, round, roundName, bet) then Abort
        else
          var uncounted := match bet.side
            case Up => round.(upBetsCount := round.upBetsCount - 1,
                              totalUpBetAmount := round.totalUpBetAmount - bet.amount)
            case Down => round.(downBetsCount := round.downBetsCount - 1,
                                totalDownBetAmount := round.totalDownBetAmount - bet.amount);
          var updated := uncounted.(totalBetAmount := round.totalBetAmount - bet.amount,
                                    participantsCount := round.participantsCount - 1);
          var key := (roundName, bet.denom);
          var rdb := if key in s.roundDenomBets
                     then s.roundDenomBets[key := s.roundDenomBets[key] - bet.amount]
                     else s.roundDenomBets;
          Ok(s.(rounds := s.rounds[roundName := updated],
                roundDenomBets := rdb,
                bets := s.bets - {(roundName, sender)}),
             [BankSend(sender, [Coin(bet.denom, bet.amount)])])
  }

  // ---------------------------------------------------------------------
  // Settlement

  /** The contract's winner test: Up wins on a rise, Down on a fall. */
  function IsWinner(side: Side, start: Price, stop: Price): (r: bool)
    ensures r ==> start != stop
    ensures r <==> start != stop && (side == Up <==> start < stop)
  {
    match side
    case Up => stop > start
    case Down => stop < start
  }

  /** The denominations of round `name` that have a stake entry, in
      `bet_denoms` order: the ones the payout loop pays in. */
  function StakedDenoms(rdb: map<RoundDenomKey, U128>, name: string, denoms: seq<Denom>): (r: seq<Denom>)
    ensures forall d :: d in r <==> d in denoms && (name, d) in rdb
    ensures |r| <= |denoms|
  {
    if |denoms| == 0 then []
    else if (name, denoms[0]) in rdb then [denoms[0]] + StakedDenoms(rdb, name, denoms[1..])
    else StakedDenoms(rdb, name, denoms[1..])
  }

  /** `coins` pays, in order, one coin of `share * stake` for each staked
      denomination of round `name` among `denoms`. */
  ghost predicate PaysStaked(rdb: map<RoundDenomKey, U128>, name: string, share: nat, denoms: seq<Denom>, coins: seq<Coin>) {
    var staked := StakedDenoms(rdb, name, denoms);
    && |coins| == |staked|
    && forall i :: 0 <= i < |coins| ==>
         && coins[i].denom == staked[i]
         && (name, staked[i]) in rdb
         && coins[i].amount == share * rdb[(name, staked[i])]
  }

  /** Paying a staked first denomination, then the rest. */
  lemma PaysStakedCons(rdb: map<RoundDenomKey, U128>, name: string, share: nat, denoms: seq<Denom>, coins: seq<Coin>, c: Coin)
    requires |denoms| != 0 && (name, denoms[0]) in rdb
    requires c == Coin(denoms[0], c.amount) && c.amount == share * rdb[(name, denoms[0])]
    requires PaysStaked(rdb, name, share, denoms[1..], coins)
    ensures PaysStaked(rdb, name, share, denoms, [c] + coins)
  {
    var staked := StakedDenoms(rdb, name, denoms);
    assert staked == [denoms[0]] + StakedDenoms(rdb, name, denoms[1..]);
    var paid := [c] + coins;
    forall i | 1 <= i < |paid|
      ensures paid[i].denom == staked[i] && (name, staked[i]) in rdb && paid[i].amount == share * rdb[(name, staked[i])]
    {
      assert paid[i] == coins[i - 1] && staked[i] == StakedDenoms(rdb, name, denoms[1..])[i - 1];
    }
  }

  /** The coins of the multi-participant payout loop: for each denomination
      of the round that has a stake entry, in order, one coin of
      `share * stake`; `None` is a `u128` overflow. */
  function DenomPayouts(rdb: map<RoundDenomKey, U128>, name: string, share: nat, denoms: seq<Denom>)
    : (r: Option<seq<Coin>>)
    decreases |denoms|
    ensures r.Some? <==> forall d :: d in denoms && (name, d) in rdb ==> share * rdb[(name, d)] <= U128_MAX
    ensures r.Some? ==> PaysStaked(rdb, name, share, denoms, r.value)
  {
    if |denoms| == 0 then Some([])
    else
      var d := denoms[0];
      var rest := DenomPayouts(rdb, name, share, denoms[1..]);
      assert forall e :: e in denoms <==> e == d || e in denoms[1..];
      if (name, d) !in rdb then
        assert StakedDenoms(rdb, name, denoms) == StakedDenoms(rdb, name, denoms[1..]);
        rest
      else
        var amount := share * rdb[(name, d)];
        if amount > U128_MAX then
          assert d in denoms && (name, d) in rdb;
          None
        else match rest
          case None => None
          case Some(coins) =>
            var paid: U128 := amount;
            var coin := Coin(d, paid);
            PaysStakedCons(rdb, name, share, denoms, coins, coin);
            Some([coin] + coins)
  }

  /** The multi-participant branch of `claim_win`: the winner's share is
      `stake / sharable`, then multiplied by each staked denomination's
      stake, one coin per such denomination in order. A zero `sharable` is
      a division by zero. */
  function ProportionalPayout(rdb: map<RoundDenomKey, U128>, name: string, stake: U128, sharable: nat, denoms: seq<Denom>)
    : (r: Option<seq<Coin>>)
    ensures sharable == 0 ==> r.None?
    ensures sharable != 0 ==>
      (r.Some? <==> forall d :: d in denoms && (name, d) in rdb ==> stake / sharable * rdb[(name, d)] <= U128_MAX)
    ensures r.Some? ==> PaysStaked(rdb, name, stake / sharable, denoms, r.value)
  {
    if sharable == 0 then None
    else DenomPayouts(rdb, name, stake / sharable, denoms)
  }

  /** The writes of a winning claim: the bet is marked claimed, and so are
      the round's fees. */
  function MarkClaimed(s: Storage, roundName: string, sender: Addr): (r: Storage)
    requires roundName in s.rounds && (roundName, sender) in s.bets
    ensures r.config == s.config && r.roundDenomBets == s.roundDenomBets && r.treasuryPool == s.treasuryPool
    ensures (roundName, sender) in r.bets && r.bets == s.bets[(roundName, sender) := r.bets[(roundName, sender)]]
    ensures r.bets[(roundName, sender)].winClaimed
    ensures r.bets[(roundName, sender)] == s.bets[(roundName, sender)].(winClaimed := r.bets[(roundName, sender)].winClaimed)
    ensures roundName in r.rounds && r.rounds == s.rounds[roundName := r.rounds[roundName]]
    ensures r.rounds[roundName].feesClaimed
    ensures r.rounds[roundName] == s.rounds[roundName].(feesClaimed := r.rounds[roundName].feesClaimed)
  {
    var bet := s.bets[(roundName, sender)];
    s.(bets := s.bets[(roundName, sender) := bet.(winClaimed := true)],
       rounds := s.rounds[roundName := s.rounds[roundName].(feesClaimed := true)])
  }

  /** The part of `claim_win` after its time check: unwrap the prices, find
      the caller's bet, and pay a win or refund a tie. */
  function Settle(s: Storage, sender: Addr, roundName: string): (r: Outcome)
    requires roundName in s.rounds
    ensures r.Ok? ==> (roundName, sender) in s.bets && |r.messages| == 1 && r.messages[0].toAddress == sender
    ensures r.Ok? ==> r.store == s || (s.rounds[roundName].startPrice.Some? && r.store == MarkClaimed(s, roundName, sender))
  {
    var round := s.rounds[roundName];
    if round.startPrice.None? || round.stopPrice.None? then Abort
    else if (roundName, sender) !in s.bets then Err(BetNotFound)
    else
      var bet := s.bets[(roundName, sender)];
      var start, stop := round.startPrice.value, round.stopPrice.value;
      if IsWinner(bet.side, start, stop) then
        if bet.winClaimed then Err(WinAlreadyClaimed)
        else
          var sharable := PercentTruncated(round.totalBetAmount, SHARABLE_PERCENT);
          var coins :=
            if round.participantsCount == 1
            then Some([Coin(bet.denom, PercentTruncated(bet.amount, SOLE_WINNER_PERCENT))])
            else ProportionalPayout(s.roundDenomBets, roundName, bet.amount, sharable, round.betDenoms);
          match coins
          case None => Abort
          case Some(cs) => Ok(MarkClaimed(s, roundName, sender), [BankSend(sender, cs)])
      else if start == stop then
        Ok(s, [BankSend(sender, [Coin(bet.denom, bet.amount)])])
      else Err(YouLost)
  }

  /** `execute_claim_win`. Its time check rejects every claim made after
      `stop_time` as well as every claim on a round not yet stopped. */
  function ClaimWin(s: Storage, sender: Addr, now: U64, roundName: string): (r: Outcome)
    ensures r == Err(RoundDoesNotExist) <==> roundName !in s.rounds
    ensures r == Err(RoundStillInProgress) <==>
      roundName in s.rounds && (now > s.rounds[roundName].stopTime || !s.rounds[roundName].isStopped)
    ensures r.Ok? ==>
      && roundName in s.rounds && s.rounds[roundName].isStopped && now <= s.rounds[roundName].stopTime
      && (roundName, sender) in s.bets
      && |r.messages| == 1 && r.messages[0].toAddress == sender
    ensures r.Ok? ==>
      r.store == s || (s.rounds[roundName].startPrice.Some? && r.store == MarkClaimed(s, roundName, sender))
    ensures roundName in s.rounds && s.rounds[roundName].isStopped && now <= s.rounds[roundName].stopTime ==>
      var round := s.rounds[roundName];
      && (round.startPrice.None? || round.stopPrice.None? ==> r.Abort?)
      && (r == Err(BetNotFound) <==>
            round.startPrice.Some? && round.stopPrice.Some? && (roundName, sender) !in s.bets)
  {
    if roundName !in s.rounds then Err(RoundDoesNotExist)
    else
      var round := s.rounds[roundName];
      if now > round.stopTime || !round.isStopped then Err(RoundStillInProgress)
      else Settle(s, sender, roundName)
  }

  // ---------------------------------------------------------------------
  // Treasury

  /** `execute_withdraw_from_treasury_pool`: an admin orders a payment out of
      the fee pool of `denom`. The pool balance is checked but not reduced. */
  function WithdrawFromTreasuryPool(s: Storage, sender: Addr, denom: Denom, toAddress: Addr, amount: U128): (r: Outcome)
    ensures r == Err(Unauthorized) <==> sender !in s.config.admins
    ensures r == Err(TreasuryDenomDoesNotExist) <==> sender in s.config.admins && denom !in s.treasuryPool
    ensures r == Err(InsufficientTreasuryDenomBalance) <==>
      sender in s.config.admins && denom in s.treasuryPool && s.treasuryPool[denom] < amount
    ensures r.Ok? <==>
      sender in s.config.admins && denom in s.treasuryPool && amount <= s.treasuryPool[denom]
    ensures r.Ok? ==> r.store == s && r.messages == [BankSend(toAddress, [Coin(denom, amount)])]
  {
    if !SenderIsAdmin(s, sender) then Err(Unauthorized)
    else if denom !in s.treasuryPool then Err(TreasuryDenomDoesNotExist)
    else if s.treasuryPool[denom] < amount then Err(InsufficientTreasuryDenomBalance)
    else Ok(s, [BankSend(toAddress, [Coin(denom, amount)])])
  }
}
