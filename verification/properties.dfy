/** Properties of the handlers that relate several calls, or a call and an
    independent description of what it should do. */
module Properties {
  import opened State
  import opened Errors
  import opened Contract
  import opened Books
  import Invariant

  // ---------------------------------------------------------------------
  // Bets

  /** Undoing a bet and then recording one with the same side, stake and
      denomination restores the round and its per-denomination totals, as
      long as the denomination was already filed for the round. */
  lemma UndoThenRecordRestores(s: Storage, s1: Storage, s2: Storage, name: string, sender: Addr, b: Bet)
    requires BetUndone(s, s1, name, sender) && BetRecorded(s1, s2, name, sender, b)
    requires var bet := s.bets[(name, sender)];
      && b.side == bet.side && b.amount == bet.amount && b.denom == bet.denom
      && bet.denom in s.rounds[name].betDenoms && (name, bet.denom) in s.roundDenomBets
    ensures s2 == s.(bets := s.bets[(name, sender) := b])
  {
    var k := (name, sender);
    var r0, r1, r2 := s.rounds[name], s1.rounds[name], s2.rounds[name];
    assert r2 == r0;
    assert s2.rounds == s.rounds;
    assert s2.roundDenomBets == s.roundDenomBets;
    assert s2.bets == s.bets[k := b];
  }

  /** After a withdrawal the bet's denomination is still filed for the
      round, and its stake fits back into the round's total in it. */
  lemma WithdrawnStakeRefits(s: Storage, sender: Addr, now: U64, roundName: string)
    requires Inv(s)
    requires WithdrawBet(s, sender, now, roundName).Ok?
    ensures var bet, s1 := s.bets[(roundName, sender)], WithdrawBet(s, sender, now, roundName).store;
      && BetUndone(s, s1, roundName, sender)
      && bet.denom in s.rounds[roundName].betDenoms && (roundName, bet.denom) in s.roundDenomBets
      && RoundDenomTotal(s1, roundName, bet.denom) + bet.amount == s.roundDenomBets[(roundName, bet.denom)]
  {
    var bet := s.bets[(roundName, sender)];
    assert RoundBooks(s, roundName);
    assert BetFiled(s, roundName, bet);
  }

  /** Withdrawing a bet and placing it again with the same side, stake and
      denomination gives back exactly the store before the withdrawal: the
      round, its per-denomination totals and the treasury are restored, and
      the bet differs only in its placement time. */
  lemma WithdrawThenPlaceRestores(s: Storage, sender: Addr, now: U64, later: U64, roundName: string)
    requires Inv(s)
    requires WithdrawBet(s, sender, now, roundName).Ok?
    requires (roundName, sender) in s.bets
    requires s.bets[(roundName, sender)].denom in s.config.acceptedBetDenoms
    ensures var bet := s.bets[(roundName, sender)];
      var s1 := WithdrawBet(s, sender, now, roundName).store;
      PlaceBet(s1, sender, later, [Coin(bet.denom, bet.amount)], bet.side, roundName)
        == Ok(s.(bets := s.bets[(roundName, sender) := bet.(placedAt := later)]), [])
  {
    var bet := s.bets[(roundName, sender)];
    var s1 := WithdrawBet(s, sender, now, roundName).store;
    WithdrawnStakeRefits(s, sender, now, roundName);
    var r := PlaceBet(s1, sender, later, [Coin(bet.denom, bet.amount)], bet.side, roundName);
    assert !r.Abort?;
    var placed := Bet(bet.side, bet.amount, bet.denom, false, later);
    assert BetRecorded(s1, r.store, roundName, sender, placed);
    UndoThenRecordRestores(s, s1, r.store, roundName, sender, placed);
    assert placed == bet.(placedAt := later);
  }

  /** On a store keeping the invariant, a bettor's withdrawal before the
      round starts always succeeds: the bet is deleted and the exact stake
      is refunded in one payment. */
  lemma LegalWithdrawalSucceeds(s: Storage, sender: Addr, now: U64, roundName: string)
    requires Inv(s)
    requires roundName in s.rounds && !s.rounds[roundName].isStarted && now <= s.rounds[roundName].startTime
    requires (roundName, sender) in s.bets
    ensures var bet, r := s.bets[(roundName, sender)], WithdrawBet(s, sender, now, roundName);
      && r.Ok?
      && (roundName, sender) !in r.store.bets
      && r.messages == [BankSend(sender, [Coin(bet.denom, bet.amount)])]
  {
    Invariant.WithdrawBetNeverAborts(s, sender, now, roundName);
  }

  /** `place_bet` never asks whether the round has stopped: its verdict is the same on a stopped and an unstopped round. */
  lemma PlaceBetIgnoresStop(s: Storage, sender: Addr, now: U64, funds: seq<Coin>, side: Side, roundName: string, stopped: bool)
    requires roundName in s.rounds
    ensures var s' := s.(rounds := s.rounds[roundName := s.rounds[roundName].(isStopped := stopped)]);
      var r, r' := PlaceBet(s, sender, now, funds, side, roundName), PlaceBet(s', sender, now, funds, side, roundName);
      && r.Ok? == r'.Ok? && r.Abort? == r'.Abort?
      && (r.Err? ==> r' == r)
  {
  }

  // ---------------------------------------------------------------------
  // Settlement

  datatype Verdict = Won | Tied | Lost

  /** The outcome of a bet, stated directly: equal prices are a tie;
      otherwise a bet wins exactly when the price moved the way it predicted. */
  function VerdictOf(side: Side, start: Price, stop: Price): Verdict {
    if start == stop then Tied
    else if (side == Up) == (start < stop) then Won
    else Lost
  }

  /** The contract's winner test, together with its tie test, agrees with
      the direct statement for both sides and every pair of prices. */
  lemma WinnerTestMatchesVerdict(side: Side, start: Price, stop: Price)
    ensures IsWinner(side, start, stop) <==> VerdictOf(side, start, stop) == Won
    ensures !IsWinner(side, start, stop) && start == stop <==> VerdictOf(side, start, stop) == Tied
    ensures !IsWinner(side, start, stop) && start != stop <==> VerdictOf(side, start, stop) == Lost
  {
  }

  /** A claim that passes the time check, on a round with both prices, by a
      bettor: a lost bet is `YouLost`; a tie refunds the exact stake and
      changes nothing (so it can be claimed again); a win already claimed is
      `WinAlreadyClaimed`; an unclaimed win marks the bet and the round's
      fees claimed and pays the sender once, unless it panics. */
  lemma ClaimFollowsVerdict(s: Storage, sender: Addr, now: U64, roundName: string)
    requires roundName in s.rounds
    requires s.rounds[roundName].isStopped && now <= s.rounds[roundName].stopTime
    requires s.rounds[roundName].startPrice.Some? && s.rounds[roundName].stopPrice.Some?
    requires (roundName, sender) in s.bets
    ensures var round, bet := s.rounds[roundName], s.bets[(roundName, sender)];
      var v := VerdictOf(bet.side, round.startPrice.value, round.stopPrice.value);
      var r := ClaimWin(s, sender, now, roundName);
      && (v == Lost <==> r == Err(YouLost))
      && (v == Tied <==> r == Ok(s, [BankSend(sender, [Coin(bet.denom, bet.amount)])]))
      && (v == Won && bet.winClaimed <==> r == Err(WinAlreadyClaimed))
      && (v == Won && !bet.winClaimed ==>
            r.Abort? || (r.Ok? && r.store == MarkClaimed(s, roundName, sender)
                         && |r.messages| == 1 && r.messages[0].toAddress == sender))
  {
    var round, bet := s.rounds[roundName], s.bets[(roundName, sender)];
    WinnerTestMatchesVerdict(bet.side, round.startPrice.value, round.stopPrice.value);
    var r := ClaimWin(s, sender, now, roundName);
    if r.Ok? && r.store == MarkClaimed(s, roundName, sender) {
      assert r.store.bets[(roundName, sender)].winClaimed;
      if !bet.winClaimed {
        assert r.store != s;
      }
    }
  }

  /** Once a winning claim has gone through, every further claim of the same
      bet fails: within the claim window with `WinAlreadyClaimed`. */
  lemma SecondWinningClaimFails(s: Storage, sender: Addr, now: U64, again: U64, roundName: string)
    requires var r := ClaimWin(s, sender, now, roundName); r.Ok? && r.store != s
    ensures var s' := ClaimWin(s, sender, now, roundName).store;
      && ClaimWin(s', sender, again, roundName).Err?
      && (again <= s.rounds[roundName].stopTime ==>
            ClaimWin(s', sender, again, roundName) == Err(WinAlreadyClaimed))
  {
    var round, bet := s.rounds[roundName], s.bets[(roundName, sender)];
    var s' := MarkClaimed(s, roundName, sender);
    assert s'.rounds[roundName] == round.(feesClaimed := true);
    assert s'.bets[(roundName, sender)] == bet.(winClaimed := true);
  }

  /** The win payout as the contract writes it: the sole participant is
      paid a coin of amount zero in their denomination, and with any other
      participant count the division by the (zero) sharable amount panics.
      No payment to the treasury address is emitted in either case. */
  lemma WinPayoutAsWritten(s: Storage, sender: Addr, now: U64, roundName: string)
    requires roundName in s.rounds
    requires s.rounds[roundName].isStopped && now <= s.rounds[roundName].stopTime
    requires s.rounds[roundName].startPrice.Some? && s.rounds[roundName].stopPrice.Some?
    requires (roundName, sender) in s.bets && !s.bets[(roundName, sender)].winClaimed
    requires IsWinner(s.bets[(roundName, sender)].side, s.rounds[roundName].startPrice.value, s.rounds[roundName].stopPrice.value)
    ensures var bet := s.bets[(roundName, sender)];
      var r := ClaimWin(s, sender, now, roundName);
      && (s.rounds[roundName].participantsCount == 1 ==>
            r == Ok(MarkClaimed(s, roundName, sender), [BankSend(sender, [Coin(bet.denom, 0)])]))
      && (s.rounds[roundName].participantsCount != 1 ==> r == Abort)
  {
  }

  // ---------------------------------------------------------------------
  // Round registry and treasury

  /** The fee skim of `stop_round` does not depend on the prices: for any
      two oracle rates the stop succeeds or fails alike and leaves the same
      treasury pool. */
  lemma SkimIgnoresPrices(s: Storage, sender: Addr, now: U64, name: string, rate: Price, rate': Price)
    ensures var r, r' := StopRound(s, sender, now, name, rate), StopRound(s, sender, now, name, rate');
      && r.Ok? == r'.Ok? && r.Abort? == r'.Abort?
      && (r.Ok? ==> r.store.treasuryPool == r'.store.treasuryPool && r.store.bets == r'.store.bets)
  {
  }

  /** With no admins registered, every admin-gated action is refused,
      including the one that would register admins. */
  lemma NoAdminsLocksOut(s: Storage, sender: Addr, now: U64, name: string, rate: Price,
                         denom: Denom, to: Addr, amount: U128, admins: seq<Addr>, denoms: seq<Denom>)
    requires s.config.admins == []
    ensures !IsAdmin(s.config, sender)
    ensures StartRound(s, sender, now, name, rate) == Err(Unauthorized)
    ensures StopRound(s, sender, now, name, rate) == Err(Unauthorized)
    ensures WithdrawFromTreasuryPool(s, sender, denom, to, amount) == Err(Unauthorized)
    ensures UpdateAdmins(s, sender, admins) == Err(Unauthorized)
    ensures UpdateAssetDenom(s, sender, denom) == Err(Unauthorized)
    ensures UpdateAcceptedBetDenoms(s, sender, denoms) == Err(Unauthorized)
  {
  }
  // ---------------------------------------------------------------------
  // Round lifecycle

  /** A round is started at most once. */
  lemma StartHappensOnce(s: Storage, admin: Addr, now: U64, again: U64, name: string, rate: Price, rate': Price)
    ensures var r := StartRound(s, admin, now, name, rate);
      r.Ok? ==> StartRound(r.store, admin, again, name, rate') == Err(RoundAlreadyStarted)
  {
  }

  /** A round is stopped at most once, so its fees are skimmed once. */
  lemma StopHappensOnce(s: Storage, admin: Addr, now: U64, again: U64, name: string, rate: Price, rate': Price)
    ensures var r := StopRound(s, admin, now, name, rate);
      r.Ok? ==> StopRound(r.store, admin, again, name, rate') == Err(RoundAlreadyEnded)
  {
  }

  /** Once a round has been started, no bet can be withdrawn from it, and
      once its start time has also passed no bet can be placed in it. */
  lemma StartFreezesBets(s: Storage, admin: Addr, now: U64, name: string, rate: Price,
                         sender: Addr, later: U64, funds: seq<Coin>, side: Side)
    requires StartRound(s, admin, now, name, rate).Ok?
    ensures var s' := StartRound(s, admin, now, name, rate).store;
      && WithdrawBet(s', sender, later, name) == Err(RoundAlreadyStarted)
      && (s.rounds[name].startTime < later ==> PlaceBet(s', sender, later, funds, side, name).Err?)
  {
  }

  /** `start_round` does not wait for the scheduled start time: an admin can
      start a round early, and it then still takes new bets until its start
      time (but refuses withdrawals). */
  lemma EarlyStartStillTakesBets(s: Storage, admin: Addr, now: U64, name: string, rate: Price,
                                 sender: Addr, later: U64, coin: Coin, side: Side)
    requires StartRound(s, admin, now, name, rate).Ok?
    requires later <= s.rounds[name].startTime
    requires coin.denom in s.config.acceptedBetDenoms && (name, sender) !in s.bets
    ensures var s' := StartRound(s, admin, now, name, rate).store;
      && s'.rounds[name].isStarted
      && !PlaceBet(s', sender, later, [coin], side, name).Err?
  {
  }

  // ---------------------------------------------------------------------
  // A worked round

  const Admin: Addr := "admin"
  const Alice: Addr := "alice"
  const Atom: Denom := "uatom"

  function Genesis(): Storage {
    Storage(Config([Admin], "uusd", "treasury", [Atom]), map[], map[], map[], map[])
  }

  /** Alice creates round "r" at time 1000 to start at 1300, stakes 1000
      uatom on Up, the admin starts it at 1300 at rate `start` and stops it
      at 1600 at rate `stop`; `None` if any step fails. */
  function PlayRound(start: Price, stop: Price): (r: Option<Storage>)
    ensures r.Some?
    ensures r.Some? ==> "r" in r.value.rounds && r.value.rounds["r"].participantsCount == 1
  {
    WorkedRoundStarts(start);
    var created := CreateRound(Genesis(), Alice, 1000, 1300, "r");
    if !created.Ok? then None
    else
      var placed := PlaceBet(created.store, Alice, 1100, [Coin(Atom, 1000)], Up, "r");
      if !placed.Ok? then None
      else
        var started := StartRound(placed.store, Admin, 1300, "r", start);
        if !started.Ok? then None
        else
          var stopped := StopRound(started.store, Admin, 1600, "r", stop);
          if !stopped.Ok? then None
          else Some(stopped.store)
  }

  /** The worked round up to its stop: the bet is filed under its one
      denomination and the fee skim on that denomination is 150. */
  lemma WorkedRoundStarts(start: Price)
    ensures var created := CreateRound(Genesis(), Alice, 1000, 1300, "r");
      var placed := PlaceBet(created.store, Alice, 1100, [Coin(Atom, 1000)], Up, "r");
      var started := StartRound(placed.store, Admin, 1300, "r", start);
      && created.Ok? && placed.Ok? && started.Ok?
      && started.store.roundDenomBets == map[("r", Atom) := 1000]
      && started.store.rounds["r"].betDenoms == [Atom]
      && started.store.bets == map[("r", Alice) := Bet(Up, 1000, Atom, false, 1100)]
      && SkimFees(map[], started.store.roundDenomBets, "r", [Atom]) == Some(map[Atom := 150])
  {
    var created := CreateRound(Genesis(), Alice, 1000, 1300, "r").store;
    var placed := PlaceBet(created, Alice, 1100, [Coin(Atom, 1000)], Up, "r").store;
    assert placed.roundDenomBets == map[("r", Atom) := 1000];
    assert placed.rounds["r"].betDenoms == [Atom];
    assert placed.bets == map[("r", Alice) := Bet(Up, 1000, Atom, false, 1100)];
    var started := StartRound(placed, Admin, 1300, "r", start).store;
    assert SkimFees(map[], started.roundDenomBets, "r", [Atom]) == Some(map[Atom := 150]);
  }

  /** In the worked round a fall loses, and the treasury has skimmed 150 of
      the 1000 uatom. */
  lemma WorkedRoundFalls()
    ensures var r := PlayRound(123, 110);
      r.Some? && r.value.treasuryPool == map[Atom := 150]
      && ClaimWin(r.value, Alice, 1600, "r") == Err(YouLost)
  {
    WorkedRoundStarts(123);
  }

  /** In the worked round equal prices refund the 1000 uatom. */
  lemma WorkedRoundTies()
    ensures var r := PlayRound(123, 123);
      r.Some? && ClaimWin(r.value, Alice, 1600, "r") == Ok(r.value, [BankSend(Alice, [Coin(Atom, 1000)])])
  {
    WorkedRoundStarts(123);
  }

  /** In the worked round a rise pays the sole winner a coin of 0 uatom. */
  lemma WorkedRoundRises()
    ensures var r := PlayRound(123, 130);
      r.Some? && ClaimWin(r.value, Alice, 1600, "r").Ok?
      && ClaimWin(r.value, Alice, 1600, "r").messages == [BankSend(Alice, [Coin(Atom, 0)])]
  {
    WorkedRoundStarts(123);
    var r := PlayRound(123, 130);
    var round := r.value.rounds["r"];
    assert round.startPrice == Some(123) && round.stopPrice == Some(130);
    assert r.value.bets[("r", Alice)] == Bet(Up, 1000, Atom, false, 1100);
    assert Settle(r.value, Alice, "r").messages == [BankSend(Alice, [Coin(Atom, 0)])];
  }

  /** In the worked round the treasury skims 150 of the 1000 uatom. A fall
      loses; equal prices refund the 1000 uatom; a rise pays the sole winner
      a coin of 0 uatom. */
  lemma WorkedRound()
    ensures var r := PlayRound(123, 110);
      r.Some? && r.value.treasuryPool == map[Atom := 150]
      && ClaimWin(r.value, Alice, 1600, "r") == Err(YouLost)
    ensures var r := PlayRound(123, 123);
      r.Some? && ClaimWin(r.value, Alice, 1600, "r") == Ok(r.value, [BankSend(Alice, [Coin(Atom, 1000)])])
    ensures var r := PlayRound(123, 130);
      r.Some? && ClaimWin(r.value, Alice, 1600, "r").Ok?
      && ClaimWin(r.value, Alice, 1600, "r").messages == [BankSend(Alice, [Coin(Atom, 0)])]
  {
    WorkedRoundFalls();
    WorkedRoundTies();
    WorkedRoundRises();
  }
}
