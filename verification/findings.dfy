/** Three places where the contract as written departs from what its own
    comments and names say it does, each modelled both ways: the behaviour
    as written, with the input that exhibits it, and the evidently intended
    behaviour with its property proved. */
module Findings {
  import opened State
  import opened Errors
  import opened Contract
  import opened Books
  import Invariant

  // ---------------------------------------------------------------------
  // 1. The treasury pool is never debited

  /** As written: withdrawing the whole balance of a fee pool leaves the
      pool untouched, so the same withdrawal succeeds again, and the two
      payments together exceed what the pool held. */
  lemma TreasuryOverdraw(s: Storage, admin: Addr, denom: Denom, to: Addr)
    requires admin in s.config.admins && denom in s.treasuryPool && s.treasuryPool[denom] > 0
    ensures var amount := s.treasuryPool[denom];
      var first := WithdrawFromTreasuryPool(s, admin, denom, to, amount);
      && first.Ok?
      && var second := WithdrawFromTreasuryPool(first.store, admin, denom, to, amount);
      && second.Ok?
      && first.messages[0].amount[0].amount + second.messages[0].amount[0].amount > s.treasuryPool[denom]
  {
  }

  /** Corrected: the same checks, and the paid amount is taken off the
      pool's balance. */
  function WithdrawFromTreasuryPoolDebited(s: Storage, sender: Addr, denom: Denom, toAddress: Addr, amount: U128)
    : (r: Outcome)
    ensures r.Err? <==> WithdrawFromTreasuryPool(s, sender, denom, toAddress, amount).Err?
    ensures r.Err? ==> r == WithdrawFromTreasuryPool(s, sender, denom, toAddress, amount)
    ensures r.Ok? <==> WithdrawFromTreasuryPool(s, sender, denom, toAddress, amount).Ok?
    ensures r.Ok? ==>
      && r.messages == [BankSend(toAddress, [Coin(denom, amount)])]
      && denom in s.treasuryPool && denom in r.store.treasuryPool
      && r.store.treasuryPool[denom] + amount == s.treasuryPool[denom]
      && r.store == s.(treasuryPool := s.treasuryPool[denom := r.store.treasuryPool[denom]])
  {
    if !SenderIsAdmin(s, sender) then Err(Unauthorized)
    else if denom !in s.treasuryPool then Err(TreasuryDenomDoesNotExist)
    else if s.treasuryPool[denom] < amount then Err(InsufficientTreasuryDenomBalance)
    else
      Ok(s.(treasuryPool := s.treasuryPool[denom := s.treasuryPool[denom] - amount]),
         [BankSend(toAddress, [Coin(denom, amount)])])
  }

  /** With the debit, two successive withdrawals never pay out more than the
      pool held: the overdraw above is impossible. */
  lemma DebitedWithdrawalsStayWithinPool(s: Storage, admin: Addr, denom: Denom, to: Addr, a1: U128, a2: U128)
    ensures var first := WithdrawFromTreasuryPoolDebited(s, admin, denom, to, a1);
      first.Ok? && WithdrawFromTreasuryPoolDebited(first.store, admin, denom, to, a2).Ok? ==>
        a1 + a2 <= s.treasuryPool[denom]
  {
  }

  /** The corrected withdrawal keeps the store invariant. */
  lemma DebitedWithdrawalPreservesInv(s: Storage, sender: Addr, denom: Denom, toAddress: Addr, amount: U128)
    requires Inv(s)
    ensures var r := WithdrawFromTreasuryPoolDebited(s, sender, denom, toAddress, amount);
      r.Ok? ==> Inv(r.store)
  {
    var r := WithdrawFromTreasuryPoolDebited(s, sender, denom, toAddress, amount);
    if r.Ok? {
      forall name | name in r.store.rounds ensures RoundBooks(r.store, name) {
        Invariant.BooksFramed(s, r.store, name);
      }
    }
  }

  // ---------------------------------------------------------------------
  // 2. The claim window closes at the stop time

  /** As written: `stop_round` may only run at or after `stop_time`, and
      `claim_win` refuses every claim after `stop_time`. A round stopped
      late can never be claimed at any later time, and a claim at or after
      the stop goes through only when stop and claim both happen exactly at
      `stop_time`. */
  lemma ClaimWindowAsWritten(s: Storage, admin: Addr, t: U64, name: string, rate: Price, sender: Addr, t': U64)
    requires StopRound(s, admin, t, name, rate).Ok?
    requires t <= t'
    ensures var s' := StopRound(s, admin, t, name, rate).store;
      && (t > s.rounds[name].stopTime ==> ClaimWin(s', sender, t', name) == Err(RoundStillInProgress))
      && (ClaimWin(s', sender, t', name) != Err(RoundStillInProgress) ==>
            t == t' == s.rounds[name].stopTime)
  {
  }

  /** Corrected: a claim is refused only while the round has not been
      stopped; after that it is settled whatever the time. */
  function ClaimWinAfterStop(s: Storage, sender: Addr, now: U64, roundName: string): (r: Outcome)
    ensures r == Err(RoundDoesNotExist) <==> roundName !in s.rounds
    ensures r == Err(RoundStillInProgress) <==> roundName in s.rounds && !s.rounds[roundName].isStopped
    ensures roundName in s.rounds && s.rounds[roundName].isStopped && now <= s.rounds[roundName].stopTime ==>
      r == ClaimWin(s, sender, now, roundName)
    ensures roundName in s.rounds && s.rounds[roundName].isStopped ==>
      r == ClaimWin(s, sender, s.rounds[roundName].stopTime, roundName)
  {
    if roundName !in s.rounds then Err(RoundDoesNotExist)
    else if !s.rounds[roundName].isStopped then Err(RoundStillInProgress)
    else Settle(s, sender, roundName)
  }

  /** With the corrected check, once a round is stopped a claim at any
      later time is settled exactly as the contract settles a claim made at
      `stop_time`, and the claim keeps the store invariant. */
  lemma StoppedRoundsStayClaimable(s: Storage, admin: Addr, t: U64, name: string, rate: Price, sender: Addr, t': U64)
    requires Inv(s)
    requires StopRound(s, admin, t, name, rate).Ok?
    ensures var s' := StopRound(s, admin, t, name, rate).store;
      var r := ClaimWinAfterStop(s', sender, t', name);
      && r != Err(RoundStillInProgress)
      && r == ClaimWin(s', sender, s.rounds[name].stopTime, name)
      && (r.Ok? ==> Inv(r.store))
  {
    var s' := StopRound(s, admin, t, name, rate).store;
    Invariant.StopRoundPreservesInv(s, admin, t, name, rate);
    var r := ClaimWinAfterStop(s', sender, t', name);
    if r.Ok? && r.store != s' {
      assert Lifecycle(s'.rounds[name]);
      Invariant.ClaimMarksKeepInv(s', name, sender);
    }
  }

  // ---------------------------------------------------------------------
  // 3. Percentages computed by dividing first

  /** As written, `85 / 100 * total` and `20 / 100 * stake` are both zero
      (`Contract.PercentTruncated`): a sole winner is paid nothing and with
      several participants the share's divisor is zero. */
  lemma TruncatedPercentagesVanish(total: U128, stake: U128)
    ensures PercentTruncated(total, SHARABLE_PERCENT) == 0
    ensures PercentTruncated(stake, SOLE_WINNER_PERCENT) == 0
  {
  }

  /** Corrected, multiplying first as `stop_round` does: the result is the
      exact percentage rounded down, never more than the amount for a
      percentage up to 100, and positive once the amount reaches
      `100 / pct`. */
  lemma PercentBounds(amount: nat, pct: nat)
    ensures Percent(amount, pct) * 100 <= amount * pct < Percent(amount, pct) * 100 + 100
    ensures pct <= 100 ==> Percent(amount, pct) <= amount
    ensures amount * pct >= 100 ==> Percent(amount, pct) > 0
  {
    var p := Percent(amount, pct);
    assert amount * pct == p * 100 + (amount * pct) % 100;
    if pct <= 100 {
      assert amount * pct <= amount * 100 by {
        MulMonotone(amount, pct, 100);
      }
    }
  }

  lemma MulMonotone(a: nat, b: nat, c: nat)
    requires b <= c
    ensures a * b <= a * c
  {
  }

  /** The corrected sole-winner payout: 20% of the stake, multiplying
      first; it is within the stake, and positive from a stake of 5. */
  function SoleWinnerShare(stake: U128): (r: U128)
    ensures r <= stake
    ensures r * 5 <= stake < r * 5 + 5
    ensures stake >= 5 ==> r > 0
  {
    PercentBounds(stake, SOLE_WINNER_PERCENT);
    Percent(stake, SOLE_WINNER_PERCENT)
  }

  /** The corrected sharable amount: 85% of the round's total, never more
      than the total, and positive once the total reaches 2. */
  function SharableAmount(total: U128): (r: U128)
    ensures r <= total
    ensures r * 100 <= total * 85 < r * 100 + 100
    ensures total >= 2 ==> r > 0
  {
    PercentBounds(total, SHARABLE_PERCENT);
    Percent(total, SHARABLE_PERCENT)
  }
  /** Corrected settlement: `Contract.Settle` with the two percentages
      computed by multiplying first. Losses, ties and every error are as
      written; only the payout of an unclaimed win differs. */
  function SettleIntended(s: Storage, sender: Addr, roundName: string): (r: Outcome)
    requires roundName in s.rounds
    ensures !Settle(s, sender, roundName).Ok? && !Settle(s, sender, roundName).Abort? ==>
      r == Settle(s, sender, roundName)
    ensures Settle(s, sender, roundName).Ok? && Settle(s, sender, roundName).store == s ==>
      r == Settle(s, sender, roundName)
    ensures r.Ok? ==> (roundName, sender) in s.bets && |r.messages| == 1 && r.messages[0].toAddress == sender
    ensures r.Ok? ==> r.store == s || (s.rounds[roundName].startPrice.Some? && r.store == MarkClaimed(s, roundName, sender))
    ensures r.Err? <==> Settle(s, sender, roundName).Err?
    ensures s.rounds[roundName].startPrice.None? || s.rounds[roundName].stopPrice.None? ==> r == Abort
  {
    var round := s.rounds[roundName];
    if round.startPrice.None? || round.stopPrice.None? then Abort
    else if (roundName, sender) !in s.bets then Err(BetNotFound)
    else
      var bet := s.bets[(roundName, sender)];
      var start, stop := round.startPrice.value, round.stopPrice.value;
      if IsWinner(bet.side, start, stop) then
        if bet.winClaimed then Err(WinAlreadyClaimed)
        else
          var sharable := SharableAmount(round.totalBetAmount);
          var coins :=
            if round.participantsCount == 1
            then Some([Coin(bet.denom, SoleWinnerShare(bet.amount))])
            else ProportionalPayout(s.roundDenomBets, roundName, bet.amount, sharable, round.betDenoms);
          match coins
          case None => Abort
          case Some(cs) => Ok(MarkClaimed(s, roundName, sender), [BankSend(sender, cs)])
      else if start == stop then
        Ok(s, [BankSend(sender, [Coin(bet.denom, bet.amount)])])
      else Err(YouLost)
  }

  /** The claims `IntendedWinIsPaid` is about: an unclaimed win on a round
      with both prices. */
  predicate UnclaimedWin(s: Storage, sender: Addr, roundName: string) {
    && roundName in s.rounds
    && s.rounds[roundName].startPrice.Some? && s.rounds[roundName].stopPrice.Some?
    && (roundName, sender) in s.bets && !s.bets[(roundName, sender)].winClaimed
    && IsWinner(s.bets[(roundName, sender)].side, s.rounds[roundName].startPrice.value, s.rounds[roundName].stopPrice.value)
  }

  /** How many whole sharable amounts a winning stake covers: the factor a
      shared winner's payout multiplies each denom's pot by. */
  function StakeShare(stake: U128, total: U128): (r: nat)
    requires total >= 2
    ensures r <= stake
    ensures r * SharableAmount(total) <= stake < (r + 1) * SharableAmount(total)
  {
    var sharable := SharableAmount(total);
    var q := stake / sharable;
    MulMonotone(q, 1, sharable);
    assert q * sharable <= stake;
    q
  }

  /** A sole winner's claim is settled by marking it and paying 20% of the
      stake in the stake's own denom. */
  predicate PaysSoleShare(s: Storage, sender: Addr, roundName: string)
    requires UnclaimedWin(s, sender, roundName)
  {
    var bet := s.bets[(roundName, sender)];
    SettleIntended(s, sender, roundName)
      == Ok(MarkClaimed(s, roundName, sender), [BankSend(sender, [Coin(bet.denom, SoleWinnerShare(bet.amount))])])
  }

  /** A shared winner's claim is settled by marking it and paying, per
      staked denom, `StakeShare` times that denom's pot; it panics exactly
      when one of those overflows. */
  predicate PaysSharedShare(s: Storage, sender: Addr, roundName: string)
    requires UnclaimedWin(s, sender, roundName) && s.rounds[roundName].totalBetAmount >= 2
  {
    var round, bet := s.rounds[roundName], s.bets[(roundName, sender)];
    var r := SettleIntended(s, sender, roundName);
    var pay := DenomPayouts(s.roundDenomBets, roundName, StakeShare(bet.amount, round.totalBetAmount), round.betDenoms);
    && (r.Abort? <==> pay.None?)
    && (pay.Some? ==> r == Ok(MarkClaimed(s, roundName, sender), [BankSend(sender, pay.value)]))
  }

  lemma IntendedSoleWinIsPaid(s: Storage, sender: Addr, roundName: string)
    requires UnclaimedWin(s, sender, roundName) && s.rounds[roundName].participantsCount == 1
    ensures PaysSoleShare(s, sender, roundName)
  {
  }

  lemma IntendedSharedWinIsPaid(s: Storage, sender: Addr, roundName: string)
    requires UnclaimedWin(s, sender, roundName)
    requires s.rounds[roundName].participantsCount != 1 && s.rounds[roundName].totalBetAmount >= 2
    ensures PaysSharedShare(s, sender, roundName)
  {
    var round, bet := s.rounds[roundName], s.bets[(roundName, sender)];
    var sharable := SharableAmount(round.totalBetAmount);
    var pay := ProportionalPayout(s.roundDenomBets, roundName, bet.amount, sharable, round.betDenoms);
    PayoutOverPositiveShare(s.roundDenomBets, roundName, bet.amount, sharable, round.betDenoms);
    match pay
    case None =>
      assert SettleIntended(s, sender, roundName) == Abort;
    case Some(cs) =>
      assert SettleIntended(s, sender, roundName) == Ok(MarkClaimed(s, roundName, sender), [BankSend(sender, cs)]);
  }

  /** With a positive divisor the proportional payout is the per-denom
      payout of the stake's whole share. */
  lemma PayoutOverPositiveShare(rdb: map<RoundDenomKey, U128>, name: string, stake: U128, sharable: nat, denoms: seq<Denom>)
    requires sharable > 0
    ensures ProportionalPayout(rdb, name, stake, sharable, denoms) == DenomPayouts(rdb, name, stake / sharable, denoms)
  {
  }

  /** With the corrected percentages a sole winner staking at least 5 is
      paid a positive 20% of the stake, where as written they are paid 0;
      and with two or more coins at stake the payout divisor is never zero,
      so the claim is paid the proportional coins, and panics exactly when
      one of them overflows `u128`. */
  lemma IntendedWinIsPaid(s: Storage, sender: Addr, roundName: string)
    requires UnclaimedWin(s, sender, roundName)
    ensures s.rounds[roundName].participantsCount == 1 ==>
      && PaysSoleShare(s, sender, roundName)
      && (s.bets[(roundName, sender)].amount >= 5 ==> SoleWinnerShare(s.bets[(roundName, sender)].amount) > 0)
    ensures s.rounds[roundName].participantsCount != 1 && s.rounds[roundName].totalBetAmount >= 2 ==>
      PaysSharedShare(s, sender, roundName)
  {
    var round := s.rounds[roundName];
    if round.participantsCount == 1 {
      IntendedSoleWinIsPaid(s, sender, roundName);
    } else if round.totalBetAmount >= 2 {
      IntendedSharedWinIsPaid(s, sender, roundName);
    }
  }
}
