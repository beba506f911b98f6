/** Every execute handler keeps the store invariant of `Books.Inv`, and under
    it `withdraw_bet`'s subtractions never underflow. */
module Invariant {
  import opened State
  import opened Errors
  import opened Contract
  import opened Books

  // ---------------------------------------------------------------------
  // Frame: a round whose records a handler does not touch keeps its books

  /** `r1` carries the same bookkeeping fields as `r0`, and is started if
      `r0` was. */
  predicate SameBooks(r0: Round, r1: Round) {
    && r1.upBetsCount == r0.upBetsCount && r1.downBetsCount == r0.downBetsCount
    && r1.totalUpBetAmount == r0.totalUpBetAmount && r1.totalDownBetAmount == r0.totalDownBetAmount
    && r1.totalBetAmount == r0.totalBetAmount && r1.participantsCount == r0.participantsCount
    && r1.betDenoms == r0.betDenoms
    && (r0.isStarted ==> r1.isStarted)
  }

  lemma BooksFramed(s: Storage, s': Storage, n: string)
    requires n in s.rounds && n in s'.rounds && RoundBooks(s, n)
    requires SameBooks(s.rounds[n], s'.rounds[n])
    requires forall m :: Total(s'.bets, n, m) == Total(s.bets, n, m)
    requires forall d :: (n, d) in s'.roundDenomBets <==> (n, d) in s.roundDenomBets
    requires forall d :: (n, d) in s.roundDenomBets ==> s'.roundDenomBets[(n, d)] == s.roundDenomBets[(n, d)]
    requires forall u :: (n, u) in s'.bets ==>
      && (n, u) in s.bets
      && s'.bets[(n, u)].denom == s.bets[(n, u)].denom
      && (s'.bets[(n, u)].winClaimed ==> s.bets[(n, u)].winClaimed || s'.rounds[n].isStarted)
    ensures RoundBooks(s', n)
  {
    forall u | (n, u) in s'.bets ensures BetFiled(s', n, s'.bets[(n, u)]) {
      assert BetFiled(s, n, s.bets[(n, u)]);
    }
  }

  // ---------------------------------------------------------------------
  // place_bet

  /** A round other than the one bet on keeps its books. */
  lemma RecordedOtherRound(s: Storage, s': Storage, name: string, sender: Addr, bet: Bet, n: string)
    requires BetRecorded(s, s', name, sender, bet)
    requires forall nm, m :: Total(s'.bets, nm, m) == Total(s.bets, nm, m) + Weigh(nm, m, (name, sender), bet)
    requires n in s.rounds && RoundBooks(s, n) && n != name
    ensures n in s'.rounds && RoundBooks(s', n)
  {
    forall m ensures Total(s'.bets, n, m) == Total(s.bets, n, m) {
      assert Weigh(n, m, (name, sender), bet) == 0;
    }
    BooksFramed(s, s', n);
  }

  /** The bet-on round's per-side counts and stakes stay the sums of its bets. */
  lemma RecordedCounters(s: Storage, s': Storage, name: string, sender: Addr, bet: Bet)
    requires BetRecorded(s, s', name, sender, bet) && RoundBooks(s, name)
    requires forall nm, m :: Total(s'.bets, nm, m) == Total(s.bets, nm, m) + Weigh(nm, m, (name, sender), bet)
    ensures var r1 := s'.rounds[name];
      && r1.upBetsCount == Total(s'.bets, name, BetsOn(Up))
      && r1.downBetsCount == Total(s'.bets, name, BetsOn(Down))
      && r1.totalUpBetAmount == Total(s'.bets, name, StakeOn(Up))
      && r1.totalDownBetAmount == Total(s'.bets, name, StakeOn(Down))
      && r1.totalBetAmount == r1.totalUpBetAmount + r1.totalDownBetAmount
      && r1.participantsCount == r1.upBetsCount + r1.downBetsCount
  {
  }

  /** The bet-on round's denomination records stay consistent with its bets. */
  lemma RecordedDenoms(s: Storage, s': Storage, name: string, sender: Addr, bet: Bet)
    requires BetRecorded(s, s', name, sender, bet) && RoundBooks(s, name) && !bet.winClaimed
    requires forall nm, m :: Total(s'.bets, nm, m) == Total(s.bets, nm, m) + Weigh(nm, m, (name, sender), bet)
    requires RoundDenomTotal(s, name, bet.denom) == Total(s.bets, name, StakeIn(bet.denom))
    ensures NoDuplicates(s'.rounds[name].betDenoms)
    ensures forall d :: (name, d) in s'.roundDenomBets ==>
      s'.roundDenomBets[(name, d)] == Total(s'.bets, name, StakeIn(d))
    ensures forall u :: (name, u) in s'.bets ==> BetFiled(s', name, s'.bets[(name, u)])
  {
    forall d | (name, d) in s'.roundDenomBets
      ensures s'.roundDenomBets[(name, d)] == Total(s'.bets, name, StakeIn(d))
    {
      if d != bet.denom {
        assert s'.roundDenomBets[(name, d)] == s.roundDenomBets[(name, d)];
      }
    }
    forall u | (name, u) in s'.bets ensures BetFiled(s', name, s'.bets[(name, u)]) {
      if u != sender {
        assert BetFiled(s, name, s.bets[(name, u)]);
      }
    }
  }

  lemma RecordedKeepsRound(s: Storage, s': Storage, name: string, sender: Addr, bet: Bet, n: string)
    requires Inv(s) && BetRecorded(s, s', name, sender, bet) && !bet.winClaimed
    requires forall nm, m :: Total(s'.bets, nm, m) == Total(s.bets, nm, m) + Weigh(nm, m, (name, sender), bet)
    requires RoundDenomTotal(s, name, bet.denom) == Total(s.bets, name, StakeIn(bet.denom))
    requires n in s'.rounds
    ensures Lifecycle(s'.rounds[n]) && RoundBooks(s', n)
  {
    assert Lifecycle(s.rounds[n]) && RoundBooks(s, n);
    if n != name {
      RecordedOtherRound(s, s', name, sender, bet, n);
    } else {
      RecordedCounters(s, s', name, sender, bet);
      RecordedDenoms(s, s', name, sender, bet);
    }
  }

  /** Recording a new, unclaimed bet keeps the invariant. */
  lemma RecordedKeepsInv(s: Storage, s': Storage, name: string, sender: Addr, bet: Bet)
    requires Inv(s) && BetRecorded(s, s', name, sender, bet) && !bet.winClaimed
    ensures Inv(s')
  {
    TotalsAfterInsert(s.bets, (name, sender), bet);
    RoundDenomTotalIsSum(s, name, bet.denom);
    forall n | n in s'.rounds ensures Lifecycle(s'.rounds[n]) && RoundBooks(s', n) {
      RecordedKeepsRound(s, s', name, sender, bet, n);
    }
  }

  lemma PlaceBetPreservesInv(s: Storage, sender: Addr, now: U64, funds: seq<Coin>, side: Side, roundName: string)
    requires Inv(s)
    ensures var r := PlaceBet(s, sender, now, funds, side, roundName);
      r.Ok? ==> Inv(r.store)
  {
    var r := PlaceBet(s, sender, now, funds, side, roundName);
    if r.Ok? {
      RecordedKeepsInv(s, r.store, roundName, sender, Bet(side, funds[0].amount, funds[0].denom, false, now));
    }
  }

  // ---------------------------------------------------------------------
  // withdraw_bet

  /** Under the invariant a stored bet's stake is covered by every
      aggregate it was added to. */
  lemma StakeCovered(s: Storage, name: string, sender: Addr)
    requires Inv(s) && (name, sender) in s.bets
    ensures name in s.rounds
    ensures !UndoUnderflows(s, s.rounds[name], name, s.bets[(name, sender)])
  {
    assert RoundBooks(s, name);
    RoundCoversBet(s, name, (name, sender));
  }

  /** A round whose books balance can give back any one of its bets. */
  lemma RoundCoversBet(s: Storage, name: string, k: BetKey)
    requires name in s.rounds && RoundBooks(s, name) && k in s.bets && k.0 == name
    ensures !UndoUnderflows(s, s.rounds[name], name, s.bets[k])
  {
    var bet := s.bets[k];
    CountersCoverBet(s.bets, name, k, s.rounds[name]);
    assert BetFiled(s, name, bet);
    TotalRemove(s.bets, name, StakeIn(bet.denom), k);
  }

  /** A round whose counters are the sums over its bets can give back any
      one of those bets. */
  lemma CountersCoverBet(bets: map<BetKey, Bet>, name: string, k: BetKey, round: Round)
    requires k in bets && k.0 == name
    requires round.upBetsCount == Total(bets, name, BetsOn(Up))
    requires round.downBetsCount == Total(bets, name, BetsOn(Down))
    requires round.totalUpBetAmount == Total(bets, name, StakeOn(Up))
    requires round.totalDownBetAmount == Total(bets, name, StakeOn(Down))
    requires round.totalBetAmount == round.totalUpBetAmount + round.totalDownBetAmount
    requires round.participantsCount == round.upBetsCount + round.downBetsCount
    ensures SideCount(round, bets[k].side) >= 1 && SideTotal(round, bets[k].side) >= bets[k].amount
    ensures round.totalBetAmount >= bets[k].amount && round.participantsCount >= 1
  {
    TotalRemove(bets, name, BetsOn(bets[k].side), k);
    TotalRemove(bets, name, StakeOn(bets[k].side), k);
  }

  /** Under the invariant `withdraw_bet` never panics: none of its
      subtractions can go below zero. */
  lemma WithdrawBetNeverAborts(s: Storage, sender: Addr, now: U64, roundName: string)
    requires Inv(s)
    ensures !WithdrawBet(s, sender, now, roundName).Abort?
  {
    if (roundName, sender) in s.bets {
      StakeCovered(s, roundName, sender);
    }
  }

  lemma UndoneOtherRound(s: Storage, s': Storage, name: string, sender: Addr, n: string)
    requires BetUndone(s, s', name, sender)
    requires forall nm, m :: Total(s'.bets, nm, m) + Weigh(nm, m, (name, sender), s.bets[(name, sender)]) == Total(s.bets, nm, m)
    requires n in s.rounds && RoundBooks(s, n) && n != name
    ensures n in s'.rounds && RoundBooks(s', n)
  {
    forall m ensures Total(s'.bets, n, m) == Total(s.bets, n, m) {
      assert Weigh(n, m, (name, sender), s.bets[(name, sender)]) == 0;
    }
    BooksFramed(s, s', n);
  }

  lemma UndoneCounters(s: Storage, s': Storage, name: string, sender: Addr)
    requires BetUndone(s, s', name, sender) && RoundBooks(s, name)
    requires forall nm, m :: Total(s'.bets, nm, m) + Weigh(nm, m, (name, sender), s.bets[(name, sender)]) == Total(s.bets, nm, m)
    ensures var r1 := s'.rounds[name];
      && r1.upBetsCount == Total(s'.bets, name, BetsOn(Up))
      && r1.downBetsCount == Total(s'.bets, name, BetsOn(Down))
      && r1.totalUpBetAmount == Total(s'.bets, name, StakeOn(Up))
      && r1.totalDownBetAmount == Total(s'.bets, name, StakeOn(Down))
      && r1.totalBetAmount == r1.totalUpBetAmount + r1.totalDownBetAmount
      && r1.participantsCount == r1.upBetsCount + r1.downBetsCount
  {
  }

  lemma UndoneDenoms(s: Storage, s': Storage, name: string, sender: Addr)
    requires BetUndone(s, s', name, sender) && RoundBooks(s, name)
    requires forall nm, m :: Total(s'.bets, nm, m) + Weigh(nm, m, (name, sender), s.bets[(name, sender)]) == Total(s.bets, nm, m)
    ensures NoDuplicates(s'.rounds[name].betDenoms)
    ensures forall d :: (name, d) in s'.roundDenomBets ==>
      s'.roundDenomBets[(name, d)] == Total(s'.bets, name, StakeIn(d))
    ensures forall u :: (name, u) in s'.bets ==> BetFiled(s', name, s'.bets[(name, u)])
  {
    var bet := s.bets[(name, sender)];
    assert BetFiled(s, name, bet);
    forall d | (name, d) in s'.roundDenomBets
      ensures s'.roundDenomBets[(name, d)] == Total(s'.bets, name, StakeIn(d))
    {
      if d != bet.denom {
        assert s'.roundDenomBets[(name, d)] == s.roundDenomBets[(name, d)];
      }
    }
    forall u | (name, u) in s'.bets ensures BetFiled(s', name, s'.bets[(name, u)]) {
      assert BetFiled(s, name, s.bets[(name, u)]);
    }
  }

  lemma UndoneKeepsRound(s: Storage, s': Storage, name: string, sender: Addr, n: string)
    requires Inv(s) && BetUndone(s, s', name, sender)
    requires forall nm, m :: Total(s'.bets, nm, m) + Weigh(nm, m, (name, sender), s.bets[(name, sender)]) == Total(s.bets, nm, m)
    requires n in s'.rounds
    ensures Lifecycle(s'.rounds[n]) && RoundBooks(s', n)
  {
    assert Lifecycle(s.rounds[n]) && RoundBooks(s, n);
    if n != name {
      UndoneOtherRound(s, s', name, sender, n);
    } else {
      UndoneCounters(s, s', name, sender);
      UndoneDenoms(s, s', name, sender);
    }
  }

  lemma WithdrawBetPreservesInv(s: Storage, sender: Addr, now: U64, roundName: string)
    requires Inv(s)
    ensures var r := WithdrawBet(s, sender, now, roundName);
      r.Ok? ==> Inv(r.store)
  {
    var r := WithdrawBet(s, sender, now, roundName);
    if r.Ok? {
      var s' := r.store;
      TotalsAfterRemove(s.bets, (roundName, sender));
      forall n | n in s'.rounds ensures Lifecycle(s'.rounds[n]) && RoundBooks(s', n) {
        UndoneKeepsRound(s, s', roundName, sender, n);
      }
    }
  }

  // ---------------------------------------------------------------------
  // Round registry, settlement, treasury and config

  /** A freshly created round has empty books: no stored bet or
      per-denomination total can belong to a name not yet in use. */
  lemma FreshRoundBooks(s: Storage, s': Storage, name: string, round: Round)
    requires forall k :: k in s.bets ==> k.0 in s.rounds
    requires forall k :: k in s.roundDenomBets ==> k.0 in s.rounds
    requires name !in s.rounds
    requires s' == s.(rounds := s.rounds[name := round])
    requires round.participantsCount == 0 && round.upBetsCount == 0 && round.downBetsCount == 0
    requires round.totalBetAmount == 0 && round.totalUpBetAmount == 0 && round.totalDownBetAmount == 0
    requires round.betDenoms == []
    ensures RoundBooks(s', name)
  {
    forall m ensures Total(s'.bets, name, m) == 0 {
      TotalZero(s'.bets, name, m);
    }
  }

  lemma CreateRoundPreservesInv(s: Storage, sender: Addr, now: U64, startTime: U64, name: string)
    requires Inv(s)
    ensures var r := CreateRound(s, sender, now, startTime, name);
      r.Ok? ==> Inv(r.store)
  {
    var r := CreateRound(s, sender, now, startTime, name);
    if r.Ok? {
      var s' := r.store;
      var round := s'.rounds[name];
      FreshRoundBooks(s, s', name, round);
      forall n | n in s'.rounds ensures Lifecycle(s'.rounds[n]) && RoundBooks(s', n) {
        if n != name {
          assert Lifecycle(s.rounds[n]) && RoundBooks(s, n);
          BooksFramed(s, s', n);
        }
      }
    }
  }

  /** A handler that rewrites only round `name`'s lifecycle fields, and the
      treasury pool, keeps the invariant if the new round keeps its
      lifecycle. */
  lemma FlagsOnlyKeepInv(s: Storage, s': Storage, name: string)
    requires Inv(s) && name in s.rounds
    requires s' == s.(rounds := s'.rounds, treasuryPool := s'.treasuryPool)
    requires name in s'.rounds && s'.rounds == s.rounds[name := s'.rounds[name]]
    requires SameBooks(s.rounds[name], s'.rounds[name]) && Lifecycle(s'.rounds[name])
    ensures Inv(s')
  {
    forall n | n in s'.rounds ensures Lifecycle(s'.rounds[n]) && RoundBooks(s', n) {
      assert Lifecycle(s.rounds[n]) && RoundBooks(s, n);
      BooksFramed(s, s', n);
    }
  }

  lemma StartRoundPreservesInv(s: Storage, sender: Addr, now: U64, name: string, rate: Price)
    requires Inv(s)
    ensures var r := StartRound(s, sender, now, name, rate);
      r.Ok? ==> Inv(r.store)
  {
    var r := StartRound(s, sender, now, name, rate);
    if r.Ok? {
      assert Lifecycle(s.rounds[name]);
      FlagsOnlyKeepInv(s, r.store, name);
    }
  }

  lemma StopRoundPreservesInv(s: Storage, sender: Addr, now: U64, name: string, rate: Price)
    requires Inv(s)
    ensures var r := StopRound(s, sender, now, name, rate);
      r.Ok? ==> Inv(r.store)
  {
    var r := StopRound(s, sender, now, name, rate);
    if r.Ok? {
      assert Lifecycle(s.rounds[name]);
      FlagsOnlyKeepInv(s, r.store, name);
    }
  }

  lemma ClaimMarksKeepRound(s: Storage, roundName: string, sender: Addr, n: string)
    requires roundName in s.rounds && (roundName, sender) in s.bets && s.rounds[roundName].isStarted
    requires n in s.rounds && Lifecycle(s.rounds[n]) && RoundBooks(s, n)
    requires forall nm, m :: Total(MarkClaimed(s, roundName, sender).bets, nm, m) == Total(s.bets, nm, m)
    ensures var s' := MarkClaimed(s, roundName, sender);
      n in s'.rounds && Lifecycle(s'.rounds[n]) && RoundBooks(s', n)
  {
    BooksFramed(s, MarkClaimed(s, roundName, sender), n);
  }

  /** Marking a bet of a started round claimed, and the round's fees
      claimed, keeps the invariant. */
  lemma ClaimMarksKeepInv(s: Storage, roundName: string, sender: Addr)
    requires Inv(s) && roundName in s.rounds && (roundName, sender) in s.bets
    requires s.rounds[roundName].isStarted
    ensures Inv(MarkClaimed(s, roundName, sender))
  {
    var s' := MarkClaimed(s, roundName, sender);
    var k := (roundName, sender);
    TotalsAfterRelabel(s.bets, k, s.bets[k].(winClaimed := true));
    forall n | n in s'.rounds ensures Lifecycle(s'.rounds[n]) && RoundBooks(s', n) {
      ClaimMarksKeepRound(s, roundName, sender, n);
    }
  }

  lemma ClaimWinPreservesInv(s: Storage, sender: Addr, now: U64, roundName: string)
    requires Inv(s)
    ensures var r := ClaimWin(s, sender, now, roundName);
      r.Ok? ==> Inv(r.store)
  {
    var r := ClaimWin(s, sender, now, roundName);
    if r.Ok? && r.store != s {
      assert Lifecycle(s.rounds[roundName]);
      ClaimMarksKeepInv(s, roundName, sender);
    }
  }

  lemma WithdrawFromTreasuryPoolPreservesInv(s: Storage, sender: Addr, denom: Denom, toAddress: Addr, amount: U128)
    requires Inv(s)
    ensures var r := WithdrawFromTreasuryPool(s, sender, denom, toAddress, amount);
      r.Ok? ==> Inv(r.store)
  {
  }

  /** The config takes no part in the invariant. */
  lemma ConfigUpdatePreservesInv(s: Storage, cfg: Config)
    requires Inv(s)
    ensures Inv(s.(config := cfg))
  {
    var s' := s.(config := cfg);
    forall n | n in s'.rounds ensures Lifecycle(s'.rounds[n]) && RoundBooks(s', n) {
      assert Lifecycle(s.rounds[n]) && RoundBooks(s, n);
      BooksFramed(s, s', n);
    }
  }

  lemma UpdateAdminsPreservesInv(s: Storage, sender: Addr, admins: seq<Addr>)
    requires Inv(s)
    ensures var r := UpdateAdmins(s, sender, admins);
      r.Ok? ==> Inv(r.store)
  {
    ConfigUpdatePreservesInv(s, s.config.(admins := admins));
  }

  lemma UpdateAssetDenomPreservesInv(s: Storage, sender: Addr, assetDenom: Denom)
    requires Inv(s)
    ensures var r := UpdateAssetDenom(s, sender, assetDenom);
      r.Ok? ==> Inv(r.store)
  {
    ConfigUpdatePreservesInv(s, s.config.(assetDenom := assetDenom));
  }

  lemma UpdateAcceptedBetDenomsPreservesInv(s: Storage, sender: Addr, denoms: seq<Denom>)
    requires Inv(s)
    ensures var r := UpdateAcceptedBetDenoms(s, sender, denoms);
      r.Ok? ==> Inv(r.store)
  {
    ConfigUpdatePreservesInv(s, s.config.(acceptedBetDenoms := denoms));
  }
}
