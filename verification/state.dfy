/** The contract's persistent records and the shape of its keyed stores
    (src/state.rs, with the field set the handlers in src/contract.rs use). */
module State {

  /** Rust's `u64` and `u128`: the model keeps values unbounded and checks the
      bound wherever the contract adds, subtracts or multiplies. */
  const U64_MAX: nat := 0xFFFF_FFFF_FFFF_FFFF
  const U128_MAX: nat := 0xFFFF_FFFF_FFFF_FFFF_FFFF_FFFF_FFFF_FFFF

  type U64 = n: nat | n <= U64_MAX
  type U128 = n: nat | n <= U128_MAX

  /** Addresses and denominations are plain strings; address validation is
      done by the host chain and is not part of this model. */
  type Addr = string
  type Denom = string

  /** A `Decimal` exchange rate, as its integer atomics: prices are only
      compared with each other, never computed with. */
  type Price = nat

  datatype Option<T> = None | Some(value: T)

  /** The bettor's prediction: exactly two variants. */
  datatype Side = Up | Down

  datatype Config = Config(
    admins: seq<Addr>,
    assetDenom: Denom,
    treasuryAddr: Addr,
    acceptedBetDenoms: seq<Denom>)

  /** `Vec::contains`, and `iter().any(|a| a == x)`: a linear scan. */
  function Contains(xs: seq<string>, x: string): (r: bool)
    ensures r <==> exists i :: 0 <= i < |xs| && xs[i] == x
  {
    if |xs| == 0 then false
    else if xs[0] == x then true
    else
      var r' := Contains(xs[1..], x);
      assert r' ==> exists i :: 1 <= i < |xs| && xs[i] == x by {
        if r' {
          var j :| 0 <= j < |xs[1..]| && xs[1..][j] == x;
          assert xs[j + 1] == x;
        }
      }
      r'
  }

  /** `Config::is_admin`: the address is one of the registered admins. */
  function IsAdmin(cfg: Config, addr: Addr): (r: bool)
    ensures r <==> exists i :: 0 <= i < |cfg.admins| && cfg.admins[i] == addr
    ensures r <==> addr in cfg.admins
  {
    Contains(cfg.admins, addr)
  }

  datatype Round = Round(
    createdAt: U64,
    creator: Addr,
    isStarted: bool,
    startedAt: Option<U64>,
    isStopped: bool,
    stoppedAt: Option<U64>,
    startTime: U64,
    stopTime: U64,
    participantsCount: U128,
    upBetsCount: U128,
    downBetsCount: U128,
    totalBetAmount: U128,
    totalUpBetAmount: U128,
    totalDownBetAmount: U128,
    totalWithdrawnAmount: U128,
    startPrice: Option<Price>,
    stopPrice: Option<Price>,
    betDenoms: seq<Denom>,
    feesClaimed: bool)

  datatype Bet = Bet(
    side: Side,
    amount: U128,
    denom: Denom,
    winClaimed: bool,
    placedAt: U64)

  /** `BET` is keyed by (round name, bettor), `ROUNDDENOMBET` by
      (round name, denomination). */
  type BetKey = (string, Addr)
  type RoundDenomKey = (string, Denom)

  /** The contract's whole store: the config singleton and the four maps
      `ROUND`, `BET`, `ROUNDDENOMBET` and `TREASURYPOOLDENOM`. */
  datatype Storage = Storage(
    config: Config,
    rounds: map<string, Round>,
    bets: map<BetKey, Bet>,
    roundDenomBets: map<RoundDenomKey, U128>,
    treasuryPool: map<Denom, U128>)

  predicate NoDuplicates(xs: seq<Denom>) {
    forall i, j :: 0 <= i < j < |xs| ==> xs[i] != xs[j]
  }
}
