/** The domain errors the contract's execute handlers return (src/error.rs).
    Only the variants the handlers actually raise are mirrored; the storage
    error wrapper and the variants no handler uses are left out. */
module Errors {

  datatype ContractError =
    | InvalidStartTime
    | Unauthorized
    | RoundAlreadyExists
    | RoundAlreadyEnded
    | RoundDoesNotExist
    | RoundAlreadyStarted
    | RoundStopTimePassed
    | RoundStillInProgress
    | NoCoinsSent
    | TooManyCoins
    | DenomNotSupported
    | BetAlreadyPlaced
    | BetNotFound
    | WinAlreadyClaimed
    | YouLost
    | InsufficientTreasuryDenomBalance
    | TreasuryDenomDoesNotExist
}
