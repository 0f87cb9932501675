/**
 * The token and token-tracker records of the wallet page, as far as the
 * wallet manager reads them (types/tokens.ts). Display-only fields (title,
 * image, rank, attributes, timestamps) are not part of this model.
 */
module Tokens {
  import opened Wrappers

  /** A token's market data. `collection` is declared required, but the code
      treats it by truthiness, so a missing and an empty name behave alike. */
  datatype Token = Token(
    id: string,
    collection: Option<string>,
    floorPrice: Option<real>,
    suggestedPrice: Option<real>)

  /** A user's alert subscription for one token held in one wallet. */
  datatype TokenTracker = TokenTracker(
    id: string,
    walletAddress: string,
    active: bool,
    tokenTrackerType: Option<string>,
    above: Option<real>,
    below: Option<real>,
    token: Option<Token>)

  /** The body of the save request (IUpdateTokenTracker). */
  datatype TrackerUpdate = TrackerUpdate(
    id: string,
    active: bool,
    tokenTrackerType: Option<string>,
    above: Option<real>,
    below: Option<real>)

  /** A discovered NFT that no tracker manages yet. */
  datatype Nft = Nft(id: string, walletAddress: string)

  /** The wallet fetch response (IGetWalletData). */
  datatype WalletData = WalletData(
    tracked: seq<TokenTracker>,
    untracked: seq<Nft>,
    tokenTrackingTypes: seq<string>)
}
