/** The NFT contract as the update scripts see it: reads of the token
    registry and of each token's owner and handle, and the one state-changing
    call `updatePerformanceMetrics` with its confirmation. Each call is an
    oracle; the `Ledger` object records, in order, every call issued to the
    NFT contract. */
module NftLedger {
  import opened Outcomes
  import opened DefiData

  /** One `updatePerformanceMetrics` transaction: the token and the six
      positional values, as the decimal strings they are passed as. */
  datatype Tx = Tx(tokenId: TokenId, args: seq<string>)

  /** What the NFT contract answers to each call. */
  datatype NftContract = NftContract(
    ownerOf: TokenId -> Result<Address>,
    tokenTwitterHandles: TokenId -> Result<string>,
    totalSupply: Result<nat>,
    tokenByIndex: nat -> Result<TokenId>,
    submit: Tx -> Result<()>,
    confirm: Tx -> Result<()>)

  /** Everything outside the pipeline: the NFT contract, the protocol
      contracts with the ABIs they are built with, and the reputation API. */
  datatype World = World(
    nft: NftContract,
    markets: Markets,
    code: Code,
    reputation: string -> Result<nat>)

  /** A call issued to the NFT contract. */
  datatype Call =
    | OwnerOfCall(tokenId: TokenId)
    | HandleCall(tokenId: TokenId)
    | TotalSupplyCall
    | TokenByIndexCall(index: nat)
    | SubmitCall(tx: Tx)
    | WaitCall(tx: Tx)

  class Ledger {
    const world: World
    var trace: seq<Call>

    constructor (world: World)
      ensures this.world == world && trace == []
    {
      this.world := world;
      trace := [];
    }

    method OwnerOf(tokenId: TokenId) returns (r: Result<Address>)
      modifies this
      ensures r == world.nft.ownerOf(tokenId)
      ensures trace == old(trace) + [OwnerOfCall(tokenId)]
    {
      r := world.nft.ownerOf(tokenId);
      trace := trace + [OwnerOfCall(tokenId)];
    }

    method TokenTwitterHandles(tokenId: TokenId) returns (r: Result<string>)
      modifies this
      ensures r == world.nft.tokenTwitterHandles(tokenId)
      ensures trace == old(trace) + [HandleCall(tokenId)]
    {
      r := world.nft.tokenTwitterHandles(tokenId);
      trace := trace + [HandleCall(tokenId)];
    }

    method TotalSupply() returns (r: Result<nat>)
      modifies this
      ensures r == world.nft.totalSupply
      ensures trace == old(trace) + [TotalSupplyCall]
    {
      r := world.nft.totalSupply;
      trace := trace + [TotalSupplyCall];
    }

    method TokenByIndex(index: nat) returns (r: Result<TokenId>)
      modifies this
      ensures r == world.nft.tokenByIndex(index)
      ensures trace == old(trace) + [TokenByIndexCall(index)]
    {
      r := world.nft.tokenByIndex(index);
      trace := trace + [TokenByIndexCall(index)];
    }

    method UpdatePerformanceMetrics(tx: Tx) returns (r: Result<()>)
      modifies this
      ensures r == world.nft.submit(tx)
      ensures trace == old(trace) + [SubmitCall(tx)]
    {
      r := world.nft.submit(tx);
      trace := trace + [SubmitCall(tx)];
    }

    method Wait(tx: Tx) returns (r: Result<()>)
      modifies this
      ensures r == world.nft.confirm(tx)
      ensures trace == old(trace) + [WaitCall(tx)]
    {
      r := world.nft.confirm(tx);
      trace := trace + [WaitCall(tx)];
    }
  }
}
