/** The per-token update procedure (scripts/updateNFTMetadata.js): resolve
    the owner, then the handle, build the metadata from them, issue one
    positional `updatePerformanceMetrics` write and wait for it. Every
    rejection along the way is caught and reported as `false`. */
module UpdateNftMetadata {
  import opened Outcomes
  import opened Decimal
  import opened DefiData
  import opened NftLedger

  /** The calls one update issues to the NFT contract, in order, and its answer. */
  datatype Run = Run(calls: seq<Call>, succeeded: bool)

  /** `metadata.attributes[0].value` … `metadata.attributes[5].value`. */
  function WriteArgs(md: Metadata): (args: seq<string>)
    requires |md.attributes| == 6
    ensures |args| == 6
  {
    [ md.attributes[0].value, md.attributes[1].value, md.attributes[2].value,
      md.attributes[3].value, md.attributes[4].value, md.attributes[5].value ]
  }

  /** The metadata the update builds, when owner and handle both resolve. */
  function ResolvedMetadata(w: World, tokenId: TokenId): Result<Metadata> {
    match w.nft.ownerOf(tokenId)
    case Err(f) => Err(f)
    case Ok(owner) =>
      match w.nft.tokenTwitterHandles(tokenId)
      case Err(f) => Err(f)
      case Ok(handle) => GenerateMetadata(w.code, w.markets, w.reputation, tokenId, owner, handle)
  }

  /** What `updateNFTMetadata(tokenId)` does against the world `w`. */
  function UpdateRun(w: World, tokenId: TokenId): (run: Run)
    // the owner is always resolved first, the handle second
    ensures 1 <= |run.calls| <= 4 && run.calls[0] == OwnerOfCall(tokenId)
    ensures |run.calls| >= 2 <==> w.nft.ownerOf(tokenId).Ok?
    ensures |run.calls| >= 2 ==> run.calls[1] == HandleCall(tokenId)
    ensures forall i :: 1 <= i < |run.calls| ==> !run.calls[i].OwnerOfCall?
    // at most one write, and only once the metadata exists
    ensures forall i :: 0 <= i < |run.calls| && run.calls[i].SubmitCall? ==> i == 2
    ensures |run.calls| >= 3 <==> ResolvedMetadata(w, tokenId).Ok?
    ensures |run.calls| >= 3 ==>
      && run.calls[2].SubmitCall?
      && run.calls[2].tx == Tx(tokenId, WriteArgs(ResolvedMetadata(w, tokenId).value))
    // the wait follows an accepted write only
    ensures |run.calls| == 4 <==> |run.calls| >= 3 && w.nft.submit(run.calls[2].tx).Ok?
    ensures |run.calls| == 4 ==> run.calls[3] == WaitCall(run.calls[2].tx)
    // true only once the write was accepted and confirmed
    ensures run.succeeded <==> |run.calls| == 4 && w.nft.confirm(run.calls[2].tx).Ok?
  {
    match ResolvedMetadata(w, tokenId)
    case Err(_) =>
      if w.nft.ownerOf(tokenId).Err? then Run([OwnerOfCall(tokenId)], false)
      else Run([OwnerOfCall(tokenId), HandleCall(tokenId)], false)
    case Ok(metadata) =>
      var tx := Tx(tokenId, WriteArgs(metadata));
      if w.nft.submit(tx).Err? then Run([OwnerOfCall(tokenId), HandleCall(tokenId), SubmitCall(tx)], false)
      else Run([OwnerOfCall(tokenId), HandleCall(tokenId), SubmitCall(tx), WaitCall(tx)], w.nft.confirm(tx).Ok?)
  }

  /** `updateNFTMetadata`: never raises; the ledger records exactly the calls
      of `UpdateRun` and the answer is its verdict. */
  method UpdateNFTMetadata(ledger: Ledger, tokenId: TokenId) returns (ok: bool)
    modifies ledger
    ensures ledger.trace == old(ledger.trace) + UpdateRun(ledger.world, tokenId).calls
    ensures ok == UpdateRun(ledger.world, tokenId).succeeded
  {
    var w := ledger.world;
    var owner := ledger.OwnerOf(tokenId);
    if owner.Err? {
      return false;
    }
    var handle := ledger.TokenTwitterHandles(tokenId);
    if handle.Err? {
      return false;
    }
    var metadata := GenerateMetadata(w.code, w.markets, w.reputation, tokenId, owner.value, handle.value);
    if metadata.Err? {
      return false;
    }
    var tx := Tx(tokenId, WriteArgs(metadata.value));
    var sent := ledger.UpdatePerformanceMetrics(tx);
    if sent.Err? {
      return false;
    }
    var confirmed := ledger.Wait(tx);
    ok := confirmed.Ok?;
  }

  /** The write carries the token id, then the five position values in the
      order Uniswap, Aave, Curve, Maker, Pendle, then the reputation score,
      each computed for the owner and handle resolved just before. */
  lemma WriteCarriesPositions(w: World, tokenId: TokenId)
    requires |UpdateRun(w, tokenId).calls| >= 3
    ensures w.nft.ownerOf(tokenId).Ok? && w.nft.tokenTwitterHandles(tokenId).Ok?
    ensures
      var owner := w.nft.ownerOf(tokenId).value;
      var handle := w.nft.tokenTwitterHandles(tokenId).value;
      var tx := UpdateRun(w, tokenId).calls[2].tx;
      && tx.tokenId == tokenId
      && |tx.args| == 6
      && (forall k :: 0 <= k < 5 ==> ParseDecimal(tx.args[k]) == Some(Positions(w.code, w.markets, owner)[k].value))
      && ParseDecimal(tx.args[5]) == Some(FetchYaps(w.reputation, handle) as int)
  {
    var owner := w.nft.ownerOf(tokenId).value;
    var handle := w.nft.tokenTwitterHandles(tokenId).value;
    MetadataDecodes(w.code, w.markets, w.reputation, tokenId, owner, handle);
  }

  /** A failed owner lookup, handle lookup or metadata build means no write
      and `false`. */
  lemma NoWriteWithoutMetadata(w: World, tokenId: TokenId)
    requires ResolvedMetadata(w, tokenId).Err?
    ensures !UpdateRun(w, tokenId).succeeded
    ensures forall c :: c in UpdateRun(w, tokenId).calls ==> !c.SubmitCall? && !c.WaitCall?
  {
  }

  /** With the adapters as written, no update ever writes. */
  lemma UpdateAsWrittenNeverWrites(w: World, tokenId: TokenId)
    requires w.code == SourceCode
    ensures !UpdateRun(w, tokenId).succeeded
    ensures |UpdateRun(w, tokenId).calls| <= 2
  {
    if w.nft.ownerOf(tokenId).Ok? && w.nft.tokenTwitterHandles(tokenId).Ok? {
      MetadataAsWrittenFails(w.markets, w.reputation, tokenId,
        w.nft.ownerOf(tokenId).value, w.nft.tokenTwitterHandles(tokenId).value);
    }
  }
}
