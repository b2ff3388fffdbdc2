/** The update service (scripts/autoUpdateService.js): a start/stop state
    machine that runs one update cycle at once and arms an interval timer
    for the following ones. A cycle enumerates the tokens by index and calls
    the per-token update for each of them in order. */
module AutoUpdateService {
  import opened Outcomes
  import opened DefiData
  import opened NftLedger
  import opened UpdateNftMetadata

  /** The period between cycles: five minutes, in milliseconds. */
  const UpdateIntervalMs: nat := 5 * 60 * 1000

  type TimerId = nat

  // ----- specification of one cycle -----

  /** Resolving the indices `i` … `n - 1` in order; the first failing read
      rejects the whole enumeration. */
  function EnumerateFrom(nft: NftContract, i: nat, n: nat): Result<seq<TokenId>>
    requires i <= n
    decreases n - i
  {
    if i == n then Ok([])
    else match nft.tokenByIndex(i)
      case Err(f) => Err(f)
      case Ok(t) =>
        match EnumerateFrom(nft, i + 1, n)
        case Err(f) => Err(f)
        case Ok(rest) => Ok([t] + rest)
  }

  /** `getAllTokenIds`: the token count, then the id at each index below it. */
  function Enumerate(nft: NftContract): Result<seq<TokenId>> {
    match nft.totalSupply
    case Err(f) => Err(f)
    case Ok(n) => EnumerateFrom(nft, 0, n)
  }

  /** `ids` followed by the ids of `r`, or the fault of `r`. */
  function Prepend(ids: seq<TokenId>, r: Result<seq<TokenId>>): Result<seq<TokenId>> {
    match r
    case Ok(rest) => Ok(ids + rest)
    case Err(f) => Err(f)
  }

  lemma ConcatAssoc<T>(a: seq<T>, b: seq<T>, c: seq<T>)
    ensures (a + b) + c == a + (b + c)
  {
  }

  lemma ConcatNil<T>(a: seq<T>, b: seq<T>)
    requires b == []
    ensures a + b == a && b + a == a
  {
  }

  /** The updates of `ids` from position `k` on: the one of `ids[k]`, then the rest. */
  lemma UpdatesCallsStep(w: World, ids: seq<TokenId>, k: nat)
    requires k < |ids|
    ensures UpdatesCalls(w, ids[k..]) == UpdateRun(w, ids[k]).calls + UpdatesCalls(w, ids[k + 1..])
    ensures ids[..k + 1] == ids[..k] + [ids[k]]
  {
    assert ids[k..][1..] == ids[k + 1..];
  }

  lemma EnumerateStart(nft: NftContract)
    requires nft.totalSupply.Ok?
    ensures Enumerate(nft) == Prepend([], EnumerateFrom(nft, 0, nft.totalSupply.value))
  {
    var all := EnumerateFrom(nft, 0, nft.totalSupply.value);
    assert all.Ok? ==> [] + all.value == all.value;
  }

  /** One successful index read moves its id from the remaining
      enumeration to the ids collected so far. */
  lemma EnumerateStep(nft: NftContract, i: nat, n: nat, ids: seq<TokenId>)
    requires i < n && nft.tokenByIndex(i).Ok?
    ensures Prepend(ids, EnumerateFrom(nft, i, n))
         == Prepend(ids + [nft.tokenByIndex(i).value], EnumerateFrom(nft, i + 1, n))
    ensures IndexCalls(nft, i, n) == [TokenByIndexCall(i)] + IndexCalls(nft, i + 1, n)
  {
    var rest := EnumerateFrom(nft, i + 1, n);
    if rest.Ok? {
      assert ids + ([nft.tokenByIndex(i).value] + rest.value) == (ids + [nft.tokenByIndex(i).value]) + rest.value;
    }
  }

  /** The `tokenByIndex` calls from index `i` on: they stop after the first failure. */
  function IndexCalls(nft: NftContract, i: nat, n: nat): seq<Call>
    requires i <= n
    decreases n - i
  {
    if i == n then []
    else [TokenByIndexCall(i)] + (if nft.tokenByIndex(i).Ok? then IndexCalls(nft, i + 1, n) else [])
  }

  function EnumerationCalls(nft: NftContract): seq<Call> {
    [TotalSupplyCall] + match nft.totalSupply
      case Ok(n) => IndexCalls(nft, 0, n)
      case Err(_) => []
  }

  /** The calls of the per-token updates of `ids`, one after the other. */
  function UpdatesCalls(w: World, ids: seq<TokenId>): seq<Call>
    decreases |ids|
  {
    if ids == [] then [] else UpdateRun(w, ids[0]).calls + UpdatesCalls(w, ids[1..])
  }

  /** The tokens a cycle hands to the per-token update: none when enumeration fails. */
  function Attempted(w: World): seq<TokenId> {
    match Enumerate(w.nft)
    case Ok(ids) => ids
    case Err(_) => []
  }

  /** Every call one `updateAllTokens` cycle issues to the NFT contract. */
  function CycleCalls(w: World): seq<Call> {
    EnumerationCalls(w.nft) + UpdatesCalls(w, Attempted(w))
  }

  /** The tokens whose owner lookups appear in `calls`, in order: one per
      per-token update started. */
  function OwnerLookups(calls: seq<Call>): seq<TokenId>
    decreases |calls|
  {
    if calls == [] then []
    else (if calls[0].OwnerOfCall? then [calls[0].tokenId] else []) + OwnerLookups(calls[1..])
  }

  /** The tokens written to by `calls`, in order. */
  function WrittenTokens(calls: seq<Call>): seq<TokenId>
    decreases |calls|
  {
    if calls == [] then []
    else (if calls[0].SubmitCall? then [calls[0].tx.tokenId] else []) + WrittenTokens(calls[1..])
  }

  /** The tokens of `ids` whose metadata can be built, in order. */
  function Aggregated(w: World, ids: seq<TokenId>): seq<TokenId>
    decreases |ids|
  {
    if ids == [] then []
    else (if ResolvedMetadata(w, ids[0]).Ok? then [ids[0]] else []) + Aggregated(w, ids[1..])
  }

  // ----- the service -----

  /** The host's table of armed interval timers. */
  class Timers {
    var armed: map<TimerId, nat>
    var next: TimerId

    ghost predicate Valid()
      reads this
    {
      forall id :: id in armed ==> id < next
    }

    constructor ()
      ensures Valid() && armed == map[] && next == 0
    {
      armed := map[];
      next := 0;
    }

    /** `setInterval`: arms a new timer with the given period. */
    method SetInterval(period: nat) returns (id: TimerId)
      requires Valid()
      modifies this
      ensures Valid()
      ensures id == old(next) && id !in old(armed)
      ensures armed == old(armed)[id := period] && next == old(next) + 1
    {
      id := next;
      armed := armed[id := period];
      next := next + 1;
    }

    /** `clearInterval`: disarms the timer, if it is armed. */
    method ClearInterval(id: TimerId)
      requires Valid()
      modifies this
      ensures Valid()
      ensures armed == old(armed) - {id} && next == old(next)
    {
      armed := armed - {id};
    }
  }

  class MetadataUpdateService {
    const ledger: Ledger
    const timers: Timers
    const updateInterval: nat
    var isRunning: bool
    var interval: Option<TimerId>
    /** The tokens handed to the per-token update, over the service's lifetime. */
    ghost var attempted: seq<TokenId>

    /** Running exactly when one timer, the one in `interval`, is armed
        with the update period. */
    ghost predicate Valid()
      reads this, timers
    {
      && timers.Valid()
      && updateInterval == UpdateIntervalMs
      && (isRunning ==> interval.Some? && timers.armed == map[interval.value := updateInterval])
      && (!isRunning ==> timers.armed == map[])
    }

    constructor (ledger: Ledger)
      ensures Valid() && fresh(timers)
      ensures this.ledger == ledger && !isRunning && interval == None && attempted == []
    {
      this.ledger := ledger;
      timers := new Timers();
      updateInterval := UpdateIntervalMs;
      isRunning := false;
      interval := None;
      attempted := [];
    }

    /** `getAllTokenIds`: reads the count, then each index in turn. */
    method GetAllTokenIds() returns (r: Result<seq<TokenId>>)
      modifies ledger
      ensures r == Enumerate(ledger.world.nft)
      ensures ledger.trace == old(ledger.trace) + EnumerationCalls(ledger.world.nft)
    {
      var nft := ledger.world.nft;
      var totalSupply := ledger.TotalSupply();
      if totalSupply.Err? {
        ConcatNil([TotalSupplyCall], []);
        return Err(totalSupply.fault);
      }
      var n := totalSupply.value;
      var tokenIds: seq<TokenId> := [];
      var i := 0;
      EnumerateStart(nft);
      ghost var counted := ledger.trace;
      while i < n
        invariant 0 <= i <= n
        invariant ledger.trace + IndexCalls(nft, i, n) == counted + IndexCalls(nft, 0, n)
        invariant Enumerate(nft) == Prepend(tokenIds, EnumerateFrom(nft, i, n))
      {
        ghost var before := ledger.trace;
        var tokenId := ledger.TokenByIndex(i);
        if tokenId.Err? {
          assert IndexCalls(nft, i, n) == [TokenByIndexCall(i)];
          ConcatAssoc(old(ledger.trace), [TotalSupplyCall], IndexCalls(nft, 0, n));
          return Err(tokenId.fault);
        }
        EnumerateStep(nft, i, n, tokenIds);
        ConcatAssoc(before, [TokenByIndexCall(i)], IndexCalls(nft, i + 1, n));
        tokenIds := tokenIds + [tokenId.value];
        i := i + 1;
      }
      ConcatNil(ledger.trace, []);
      ConcatNil(tokenIds, []);
      ConcatAssoc(old(ledger.trace), [TotalSupplyCall], IndexCalls(nft, 0, n));
      return Ok(tokenIds);
    }

    /** `updateAllTokens`: never raises. A failed enumeration ends the cycle;
        otherwise every token is updated in enumeration order, whatever the
        earlier updates answered. */
    method UpdateAllTokens()
      modifies this`attempted, ledger
      ensures attempted == old(attempted) + Attempted(ledger.world)
      ensures ledger.trace == old(ledger.trace) + CycleCalls(ledger.world)
    {
      var w := ledger.world;
      var tokenIds := GetAllTokenIds();
      ghost var enumerated := ledger.trace;
      if tokenIds.Err? {
        ConcatNil(EnumerationCalls(w.nft), UpdatesCalls(w, Attempted(w)));
        ConcatNil(old(attempted), Attempted(w));
        return;
      }
      var ids := tokenIds.value;
      for k := 0 to |ids|
        invariant ledger.trace + UpdatesCalls(w, ids[k..]) == enumerated + UpdatesCalls(w, ids)
        invariant attempted == old(attempted) + ids[..k]
      {
        ghost var before := ledger.trace;
        UpdatesCallsStep(w, ids, k);
        // the failures updateNFTMetadata can raise come from building its
        // provider, wallet and contract, which the model leaves out, so the
        // per-token catch is not modelled
        var _ := UpdateNFTMetadata(ledger, ids[k]);
        ConcatAssoc(before, UpdateRun(w, ids[k]).calls, UpdatesCalls(w, ids[k + 1..]));
        ConcatAssoc(old(attempted), ids[..k], [ids[k]]);
        attempted := attempted + [ids[k]];
      }
      ConcatNil(ledger.trace, UpdatesCalls(w, ids[|ids|..]));
      ConcatAssoc(old(ledger.trace), EnumerationCalls(w.nft), UpdatesCalls(w, ids));
      assert ids[..|ids|] == ids;
    }

    /** `start`: a no-op while running; otherwise runs one cycle at once and
        arms the one interval timer. */
    method Start()
      requires Valid()
      modifies this, timers, ledger
      ensures Valid() && isRunning
      ensures old(isRunning) ==> unchanged(this) && unchanged(timers) && unchanged(ledger)
      ensures !old(isRunning) ==>
        && interval == Some(old(timers.next))
        && timers.armed == map[old(timers.next) := UpdateIntervalMs]
        && attempted == old(attempted) + Attempted(ledger.world)
        && ledger.trace == old(ledger.trace) + CycleCalls(ledger.world)
    {
      if isRunning {
        return;
      }
      isRunning := true;
      UpdateAllTokens();
      var id := timers.SetInterval(updateInterval);
      interval := Some(id);
    }

    /** `stop`: a no-op while stopped; otherwise clears the flag and disarms
        the timer. The handle in `interval` is left as it was. */
    method Stop()
      requires Valid()
      modifies this, timers
      ensures Valid() && !isRunning
      ensures old(isRunning) ==> timers.armed == map[]
      ensures interval == old(interval) && attempted == old(attempted)
      ensures !old(isRunning) ==> unchanged(this) && unchanged(timers)
    {
      if !isRunning {
        return;
      }
      isRunning := false;
      timers.ClearInterval(interval.value);
    }

    /** One firing of an armed timer: another cycle. Only a running service
        has an armed timer, so after `Stop` no further cycle starts. */
    method Tick(id: TimerId)
      requires Valid() && id in timers.armed
      modifies this`attempted, ledger
      ensures Valid() && isRunning
      ensures attempted == old(attempted) + Attempted(ledger.world)
      ensures ledger.trace == old(ledger.trace) + CycleCalls(ledger.world)
    {
      UpdateAllTokens();
    }
  }

  // ----- properties of a cycle -----

  lemma {:induction false} EnumerateFromSpec(nft: NftContract, i: nat, n: nat)
    requires i <= n
    ensures EnumerateFrom(nft, i, n).Ok? <==> forall j :: i <= j < n ==> nft.tokenByIndex(j).Ok?
    ensures EnumerateFrom(nft, i, n).Ok? ==>
      && |EnumerateFrom(nft, i, n).value| == n - i
      && forall j :: 0 <= j < n - i ==> EnumerateFrom(nft, i, n).value[j] == nft.tokenByIndex(i + j).value
    ensures EnumerateFrom(nft, i, n).Err? ==>
      exists k :: i <= k < n && nft.tokenByIndex(k) == Err(EnumerateFrom(nft, i, n).fault)
    decreases n - i
  {
    if i < n {
      EnumerateFromSpec(nft, i + 1, n);
    }
  }

  /** The enumeration yields exactly `totalSupply` ids, the one at index `j`
      being `tokenByIndex(j)`; it fails when the count read or any index
      read fails, with that read's fault. */
  lemma EnumerateSpec(nft: NftContract)
    ensures Enumerate(nft).Ok? <==>
      nft.totalSupply.Ok? && forall j :: 0 <= j < nft.totalSupply.value ==> nft.tokenByIndex(j).Ok?
    ensures Enumerate(nft).Ok? ==>
      && |Enumerate(nft).value| == nft.totalSupply.value
      && forall j :: 0 <= j < nft.totalSupply.value ==> Enumerate(nft).value[j] == nft.tokenByIndex(j).value
    ensures Enumerate(nft).Err? ==>
      nft.totalSupply == Err(Enumerate(nft).fault) ||
      exists k :: 0 <= k < nft.totalSupply.value && nft.tokenByIndex(k) == Err(Enumerate(nft).fault)
  {
    if nft.totalSupply.Ok? {
      EnumerateFromSpec(nft, 0, nft.totalSupply.value);
    }
  }

  lemma {:induction false} IndexCallsAreReads(nft: NftContract, i: nat, n: nat)
    requires i <= n
    ensures forall c :: c in IndexCalls(nft, i, n) ==> c.TokenByIndexCall?
    decreases n - i
  {
    if i < n && nft.tokenByIndex(i).Ok? {
      IndexCallsAreReads(nft, i + 1, n);
    }
  }

  /** A failed enumeration makes no per-token update at all: the cycle
      issues enumeration reads only. */
  lemma EnumerationFailureUpdatesNothing(w: World)
    requires Enumerate(w.nft).Err?
    ensures Attempted(w) == []
    ensures forall c :: c in CycleCalls(w) ==> c.TotalSupplyCall? || c.TokenByIndexCall?
  {
    if w.nft.totalSupply.Ok? {
      IndexCallsAreReads(w.nft, 0, w.nft.totalSupply.value);
    }
  }

  lemma {:induction false} OwnerLookupsAppend(a: seq<Call>, b: seq<Call>)
    ensures OwnerLookups(a + b) == OwnerLookups(a) + OwnerLookups(b)
    decreases |a|
  {
    if a == [] {
      assert a + b == b;
    } else {
      assert (a + b)[0] == a[0];
      assert (a + b)[1..] == a[1..] + b;
      OwnerLookupsAppend(a[1..], b);
    }
  }

  lemma {:induction false} WrittenTokensAppend(a: seq<Call>, b: seq<Call>)
    ensures WrittenTokens(a + b) == WrittenTokens(a) + WrittenTokens(b)
    decreases |a|
  {
    if a == [] {
      assert a + b == b;
    } else {
      assert (a + b)[0] == a[0];
      assert (a + b)[1..] == a[1..] + b;
      WrittenTokensAppend(a[1..], b);
    }
  }

  lemma {:induction false} IndexCallsLookNoOwner(nft: NftContract, i: nat, n: nat)
    requires i <= n
    ensures OwnerLookups(IndexCalls(nft, i, n)) == []
    ensures WrittenTokens(IndexCalls(nft, i, n)) == []
    decreases n - i
  {
    if i < n {
      var rest := if nft.tokenByIndex(i).Ok? then IndexCalls(nft, i + 1, n) else [];
      if nft.tokenByIndex(i).Ok? {
        IndexCallsLookNoOwner(nft, i + 1, n);
      }
      OwnerLookupsAppend([TokenByIndexCall(i)], rest);
      WrittenTokensAppend([TokenByIndexCall(i)], rest);
    }
  }

  lemma EnumerationCallsLookNoOwner(nft: NftContract)
    ensures OwnerLookups(EnumerationCalls(nft)) == []
    ensures WrittenTokens(EnumerationCalls(nft)) == []
  {
    var rest := match nft.totalSupply case Ok(n) => IndexCalls(nft, 0, n) case Err(_) => [];
    if nft.totalSupply.Ok? {
      IndexCallsLookNoOwner(nft, 0, nft.totalSupply.value);
    }
    OwnerLookupsAppend([TotalSupplyCall], rest);
    WrittenTokensAppend([TotalSupplyCall], rest);
  }

  lemma {:induction false} NoOwnerLookups(calls: seq<Call>)
    requires forall i :: 0 <= i < |calls| ==> !calls[i].OwnerOfCall?
    ensures OwnerLookups(calls) == []
    decreases |calls|
  {
    if calls != [] {
      NoOwnerLookups(calls[1..]);
    }
  }

  lemma {:induction false} NoWrittenTokens(calls: seq<Call>)
    requires forall i :: 0 <= i < |calls| ==> !calls[i].SubmitCall?
    ensures WrittenTokens(calls) == []
    decreases |calls|
  {
    if calls != [] {
      NoWrittenTokens(calls[1..]);
    }
  }

  /** The lookups and writes of any call sequence shaped like one update. */
  lemma RunShapeLookups(calls: seq<Call>, tokenId: TokenId)
    requires 1 <= |calls| && calls[0] == OwnerOfCall(tokenId)
    requires forall i :: 1 <= i < |calls| ==> !calls[i].OwnerOfCall?
    requires forall i :: 0 <= i < |calls| && calls[i].SubmitCall? ==> i == 2
    requires |calls| >= 3 ==> calls[2].SubmitCall? && calls[2].tx.tokenId == tokenId
    ensures OwnerLookups(calls) == [tokenId]
    ensures WrittenTokens(calls) == if |calls| >= 3 then [tokenId] else []
  {
    NoOwnerLookups(calls[1..]);
    if |calls| >= 3 {
      NoWrittenTokens(calls[..2]);
      NoWrittenTokens(calls[3..]);
      WrittenTokensAppend(calls[..2], calls[2..]);
      assert calls[..2] + calls[2..] == calls;
    } else {
      NoWrittenTokens(calls);
    }
  }

  /** One per-token update looks up exactly its own token's owner, and
      writes for that token exactly when its metadata could be built. */
  lemma UpdateRunLookups(w: World, tokenId: TokenId)
    ensures OwnerLookups(UpdateRun(w, tokenId).calls) == [tokenId]
    ensures WrittenTokens(UpdateRun(w, tokenId).calls) ==
      if ResolvedMetadata(w, tokenId).Ok? then [tokenId] else []
  {
    RunShapeLookups(UpdateRun(w, tokenId).calls, tokenId);
  }

  lemma {:induction false} UpdatesCallsLookups(w: World, ids: seq<TokenId>)
    ensures OwnerLookups(UpdatesCalls(w, ids)) == ids
    ensures WrittenTokens(UpdatesCalls(w, ids)) == Aggregated(w, ids)
    decreases |ids|
  {
    if ids != [] {
      UpdateRunLookups(w, ids[0]);
      UpdatesCallsLookups(w, ids[1..]);
      OwnerLookupsAppend(UpdateRun(w, ids[0]).calls, UpdatesCalls(w, ids[1..]));
      WrittenTokensAppend(UpdateRun(w, ids[0]).calls, UpdatesCalls(w, ids[1..]));
    }
  }

  /** A cycle starts one per-token update for every enumerated token, in
      enumeration order, each regardless of how the earlier ones ended, and
      writes for exactly the tokens whose metadata could be built, in the
      same order. */
  lemma CycleUpdatesEveryToken(w: World)
    ensures OwnerLookups(CycleCalls(w)) == Attempted(w)
    ensures WrittenTokens(CycleCalls(w)) == Aggregated(w, Attempted(w))
    ensures Enumerate(w.nft).Ok? ==> |Attempted(w)| == w.nft.totalSupply.value
  {
    EnumerateSpec(w.nft);
    EnumerationCallsLookNoOwner(w.nft);
    UpdatesCallsLookups(w, Attempted(w));
    OwnerLookupsAppend(EnumerationCalls(w.nft), UpdatesCalls(w, Attempted(w)));
    WrittenTokensAppend(EnumerationCalls(w.nft), UpdatesCalls(w, Attempted(w)));
  }
}
