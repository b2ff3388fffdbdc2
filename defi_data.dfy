/** The position adapters, the reputation fetch and the metadata record
    they are joined into (scripts/fetchDefiData.js).

    Every chain read is an oracle outcome held in `Markets`: what the
    protocol contract answers for a call, or the fault it rejects with.
    A call goes through the contract's ABI first: ethers only exposes the
    functions the ABI declares, so calling any other name is a TypeError
    before anything reaches the chain. Chain reads of `uint` values are
    BigInts, modelled as unbounded integers; the integer literal `100` in
    the share arithmetic is a Number, and JavaScript refuses to mix the two
    in one arithmetic operation. */
module DefiData {
  import opened Outcomes
  import opened Decimal

  type Address = string
  type TokenId = nat
  type Abi = set<string>

  datatype Reserves = Reserves(reserve0: nat, reserve1: nat, blockTimestampLast: nat)

  datatype AccountData = AccountData(
    totalCollateralBase: nat,
    totalDebtBase: nat,
    availableBorrowsBase: nat,
    currentLiquidationThreshold: nat,
    ltv: nat,
    healthFactor: nat)

  /** What each protocol contract answers to the reads the adapters issue. */
  datatype Markets = Markets(
    uniswapBalanceOf: Address -> Result<nat>,
    uniswapTotalSupply: Result<nat>,
    uniswapReserves: Result<Reserves>,
    aaveAccountData: Address -> Result<AccountData>,
    curveBalanceOf: Address -> Result<nat>,
    curveTotalSupply: Result<nat>,
    makerInk: Result<nat>,
    makerArt: Result<nat>,
    pendleBalanceOf: Address -> Result<nat>)

  /** The function names each protocol contract object is built with. */
  datatype Abis = Abis(uniswap: Abi, aave: Abi, curve: Abi, maker: Abi, pendle: Abi)

  /** The ABIs as the source declares them. The Curve pool declares
      `balances` and `coins` only. */
  const SourceAbis := Abis(
    {"balanceOf", "totalSupply", "getReserves"},
    {"getUserAccountData"},
    {"balances", "coins"},
    {"ilk", "ink", "art"},
    {"balanceOf", "totalSupply"})

  /** The ABIs with the two functions the Curve adapter calls added. */
  const CorrectedAbis := SourceAbis.(curve := SourceAbis.curve + {"balanceOf", "totalSupply"})

  /** `contract.name(...)`: a TypeError unless the ABI declares `name`,
      otherwise whatever the chain answers. */
  function Invoke<T>(abi: Abi, name: string, outcome: Result<T>): Result<T> {
    if name in abi then outcome else Err(NotAFunction(name))
  }

  /** The two kinds of JavaScript number: a BigInt, or a Number such as an
      unsuffixed literal. */
  datatype Kind = BigIntKind | NumberKind

  /** A non-negative integral JavaScript value. Every operand of the share
      arithmetic is a `uint` read, the literal, or a product or quotient of
      those, so none is negative, and BigInt's `/`, which truncates toward
      zero, agrees with Dafny's `/` on them. The left operand of each `*`
      and `/` there is a BigInt. */
  datatype JsInt = JsInt(kind: Kind, v: nat)

  /** The parts of the adapters' source the model varies: the ABI each
      contract object is built with, and the kind of the literal `100` in the
      share arithmetic (a Number as written; `100n` makes it a BigInt). */
  datatype Code = Code(abis: Abis, hundred: Kind)

  /** The adapters as the source writes them. */
  const SourceCode := Code(SourceAbis, NumberKind)

  /** The adapters with the Curve ABI completed and the literal written `100n`. */
  const CorrectedCode := Code(CorrectedAbis, BigIntKind)

  /** `a * b` for a BigInt `a`: a TypeError unless `b` is a BigInt too. */
  function BigMul(a: nat, b: JsInt): (r: Result<nat>)
    ensures r.Ok? <==> b.kind == BigIntKind
    ensures r.Err? ==> r.fault == MixedTypes
    ensures r.Ok? ==> r.value == a * b.v
  {
    if b.kind != BigIntKind then Err(MixedTypes) else Ok(a * b.v)
  }

  /** `a / b` for a BigInt `a`: a TypeError unless `b` is a BigInt too,
      checked before the divisor; then a RangeError for `0n`, otherwise the
      truncated quotient. */
  function BigDiv(a: nat, b: JsInt): (r: Result<nat>)
    ensures r.Ok? <==> b.kind == BigIntKind && b.v != 0
    ensures b.kind != BigIntKind ==> r == Err(MixedTypes)
    ensures b.kind == BigIntKind && b.v == 0 ==> r == Err(DivisionByZero)
    ensures r.Ok? ==> r.value * b.v <= a < (r.value + 1) * b.v
  {
    if b.kind != BigIntKind then Err(MixedTypes)
    else if b.v == 0 then Err(DivisionByZero)
    else Ok(a / b.v)
  }

  /** The owner's share in whole percent, `balance * 100n / totalSupply`, as
      the share arithmetic evidently intends it: truncated, and a failure
      for a zero supply since BigInt division by zero throws. */
  function PoolShare(balance: nat, supply: nat): (r: Result<nat>)
    ensures r.Err? <==> supply == 0
    ensures r.Err? ==> r.fault == DivisionByZero
    ensures r.Ok? ==> r.value * supply <= balance * 100 < (r.value + 1) * supply
  {
    if supply == 0 then Err(DivisionByZero) else Ok(balance * 100 / supply)
  }

  /** The pooled reserves scaled by the owner's truncated percentage share,
      as intended: `(reserve0 + reserve1) * share / 100n`. */
  function UniswapValue(balance: nat, supply: nat, reserves: Reserves): (r: Result<nat>)
    ensures r.Err? <==> supply == 0
    ensures r.Err? ==> r.fault == DivisionByZero
    ensures r.Ok? ==>
      && r.value * 100 <= (reserves.reserve0 + reserves.reserve1) * PoolShare(balance, supply).value
      && (reserves.reserve0 + reserves.reserve1) * PoolShare(balance, supply).value < (r.value + 1) * 100
  {
    match PoolShare(balance, supply)
    case Err(f) => Err(f)
    case Ok(share) => Ok((reserves.reserve0 + reserves.reserve1) * share / 100)
  }

  /** `fetchUniswapData`: three reads, then `balance * 100 / totalSupply`
      and `(reserve0 + reserve1) * share / 100` with the literal of kind
      `hundred`. */
  function FetchUniswap(abi: Abi, hundred: Kind, m: Markets, user: Address): (r: Result<nat>)
    ensures r.Ok? <==>
      && {"balanceOf", "totalSupply", "getReserves"} <= abi
      && m.uniswapBalanceOf(user).Ok? && m.uniswapTotalSupply.Ok? && m.uniswapReserves.Ok?
      && hundred == BigIntKind && m.uniswapTotalSupply.value > 0
    ensures r.Ok? ==>
      r == UniswapValue(m.uniswapBalanceOf(user).value, m.uniswapTotalSupply.value, m.uniswapReserves.value)
    ensures
      && {"balanceOf", "totalSupply", "getReserves"} <= abi
      && m.uniswapBalanceOf(user).Ok? && m.uniswapTotalSupply.Ok? && m.uniswapReserves.Ok?
      && hundred == NumberKind
      ==> r == Err(MixedTypes)
  {
    var balance :- Invoke(abi, "balanceOf", m.uniswapBalanceOf(user));
    var supply :- Invoke(abi, "totalSupply", m.uniswapTotalSupply);
    var reserves :- Invoke(abi, "getReserves", m.uniswapReserves);
    var scaled :- BigMul(balance, JsInt(hundred, 100));
    var share :- BigDiv(scaled, JsInt(BigIntKind, supply));
    var weighted := (reserves.reserve0 + reserves.reserve1) * share;  // BigInt by BigInt
    BigDiv(weighted, JsInt(hundred, 100))
  }

  function FetchAave(abi: Abi, m: Markets, user: Address): (r: Result<nat>)
    ensures r.Ok? <==> "getUserAccountData" in abi && m.aaveAccountData(user).Ok?
    ensures r.Ok? ==> r.value == m.aaveAccountData(user).value.totalCollateralBase
    ensures r.Err? && "getUserAccountData" in abi ==> r == Err(m.aaveAccountData(user).fault)
  {
    var data :- Invoke(abi, "getUserAccountData", m.aaveAccountData(user));
    Ok(data.totalCollateralBase)
  }

  /** `fetchCurveData`: two reads, then `balance * 100 / totalSupply` with
      the literal of kind `hundred`. */
  function FetchCurve(abi: Abi, hundred: Kind, m: Markets, user: Address): (r: Result<nat>)
    ensures "balanceOf" !in abi ==> r == Err(NotAFunction("balanceOf"))
    ensures r.Ok? <==>
      && {"balanceOf", "totalSupply"} <= abi
      && m.curveBalanceOf(user).Ok? && m.curveTotalSupply.Ok?
      && hundred == BigIntKind && m.curveTotalSupply.value > 0
    ensures r.Ok? ==> r == PoolShare(m.curveBalanceOf(user).value, m.curveTotalSupply.value)
    ensures
      && {"balanceOf", "totalSupply"} <= abi
      && m.curveBalanceOf(user).Ok? && m.curveTotalSupply.Ok? && hundred == NumberKind
      ==> r == Err(MixedTypes)
  {
    var balance :- Invoke(abi, "balanceOf", m.curveBalanceOf(user));
    var supply :- Invoke(abi, "totalSupply", m.curveTotalSupply);
    var scaled :- BigMul(balance, JsInt(hundred, 100));
    BigDiv(scaled, JsInt(BigIntKind, supply))
  }

  /** The net vault position `ink - art`; it reads the vault, never the owner. */
  function FetchMaker(abi: Abi, m: Markets, user: Address): (r: Result<int>)
    ensures r.Ok? <==> {"ink", "art"} <= abi && m.makerInk.Ok? && m.makerArt.Ok?
    ensures r.Ok? ==> r.value + m.makerArt.value == m.makerInk.value
  {
    var ink :- Invoke(abi, "ink", m.makerInk);
    var art :- Invoke(abi, "art", m.makerArt);
    Ok(ink as int - art)
  }

  function FetchPendle(abi: Abi, m: Markets, user: Address): (r: Result<nat>)
    ensures r.Ok? <==> "balanceOf" in abi && m.pendleBalanceOf(user).Ok?
    ensures r.Ok? ==> r.value == m.pendleBalanceOf(user).value
    ensures r.Err? && "balanceOf" in abi ==> r == Err(m.pendleBalanceOf(user).fault)
  {
    var balance :- Invoke(abi, "balanceOf", m.pendleBalanceOf(user));
    Ok(balance)
  }

  /** `fetchYapsScore`: the score of a successful request, 0 after any failure. */
  function FetchYaps(reputation: string -> Result<nat>, handle: string): (score: nat)
    ensures reputation(handle).Err? ==> score == 0
    ensures reputation(handle).Ok? ==> score == reputation(handle).value
  {
    match reputation(handle)
    case Ok(s) => s
    case Err(_) => 0
  }

  /** The five position outcomes in the order the join lists them. */
  function Positions(code: Code, m: Markets, user: Address): (ps: seq<Result<int>>)
    ensures |ps| == 5
  {
    [ FetchUniswap(code.abis.uniswap, code.hundred, m, user),
      FetchAave(code.abis.aave, m, user),
      FetchCurve(code.abis.curve, code.hundred, m, user),
      FetchMaker(code.abis.maker, m, user),
      FetchPendle(code.abis.pendle, m, user) ]
  }

  /** A join-all barrier: every outcome's value in order, or the fault of the
      first outcome (in list order) that failed. */
  function JoinAll<T>(rs: seq<Result<T>>): (r: Result<seq<T>>)
    ensures r.Ok? <==> forall i :: 0 <= i < |rs| ==> rs[i].Ok?
    ensures r.Ok? ==> |r.value| == |rs| && forall i :: 0 <= i < |rs| ==> r.value[i] == rs[i].value
    ensures r.Err? ==> exists k :: 0 <= k < |rs| && rs[k] == Err(r.fault) && forall i :: 0 <= i < k ==> rs[i].Ok?
    decreases |rs|
  {
    if rs == [] then Ok([])
    else match rs[0]
      case Err(f) => Err(f)
      case Ok(v) =>
        match JoinAll(rs[1..])
        case Err(f) => Err(f)
        case Ok(vs) => Ok([v] + vs)
  }

  datatype Attribute = Attribute(traitType: string, value: string)

  datatype Metadata = Metadata(name: string, description: string, attributes: seq<Attribute>)

  const NamePrefix := "DeFi Performance NFT #"
  const Description := "Dynamic DeFi Performance Tracker"

  /** The trait of each attribute, in the positional order of the on-chain update. */
  const TraitTypes: seq<string> :=
    ["Uniswap Value", "Aave Value", "Curve Value", "MakerDAO Value", "Pendle Value", "YAPS Score"]

  /** The record `generateMetadata` builds from the joined results: it
      exists only when every position outcome succeeded. */
  function ComposeMetadata(tokenId: TokenId, positions: seq<Result<int>>, yapsScore: nat): (r: Result<Metadata>)
    requires |positions| == 5
    ensures r.Err? <==> exists k :: 0 <= k < 5 && positions[k].Err?
    ensures r.Err? ==> exists k :: 0 <= k < 5 && positions[k] == Err(r.fault)
    ensures r.Ok? ==>
      && r.value.name == NamePrefix + ToDecimal(tokenId)
      && r.value.description == Description
      && |r.value.attributes| == 6
      && (forall i :: 0 <= i < 6 ==> r.value.attributes[i].traitType == TraitTypes[i])
      && (forall i :: 0 <= i < 5 ==> r.value.attributes[i].value == ToDecimal(positions[i].value))
      && r.value.attributes[5].value == ToDecimal(yapsScore)
  {
    match JoinAll(positions)
    case Err(f) => Err(f)
    case Ok(values) =>
      Ok(Metadata(
        NamePrefix + ToDecimal(tokenId),
        Description,
        [ Attribute("Uniswap Value", ToDecimal(values[0])),
          Attribute("Aave Value", ToDecimal(values[1])),
          Attribute("Curve Value", ToDecimal(values[2])),
          Attribute("MakerDAO Value", ToDecimal(values[3])),
          Attribute("Pendle Value", ToDecimal(values[4])),
          Attribute("YAPS Score", ToDecimal(yapsScore)) ]))
  }

  /** `generateMetadata`: the five position adapters and the reputation
      fetch, joined; it rejects exactly when a position adapter rejects. */
  function GenerateMetadata(
    code: Code, m: Markets, reputation: string -> Result<nat>,
    tokenId: TokenId, user: Address, handle: string): (r: Result<Metadata>)
    ensures r.Err? <==> exists k :: 0 <= k < 5 && Positions(code, m, user)[k].Err?
  {
    ComposeMetadata(tokenId, Positions(code, m, user), FetchYaps(reputation, handle))
  }

  // ----- arithmetic of the share-based adapters -----

  lemma ProductMonotone(a: nat, b: nat, c: nat)
    requires a <= b
    ensures a * c <= b * c
  {
  }

  /** With a balance no larger than the supply the share is at most 100 percent;
      the whole supply is exactly 100 and a zero balance is 0. */
  lemma PoolShareBounds(balance: nat, supply: nat)
    requires 0 < supply && balance <= supply
    ensures PoolShare(balance, supply).Ok?
    ensures PoolShare(balance, supply).value <= 100
    ensures balance == supply ==> PoolShare(balance, supply).value == 100
    ensures balance == 0 ==> PoolShare(balance, supply).value == 0
  {
    var share := PoolShare(balance, supply).value;
    ProductMonotone(balance, supply, 100);
    if share > 100 {
      ProductMonotone(101, share, supply);
      assert false;
    }
    if balance == supply {
      if share < 100 {
        ProductMonotone(share + 1, 100, supply);
        assert false;
      }
    }
    if balance == 0 && share > 0 {
      ProductMonotone(1, share, supply);
      assert false;
    }
  }

  /** The Uniswap value lies between 0 and the pooled reserves; the whole
      supply gets exactly the reserves and a zero balance gets 0. */
  lemma UniswapBounds(balance: nat, supply: nat, reserves: Reserves)
    requires 0 < supply && balance <= supply
    ensures UniswapValue(balance, supply, reserves).Ok?
    ensures UniswapValue(balance, supply, reserves).value <= reserves.reserve0 + reserves.reserve1
    ensures balance == supply ==> UniswapValue(balance, supply, reserves).value == reserves.reserve0 + reserves.reserve1
    ensures balance == 0 ==> UniswapValue(balance, supply, reserves).value == 0
  {
    PoolShareBounds(balance, supply);
    var share := PoolShare(balance, supply).value;
    var pooled := reserves.reserve0 + reserves.reserve1;
    ProductMonotone(share, 100, pooled);
    assert pooled * share <= pooled * 100;
  }

  /** With its three reads answered, the Uniswap adapter as written multiplies
      a BigInt by the Number `100` and throws, so it never succeeds. */
  lemma UniswapAsWrittenFails(m: Markets, user: Address)
    ensures FetchUniswap(SourceCode.abis.uniswap, SourceCode.hundred, m, user).Err?
    ensures m.uniswapBalanceOf(user).Ok? && m.uniswapTotalSupply.Ok? && m.uniswapReserves.Ok? ==>
      FetchUniswap(SourceCode.abis.uniswap, SourceCode.hundred, m, user) == Err(MixedTypes)
  {
  }

  /** A whole pool of 20 reserve units owned outright: a TypeError as
      written, 20 with the literal written `100n`. */
  lemma UniswapLiteralExample(m: Markets, user: Address)
    requires m.uniswapBalanceOf(user) == Ok(1) && m.uniswapTotalSupply == Ok(1)
    requires m.uniswapReserves == Ok(Reserves(10, 10, 0))
    ensures FetchUniswap(SourceCode.abis.uniswap, SourceCode.hundred, m, user) == Err(MixedTypes)
    ensures FetchUniswap(CorrectedCode.abis.uniswap, CorrectedCode.hundred, m, user) == Ok(20)
  {
  }

  /** With the literal written `100n`, a balance within a positive supply
      gets a value between 0 and the pooled reserves: exactly the reserves
      for the whole supply, 0 for a zero balance. */
  lemma CorrectedUniswapBounds(m: Markets, user: Address)
    requires m.uniswapBalanceOf(user).Ok? && m.uniswapTotalSupply.Ok? && m.uniswapReserves.Ok?
    requires 0 < m.uniswapTotalSupply.value && m.uniswapBalanceOf(user).value <= m.uniswapTotalSupply.value
    ensures FetchUniswap(CorrectedCode.abis.uniswap, CorrectedCode.hundred, m, user).Ok?
    ensures
      var value := FetchUniswap(CorrectedCode.abis.uniswap, CorrectedCode.hundred, m, user).value;
      var pooled := m.uniswapReserves.value.reserve0 + m.uniswapReserves.value.reserve1;
      && value <= pooled
      && (m.uniswapBalanceOf(user).value == m.uniswapTotalSupply.value ==> value == pooled)
      && (m.uniswapBalanceOf(user).value == 0 ==> value == 0)
  {
    UniswapBounds(m.uniswapBalanceOf(user).value, m.uniswapTotalSupply.value, m.uniswapReserves.value);
  }

  /** As declared, the Curve ABI has no `balanceOf`, so the Curve adapter
      rejects for every owner and every chain state. */
  lemma CurveAsWrittenFails(m: Markets, user: Address)
    ensures FetchCurve(SourceCode.abis.curve, SourceCode.hundred, m, user) == Err(NotAFunction("balanceOf"))
  {
  }

  /** Completing the Curve ABI alone does not help: with both reads answered
      the adapter multiplies a BigInt by the Number `100` and throws. */
  lemma CurveLiteralAsWrittenFails(m: Markets, user: Address)
    ensures FetchCurve(CorrectedAbis.curve, SourceCode.hundred, m, user).Err?
    ensures m.curveBalanceOf(user).Ok? && m.curveTotalSupply.Ok? ==>
      FetchCurve(CorrectedAbis.curve, SourceCode.hundred, m, user) == Err(MixedTypes)
  {
  }

  /** Half of a two-token Curve pool: a TypeError with only the ABI
      completed, 50 percent once the literal is written `100n` too. */
  lemma CurveLiteralExample(m: Markets, user: Address)
    requires m.curveBalanceOf(user) == Ok(1) && m.curveTotalSupply == Ok(2)
    ensures FetchCurve(CorrectedAbis.curve, SourceCode.hundred, m, user) == Err(MixedTypes)
    ensures FetchCurve(CorrectedCode.abis.curve, CorrectedCode.hundred, m, user) == Ok(50)
  {
  }

  /** With both functions declared and the literal written `100n`, the Curve
      adapter yields the owner's percentage share: at most 100 for a balance
      within the supply, exactly 100 for the whole supply, 0 for none. */
  lemma CorrectedCurveShare(m: Markets, user: Address)
    requires m.curveBalanceOf(user).Ok? && m.curveTotalSupply.Ok? && m.curveTotalSupply.value > 0
    requires m.curveBalanceOf(user).value <= m.curveTotalSupply.value
    ensures FetchCurve(CorrectedCode.abis.curve, CorrectedCode.hundred, m, user).Ok?
    ensures
      var share := FetchCurve(CorrectedCode.abis.curve, CorrectedCode.hundred, m, user).value;
      && share <= 100
      && (m.curveBalanceOf(user).value == m.curveTotalSupply.value ==> share == 100)
      && (m.curveBalanceOf(user).value == 0 ==> share == 0)
  {
    PoolShareBounds(m.curveBalanceOf(user).value, m.curveTotalSupply.value);
  }

  /** With the adapters as written every call of `generateMetadata` rejects. */
  lemma MetadataAsWrittenFails(
    m: Markets, reputation: string -> Result<nat>, tokenId: TokenId, user: Address, handle: string)
    ensures GenerateMetadata(SourceCode, m, reputation, tokenId, user, handle).Err?
  {
    CurveAsWrittenFails(m, user);
    assert Positions(SourceCode, m, user)[2].Err?;
  }

  /** The Maker value does not depend on the owner and may be negative. */
  lemma MakerIgnoresOwner(abi: Abi, m: Markets, user1: Address, user2: Address)
    ensures FetchMaker(abi, m, user1) == FetchMaker(abi, m, user2)
  {
  }

  lemma MakerCanBeNegative(abi: Abi, m: Markets, user: Address)
    requires {"ink", "art"} <= abi
    requires m.makerInk == Ok(0) && m.makerArt == Ok(1)
    ensures FetchMaker(abi, m, user) == Ok(-1)
  {
  }

  /** The reputation result never decides whether the record is built. */
  lemma ReputationNeverFails(
    code: Code, m: Markets, reputation1: string -> Result<nat>, reputation2: string -> Result<nat>,
    tokenId: TokenId, user: Address, handle1: string, handle2: string)
    ensures GenerateMetadata(code, m, reputation1, tokenId, user, handle1).Ok?
        <==> GenerateMetadata(code, m, reputation2, tokenId, user, handle2).Ok?
  {
  }

  /** A failed reputation request leaves the YAPS attribute at "0". */
  lemma ReputationFailureIsZero(
    code: Code, m: Markets, reputation: string -> Result<nat>, tokenId: TokenId, user: Address, handle: string)
    requires reputation(handle).Err?
    requires GenerateMetadata(code, m, reputation, tokenId, user, handle).Ok?
    ensures GenerateMetadata(code, m, reputation, tokenId, user, handle).value.attributes[5].value == "0"
  {
  }

  /** Each attribute value of a built record reads back as the number it was
      made from: the five positions in order, then the reputation score. */
  lemma MetadataDecodes(
    code: Code, m: Markets, reputation: string -> Result<nat>, tokenId: TokenId, user: Address, handle: string)
    requires GenerateMetadata(code, m, reputation, tokenId, user, handle).Ok?
    ensures forall i :: 0 <= i < 5 ==>
      ParseDecimal(GenerateMetadata(code, m, reputation, tokenId, user, handle).value.attributes[i].value)
        == Some(Positions(code, m, user)[i].value)
    ensures ParseDecimal(GenerateMetadata(code, m, reputation, tokenId, user, handle).value.attributes[5].value)
        == Some(FetchYaps(reputation, handle) as int)
  {
    var ps := Positions(code, m, user);
    forall i | 0 <= i < 5
      ensures ParseDecimal(ToDecimal(ps[i].value)) == Some(ps[i].value)
    {
      DecimalRoundTrip(ps[i].value);
    }
    DecimalRoundTrip(FetchYaps(reputation, handle));
  }
}
