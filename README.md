# Dynamic DeFi NFT metadata pipeline — a Dafny model

This project models the off-chain pipeline that keeps a "DeFi performance" NFT up to date:

- **Position adapters and metadata composition** (`scripts/fetchDefiData.js`):
  - five adapters (Uniswap, Aave, Curve, MakerDAO, Pendle) read protocol contracts and reduce the reads to one BigInt each;
  - a reputation ("Yaps") fetch turns every failure into 0;
  - `generateMetadata` joins all six and builds a record with six positional attributes, each the decimal string of a value.
- **Per-token update** (`scripts/updateNFTMetadata.js`): resolves a token's owner, then its Twitter handle, then builds the metadata. It then issues one positional `updatePerformanceMetrics` write and waits for the confirmation. Every failure is caught and turned into `false`.
- **Update service** (`scripts/autoUpdateService.js`): the `MetadataUpdateService` class.
  - `getAllTokenIds` enumerates the tokens by index.
  - `updateAllTokens` runs the per-token update for each of them in order.
  - `start` and `stop` switch an `isRunning` flag and arm or clear one interval timer.

Every read or write on a chain, and the reputation HTTP request, is an oracle: a function that either returns a value or fails with a `Fault`.

- A `World` (`nft_ledger.dfy`) bundles three oracles and the adapters' `Code`:
  - the NFT contract (an oracle);
  - the protocol contracts (`Markets`, an oracle);
  - the reputation service (an oracle);
  - the `Code`, a fixed parameter: the ABI each protocol contract object is built with, and the kind of the literal `100` in the share arithmetic.
- Every contract call goes through its ABI first. ethers only exposes the functions an ABI declares, so calling an undeclared name is a `TypeError`. The model returns `Err(NotAFunction(name))` for it.
- Chain reads of `uint` values are BigInts, modelled as unbounded non-negative integers. The literal `100` in the share arithmetic is a Number.
  - JavaScript throws a `TypeError` when one `*` or `/` mixes a BigInt with a Number. The model returns `Err(MixedTypes)` for it (`DefiData.BigMul`, `DefiData.BigDiv`).
  - When both operands are BigInts, they are non-negative, so Dafny's `/` agrees with BigInt's truncating `/`.
  - BigInt division by `0n` throws a `RangeError`. The model returns `Err(DivisionByZero)` for it.
- `SourceCode` holds the adapters as written: the declared ABIs and a Number literal. `CorrectedCode` completes the Curve ABI and writes the literal `100n` (see "Findings"). Everything else takes the `Code` as a parameter.

The imperative parts are objects with state:

- `NftLedger.Ledger` issues the NFT contract calls and appends each one to its `trace`.
- `UpdateNftMetadata.UpdateNFTMetadata` is a method over a ledger. It is proved against the specification function `UpdateRun`.
- `AutoUpdateService.MetadataUpdateService` is a class:
  - it has the fields `isRunning`, `interval` and `updateInterval`;
  - a `Timers` object stands for the host's `setInterval`/`clearInterval` table;
  - the `GetAllTokenIds` loop carries invariants that tie the trace to `IndexCalls` and the collected ids to `Enumerate`;
  - the `UpdateAllTokens` loop carries an invariant that ties the trace to `UpdatesCalls`, and its postcondition states the whole cycle as `CycleCalls`.

Files, in dependency order:

- `outcomes.dfy`: `Fault`, `Option`, `Result`.
- `decimal.dfy`: BigInt `toString` and reading a decimal string back.
- `defi_data.dfy`: the adapters, the join and the metadata record.
- `nft_ledger.dfy`: the oracle world and the traced NFT contract.
- `update_nft_metadata.dfy`: the per-token update.
- `auto_update_service.dfy`: the service.

Three behaviours of the code worth noting:

- **Zero pool-token supply.** There is no guard before the division by the supply. With the literal written `100n`, a zero supply makes `PoolShare`, `FetchUniswap` and `FetchCurve` fail with `DivisionByZero` rather than give 0. As written, the `TypeError` comes first.
- **A failed `tokenByIndex` read.** It aborts the whole enumeration, because the loop has no per-index catch (`EnumerateSpec`).
- **Overlapping cycles.** `setInterval` has no guard against a cycle starting while the previous one is still running, and the model claims no such guard (see "Left out").

## Model

| member | source | states |
|---|---|---|
| Decimal.ToDecimal | scripts/fetchDefiData.js:130-135 | BigInt `toString`: a non-empty string that starts with `-` exactly for negative values |
| Decimal.NatToDecimal | scripts/fetchDefiData.js:130-135 | the digits of a non-negative value: all decimal digits, no leading zero |
| Decimal.DecimalRoundTrip | scripts/fetchDefiData.js:130-135 | reading back the decimal string of any integer gives that integer |
| Decimal.DecimalInjective | scripts/fetchDefiData.js:130-135 | two integers with the same decimal string are equal, so a value is never misreported as another |
| DefiData.BigMul | scripts/fetchDefiData.js:50 | a BigInt times a Number is a `TypeError` (`MixedTypes`); a BigInt times a BigInt is the product |
| DefiData.BigDiv | scripts/fetchDefiData.js:51 | a BigInt divided by a Number is a `TypeError`, checked before the divisor. Divided by `0n` it is a `RangeError`. Otherwise the result is the truncated quotient `q`, with `q * b <= a < (q + 1) * b` |
| DefiData.PoolShare | scripts/fetchDefiData.js:72 | the share `balance * 100n / totalSupply` once the literal is a BigInt. It fails with `DivisionByZero` exactly when the supply is 0; otherwise it is the truncated percentage: `share * supply <= balance * 100 < (share + 1) * supply` |
| DefiData.PoolShareBounds | scripts/fetchDefiData.js:50 | for that share, with `0 < supply` and `balance <= supply`: at most 100, exactly 100 for the whole supply and 0 for a zero balance |
| DefiData.UniswapValue | scripts/fetchDefiData.js:50-51 | the Uniswap value once the literal is `100n`: fails exactly when the supply is 0, with `DivisionByZero`; otherwise the value is the truncated `(reserve0 + reserve1) * share / 100n`: `value * 100 <= (reserve0 + reserve1) * share < (value + 1) * 100` |
| DefiData.UniswapBounds | scripts/fetchDefiData.js:50-51 | for that value, with `0 < supply` and `balance <= supply`: at most `reserve0 + reserve1`, exactly that for the whole supply and 0 for a zero balance |
| DefiData.FetchUniswap | scripts/fetchDefiData.js:41-54 | succeeds iff the ABI declares the three functions, all three reads succeed, the literal is a BigInt and the supply is positive; the value is then `UniswapValue` of the reads. With the three reads answered and a Number literal it fails with `MixedTypes` |
| DefiData.UniswapAsWrittenFails | scripts/fetchDefiData.js:50 | as written the Uniswap adapter never succeeds: once its three reads are answered, `balance * 100` throws a `TypeError` |
| DefiData.UniswapLiteralExample | scripts/fetchDefiData.js:50-51 | balance 1, supply 1, reserves (10, 10): a `TypeError` as written, 20 with the literal `100n` |
| DefiData.CorrectedUniswapBounds | scripts/fetchDefiData.js:41-54 | with the literal written `100n`, a balance within a positive supply gives a value between 0 and `reserve0 + reserve1`: exactly the reserves for the whole supply, 0 for a zero balance |
| DefiData.FetchAave | scripts/fetchDefiData.js:56-62 | succeeds iff `getUserAccountData` is declared and the read succeeds; the value is `totalCollateralBase` unchanged; otherwise the read's own fault |
| DefiData.FetchCurve | scripts/fetchDefiData.js:64-74 | without `balanceOf` in the ABI it fails with `NotAFunction("balanceOf")`. It succeeds iff both functions are declared, both reads succeed, the literal is a BigInt and the supply is positive; its value is then `PoolShare` of the reads. With both reads answered and a Number literal it fails with `MixedTypes` |
| DefiData.FetchMaker | scripts/fetchDefiData.js:76-84 | succeeds iff `ink` and `art` are declared and both reads succeed; the value plus `art` is `ink`, with no clamping |
| DefiData.MakerIgnoresOwner | scripts/fetchDefiData.js:76-84 | the Maker value is the same for every owner address |
| DefiData.MakerCanBeNegative | scripts/fetchDefiData.js:80-83 | `ink = 0`, `art = 1` gives the value -1 |
| DefiData.FetchPendle | scripts/fetchDefiData.js:86-92 | succeeds iff `balanceOf` is declared and the read succeeds; the raw balance is passed through; otherwise the read's own fault |
| DefiData.FetchYaps | scripts/fetchDefiData.js:94-106 | never fails: any failure gives 0, success gives the response's score |
| DefiData.Positions | scripts/fetchDefiData.js:116-122 | the five position outcomes, in the order Uniswap, Aave, Curve, Maker, Pendle |
| DefiData.JoinAll | scripts/fetchDefiData.js:116-123 | a join-all succeeds iff every outcome succeeds, with the values in list order; otherwise it fails with the fault of a failed outcome, and every outcome before that one succeeded |
| DefiData.ComposeMetadata | scripts/fetchDefiData.js:108-140 | the record exists iff no position failed, and a failure carries a position's fault. The record has the name `DeFi Performance NFT #<tokenId>`, the fixed description and exactly six attributes with the trait types in order. Attributes 0-4 hold the decimal strings of the five positions; attribute 5 holds the reputation score |
| DefiData.GenerateMetadata | scripts/fetchDefiData.js:108-140 | `generateMetadata` rejects iff one of the five position adapters rejects |
| DefiData.ReputationNeverFails | scripts/fetchDefiData.js:94-123 | for a reputation service that answers a whole score or fails, whether the record is built does not depend on the service or the handle |
| DefiData.ReputationFailureIsZero | scripts/fetchDefiData.js:102-105 | a failed reputation request gives the YAPS attribute the value `"0"` |
| DefiData.MetadataDecodes | scripts/fetchDefiData.js:126-137 | each attribute of a built record reads back as the number it came from: the five positions in order, then the reputation score |
| DefiData.CurveAsWrittenFails | scripts/fetchDefiData.js:16-19 | with the Curve ABI as declared, `fetchCurveData` fails for every owner and chain state with `NotAFunction("balanceOf")` |
| DefiData.CurveLiteralAsWrittenFails | scripts/fetchDefiData.js:72 | completing the Curve ABI alone does not help: the adapter still never succeeds, and with both reads answered it fails with `MixedTypes` |
| DefiData.CurveLiteralExample | scripts/fetchDefiData.js:72 | balance 1, supply 2, both functions declared: a `TypeError` with the Number literal, 50 with `100n` |
| DefiData.CorrectedCurveShare | scripts/fetchDefiData.js:64-74 | with `balanceOf` and `totalSupply` declared and the literal written `100n`, a balance within a positive supply gives a share of at most 100: exactly 100 for the whole supply, 0 for none |
| DefiData.MetadataAsWrittenFails | scripts/fetchDefiData.js:16-19 | with the adapters as written, `generateMetadata` rejects on every input |
| NftLedger.Ledger.constructor | scripts/updateNFTMetadata.js:15 | a contract handle over a given world starts with an empty call trace |
| NftLedger.Ledger.OwnerOf | scripts/updateNFTMetadata.js:19 | answers the contract's `ownerOf` and appends exactly that call to the trace |
| NftLedger.Ledger.TokenTwitterHandles | scripts/updateNFTMetadata.js:20 | answers `tokenTwitterHandles` and appends exactly that call |
| NftLedger.Ledger.TotalSupply | scripts/autoUpdateService.js:20 | answers `totalSupply` and appends exactly that call |
| NftLedger.Ledger.TokenByIndex | scripts/autoUpdateService.js:24 | answers `tokenByIndex(i)` and appends exactly that call |
| NftLedger.Ledger.UpdatePerformanceMetrics | scripts/updateNFTMetadata.js:26-34 | submits the write, answers whether it was accepted and appends exactly that call |
| NftLedger.Ledger.Wait | scripts/updateNFTMetadata.js:36 | answers whether the submitted write was confirmed and appends exactly that call |
| UpdateNftMetadata.WriteArgs | scripts/updateNFTMetadata.js:28-33 | the six positional write values, one per attribute |
| UpdateNftMetadata.UpdateRun | scripts/updateNFTMetadata.js:17-42 | `ownerOf` comes first and is never repeated; the handle is read iff the owner resolved. A write is issued iff owner, handle and metadata all resolved; it is the only write and carries `tokenId` and the attribute values in order. The wait follows iff the write was accepted. The result is true iff the write was accepted and confirmed; every other path is false |
| UpdateNftMetadata.UpdateNFTMetadata | scripts/updateNFTMetadata.js:12-43 | never raises; the ledger gains exactly the calls of `UpdateRun`, in order, and the answer is its verdict |
| UpdateNftMetadata.WriteCarriesPositions | scripts/updateNFTMetadata.js:19-34 | the write is for the token. Its six arguments read back as the five positions of the owner just resolved, in order, then the reputation score of the handle just resolved |
| UpdateNftMetadata.NoWriteWithoutMetadata | scripts/updateNFTMetadata.js:19-26 | when owner, handle or metadata fails, no write and no wait are issued and the result is false |
| UpdateNftMetadata.UpdateAsWrittenNeverWrites | scripts/updateNFTMetadata.js:23-26 | with the adapters as written, no update ever writes (at most the two reads) and every update answers false |
| AutoUpdateService.Timers.constructor | scripts/autoUpdateService.js:59 | the host's timer table starts empty |
| AutoUpdateService.Timers.SetInterval | scripts/autoUpdateService.js:59-61 | arms one new timer with the given period under a fresh handle and changes nothing else |
| AutoUpdateService.Timers.ClearInterval | scripts/autoUpdateService.js:68 | disarms exactly the given timer |
| AutoUpdateService.MetadataUpdateService.constructor | scripts/autoUpdateService.js:12-17 | a new service is stopped, with the period 300000 ms and no timer armed |
| AutoUpdateService.MetadataUpdateService.GetAllTokenIds | scripts/autoUpdateService.js:19-29 | the result is `Enumerate` of the contract; the trace gains the count read, then the index reads `0, 1, …` up to and including the first failing one |
| AutoUpdateService.EnumerateSpec | scripts/autoUpdateService.js:19-29 | enumeration succeeds iff the count read and every index read below it succeed. It then yields exactly `totalSupply` ids, with id `j` = `tokenByIndex(j)`. A failure carries the fault of the count read or of an index read |
| AutoUpdateService.MetadataUpdateService.UpdateAllTokens | scripts/autoUpdateService.js:31-47 | never raises. The trace gains the enumeration calls, then the calls of one per-token update for each enumerated id, in order. The attempted ids grow by exactly the enumerated ids |
| AutoUpdateService.EnumerationFailureUpdatesNothing | scripts/autoUpdateService.js:32-46 | a failed enumeration attempts no token and the cycle issues enumeration reads only |
| AutoUpdateService.UpdateRunLookups | scripts/updateNFTMetadata.js:19-34 | one per-token update looks up only its own token's owner, once, and writes for that token iff its metadata resolved |
| AutoUpdateService.CycleUpdatesEveryToken | scripts/autoUpdateService.js:36-43 | a cycle resolves the owner of every enumerated token once, in enumeration order, whatever the earlier updates answered. It writes for exactly the tokens whose metadata resolved, in the same order. With a successful enumeration it attempts `totalSupply` tokens |
| AutoUpdateService.MetadataUpdateService.Start | scripts/autoUpdateService.js:49-62 | while running: changes nothing (no cycle, no second timer). While stopped: sets `isRunning`, runs one full cycle and arms exactly one timer with the 300000 ms period. It keeps the invariant that the service is running iff exactly its one timer is armed |
| AutoUpdateService.MetadataUpdateService.Stop | scripts/autoUpdateService.js:64-70 | while stopped: a no-op. While running: clears `isRunning` and disarms the timer, so no timer is armed; the invariant holds |
| AutoUpdateService.MetadataUpdateService.Tick | scripts/autoUpdateService.js:59-61 | a firing of an armed timer (possible only while running) runs one full cycle and keeps the service running |

## Left out

- Provider, wallet and contract construction, contract addresses, `dotenv` and `process.env`. Each contract is an oracle over a `World`. The placeholder NFT contract address is not modelled.
- The HTTP request of `fetchYapsScore` and its Bearer header. Only its outcome is modelled: a score or a failure.
- ReputationNeverFails: holds only for a reputation service that answers a whole non-negative score or fails, and the decimal string of the score matches JavaScript's `Number.prototype.toString` only below 1e21 (from 1e21 on it uses exponent form, and Numbers above 2^53 lose digits). In the source, two kinds of answer have further consequences:
  - A successful response without a `score` field makes `fetchYapsScore` return `undefined`. `yapsScore.toString()` then throws (scripts/fetchDefiData.js:135), so `generateMetadata` rejects.
  - A fractional score such as `12.5` becomes the string `"12.5"`. It cannot be passed as a `uint256` argument, so the write fails.
- `Promise.all` concurrency. The six calls are evaluated as values. When several adapters fail, JavaScript rejects with whichever failure settles first. `JoinAll` states only that the fault comes from a failed adapter and takes the first in list order.
- `setInterval` timing and background execution. `Start` and `Tick` run a whole cycle to completion before returning. The source has no guard against a timer firing while a cycle is still running, and the model does not claim that cycles never overlap; it does not model interleaved cycles either.
- Interleaving between the service's reads and writes by other parties. The world is fixed for the lifetime of a `Ledger`, so every read of the same function answers the same value.
- Signal handlers, `process.exit` and the module-level `service.start()`.
- Console logging.
- The command-line `main` of `scripts/updateNFTMetadata.js` and its `parseInt`.
- The reads of the protocol contracts and the reputation request are not appended to the trace; only the NFT contract calls are.
- ABI range encoding of `uint112`/`uint256` values. A negative Maker value (`DefiData.MakerCanBeNegative`) cannot be encoded as `uint256`, so the write would fail; the model leaves this to the `submit` oracle.
- The separate contract objects of the service and of the per-token update are one `Ledger`, because both address the same NFT contract.
- PoolShareBounds: states bounds of the share as evidently intended, with the literal `100n`. As written the source throws a `TypeError` before computing a share (`DefiData.UniswapAsWrittenFails`, `DefiData.CurveLiteralAsWrittenFails`; see "Findings").
- UniswapBounds: likewise states bounds of the Uniswap value as evidently intended. As written `fetchUniswapData` never yields a value.
- DefiData.JoinAll: states that the fault is one of the failed adapters' faults, taking the first in list order. In JavaScript it is whichever failure settles first.

## Findings

| source | as written | input that shows it | evidently intended | confidence | as-written member | corrected member |
|---|---|---|---|---|---|---|
| scripts/fetchDefiData.js:16-19 | the Curve ABI declares only `balances` and `coins`, but `fetchCurveData` calls `balanceOf` and `totalSupply` (scripts/fetchDefiData.js:68-69); every call is a `TypeError` | any owner address and any chain state | the ABI declares `balanceOf` and `totalSupply`, the literal at scripts/fetchDefiData.js:72 is `100n` (next rows), and the adapter returns the owner's percentage share of the pool | not executed | DefiData.CurveAsWrittenFails | DefiData.CorrectedCurveShare |
| scripts/fetchDefiData.js:50-51 | `balance * 100` and `... * userShare / 100` mix the BigInt reads with the Number `100`, which throws a `TypeError`, so `fetchUniswapData` never returns a value | balance 1, supply 1, reserves (10, 10, 0): a `TypeError` instead of 20 | the literal is `100n`, giving `(reserve0 + reserve1) * (balance * 100n / totalSupply) / 100n` | not executed | DefiData.UniswapLiteralExample | DefiData.CorrectedUniswapBounds |
| scripts/fetchDefiData.js:72 | `balance * 100` mixes the BigInt balance with the Number `100`, so even with the Curve ABI completed `fetchCurveData` throws a `TypeError` | balance 1, supply 2, both functions declared: a `TypeError` instead of 50 | the literal is `100n`, giving the truncated percentage `balance * 100n / totalSupply` | not executed | DefiData.CurveLiteralExample | DefiData.CorrectedCurveShare |

For every input, `DefiData.UniswapAsWrittenFails` and `DefiData.CurveLiteralAsWrittenFails` state the literal findings. The as-written consequences are `DefiData.MetadataAsWrittenFails` and `UpdateNftMetadata.UpdateAsWrittenNeverWrites`. `DefiData.CorrectedCode` applies all three corrections: `DefiData.CorrectedAbis` adds the two Curve functions, and the literal becomes `100n`. All other members take the `Code` as a parameter, so they hold for the corrected code as well.
