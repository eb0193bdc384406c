# pumpfun-monitor: a Dafny model of the launch-detection pipeline

The monitor watches the log notifications of the pump.fun program on Solana.
For each notification whose log lines include the create-metadata line and
the buy line, it fetches the transaction. If the transaction did not revert,
it runs `parseInstructions` on it. That function:

1. finds the first compiled instruction that invokes a program other than key 0,
   has at least eight data bytes and starts with the selector `18 1e c8 28`;
2. maps that instruction's account indexes through the key table and, when
   there are exactly fourteen, names them by position (mint, mint authority,
   bonding curve, …, program);
3. finds the bonding curve's first position in the key table and gates its
   lamport delta to [3·10⁹, 50·10⁹];
4. finds the mint's first pre- and post-token-balance entries and gates the
   growth of its display amount (at least one token);
5. assembles the launch record, including the token change in smallest units,
   `floor(change · 10^decimals)`.

## Modules

- `Wrappers` (wrappers.dfy): `Option`, for JavaScript's `null` / `undefined`.
- `Search` (search.dfy): `findIndex` / `find` as first-match functions.
- `Ledger`, `Constants` (ledger.dfy): the transaction record and the configured constants.
  `WellFormed` is what the ledger guarantees of every record: account indexes
  resolve in the key table, and native balances run parallel to it.
- `Locator` (locator.dfy): the create-instruction locator. The source compares
  `Buffer.toString("hex")` of the selector bytes with "181ec828". The model
  writes that rendering out as `Hex` and proves the comparison equivalent to
  comparing the bytes.
- `Roles` (roles.dfy): the fourteen-account positional schema.
- `Balances` (balances.dfy): the bonding-curve search (a loop, as in the
  source), the SOL gate, the token-balance lookups with their defaults, the
  token gate and the decimal scaling.
- `Parser` (parser.dfy): `parseInstructions` in two forms. `ParseInstructions`
  composes the stage functions. `ParseInstructionsStepwise` and its two helper
  methods follow the source statement by statement: early returns, the
  bonding-curve loop, the pre-balance that starts at zero and is overwritten,
  the decimals read from the first post entry and reset to zero when absent or
  zero, and the two separate searches of the post entries. The two forms are proved to agree. `AcceptedAt` describes an
  accepted transaction declaratively, and `ParseInstructionsCharacterized`
  proves the pipeline accepts exactly those transactions.
- `Monitor` (monitor.dfy): the log filter, the reverted-transaction skip, and
  `handleLogs` with the fetch result given as an input.
- `Examples` (examples.dfy): concrete launch transactions over any sixteen
  distinct keys. They cover the minimum SOL launch with two tokens at six
  decimals (2 000 000 smallest units), a SOL decrease, a 51 SOL delta, a
  missing post-token entry, and 13 or 15 accounts.

Every part of the pipeline is a function, so running it twice on the same
record gives the same result by construction.

## Model

| member | source | states |
|---|---|---|
| `Search.FindIndex` | src/index.ts:79-102 | `findIndex`: the result is the first position whose element satisfies the predicate; it is absent exactly when no element does |
| `Search.Find` | src/index.ts:194-197 | `find`: absent exactly when no element matches; otherwise the element at the first matching position |
| `Locator.Hex` | src/index.ts:94-97 | the hex rendering has two characters per byte |
| `Locator.HexInjective` | src/index.ts:94-97 | different byte strings have different hex renderings |
| `Locator.SelectorHexMatches` | src/index.ts:94-97 | the hex rendering equals "181ec828" exactly when the bytes are `18 1e c8 28` |
| `Locator.CreateInstructionBytes` | src/index.ts:83-102 | an instruction is the create instruction iff `programIdIndex > 0`, it has at least 8 data bytes, and its first four bytes are the selector |
| `Locator.LocateCreateInstruction` | src/index.ts:79-107 | the located index is the first create instruction; none is located exactly when no instruction matches |
| `Roles.AccountList` | src/index.ts:134-148 | the roles, listed in account order, are fourteen keys |
| `Roles.ResolveAccounts` | src/index.ts:122-127 | the resolved list has one key per account index, namely the key-table entry at that index |
| `Roles.AccountsOf` | src/index.ts:129-148 | roles are named exactly when there are fourteen accounts, and role k is account k |
| `Roles.AccountsRoundTrip` | src/index.ts:134-148 | naming the roles of a listed role set gives that role set back |
| `Balances.FindBondingCurveIndex` | src/index.ts:150-163 | the loop returns -1 exactly when the bonding curve is not in the key table; otherwise its first position there, which is the position the first-match function gives |
| `Balances.NativeDelta` | src/index.ts:165-189 | a SOL delta is accepted iff the balance grew and the growth lies within [MIN_INITIAL_SOL, MAX_INITIAL_SOL]; the accepted value is post minus pre |
| `Balances.PreTokenAmount` | src/index.ts:191-199 | the pre amount is 0 with no list or no entry of the mint; otherwise the first entry's amount, with a null amount read as 0 |
| `Balances.PostTokenAmount` | src/index.ts:211-219 | the post amount is absent with no entry of the mint, or when the first entry's amount is null or zero; otherwise it is that amount |
| `Balances.TokenDecimals` | src/index.ts:201-209 | the decimals are 0 with no entry of the mint; otherwise the first entry's decimals |
| `Balances.TokenDelta` | src/index.ts:221-233 | a token change is accepted iff the amount grew by at least MIN_INITIAL_TOKEN / LAMPORTS_PER_SOL; the accepted value is after minus before |
| `Balances.Pow10` | src/index.ts:252 | `10 ** decimals` is at least 1 |
| `Balances.ScaledAmount` | src/index.ts:252 | the floor: the result is at most `amount · 10^decimals` and more than that minus one |
| `Balances.ScaledAmountRoundTrip` | src/index.ts:252 | scaling `n / 10^d` by `10^d` and flooring gives back n |
| `Balances.ScaledAmountAtLeastOneToken` | src/index.ts:230-252 | a change of at least one token is at least `10^decimals` smallest units |
| `Parser.TokenChangeStepwise` | src/index.ts:191-233 | the imperative token stage (pre-balance defaulted then overwritten, decimals found then reset to 0 when falsy, a second search for the post amount, early returns) computes the token-stage function |
| `Parser.ValidateBalancesStepwise` | src/index.ts:150-256 | the imperative balance stages (bonding-curve loop, SOL gates, token stage, record) compute the balance-stage function |
| `Parser.ParseInstructionsStepwise` | src/index.ts:59-257 | the statement-by-statement pipeline computes `ParseInstructions` |
| `Parser.TokenChangeFrom` | src/index.ts:201-233 | once the mint's first post entry is known, the token stage accepts exactly the changes the declarative token description allows |
| `Parser.TokenChangeAt` | src/index.ts:191-233 | the token stage accepts a change and decimals iff some first post entry of the mint witnesses them |
| `Parser.ValidateBalancesAt` | src/index.ts:150-256 | the balance stages produce a record iff its SOL part and its token part match the declarative description |
| `Parser.ParseLocated` | src/index.ts:109-148 | once the create instruction is located and meta is present, a record is produced iff its roles are the instruction's accounts by position and the balance stages accept |
| `Parser.ParseInstructionsCharacterized` | src/index.ts:59-257 | `ParseInstructions(tx) == Some(e)` iff the declarative description holds for some create, bonding-curve and post-entry positions (both directions) |
| `Parser.NoCreateInstructionRejects` | src/index.ts:104-107 | with no create instruction there is no record |
| `Parser.MissingMetaRejects` | src/index.ts:109-119 | with no meta, or no post token balances, there is no record |
| `Parser.AccountCountRejects` | src/index.ts:129-132 | a first create instruction without exactly fourteen accounts yields no record |
| `Parser.BondingCurveAlwaysFound` | src/index.ts:150-163 | for a well-formed record the bonding-curve search always succeeds, at or before the index the instruction names, so the `-1` branch cannot be taken |
| `Parser.NativeOutOfBoundsRejects` | src/index.ts:165-189 | a SOL delta at the bonding curve's position that is not an increase within the bounds yields no record |
| `Parser.MissingPostAmountRejects` | src/index.ts:211-219 | a missing, null or zero first post amount for the mint yields no record, whatever the SOL delta |
| `Parser.AcceptedRecordInvariant` | src/index.ts:177-256 | every record has lamports within the bounds, the SOL balance equal to lamports / 10⁹, a token change of at least one token, a token amount equal to `floor(change · 10^decimals)`, and a token amount of at least 1 |
| `Parser.NativeAtBounds` | src/index.ts:177-189 | the declarative SOL part implies the bounds and the SOL display value |
| `Parser.TokensAtBounds` | src/index.ts:227-255 | the declarative token part implies the token floor and that the scaled amount is positive |
| `Parser.AcceptedRecordRoles` | src/index.ts:236-250 | a record's roles are the first create instruction's fourteen accounts, by position |
| `Monitor.HandleTransaction` | src/index.ts:263-274 | the transaction is skipped exactly when meta is present with `err` set; otherwise the outcome reports the result of `ParseInstructions` on it |
| `Monitor.SellLogNeverConsulted` | src/index.ts:282-287 | adding the sell line anywhere in the logs never changes the filter's decision |
| `Monitor.LogsQualifyByMembership` | src/index.ts:282-287 | the filter depends only on which lines occur |
| `Monitor.SubstringsDoNotQualify` | src/index.ts:282-287 | a single line that contains both markers as substrings does not qualify |
| `Monitor.FilteredNotificationIgnored` | src/index.ts:280-287 | a notification the filter rejects is ignored whatever the fetch would return |
| `Monitor.RevertedNeverReported` | src/index.ts:263-267 | a reverted transaction reports nothing, even one the parser would accept |
| `Monitor.ReportedRecordPath` | src/index.ts:280-308 | a record is reported iff the logs qualify, the fetch returned the transaction, it did not revert and the parser accepts it |
| `Examples.CreateIsSecondInstruction` | src/index.ts:79-107 | an instruction with another selector is skipped, and the create instruction after it is located |
| `Examples.LaunchAccountsResolve` | src/index.ts:122-148 | accounts 1 to 14 of the key table resolve and name the expected roles |
| `Examples.BondingCurveAtThree` | src/index.ts:150-163 | with distinct keys, the bonding curve is found at its own position |
| `Examples.TwoTokensAtSixDecimals` | src/index.ts:201-255 | a change of 2.0 tokens at six decimals is accepted and scales to 2 000 000 |
| `Examples.LaunchReachesBalances` | src/index.ts:79-148 | the example launch reaches the balance stages with the expected roles |
| `Examples.MinimumLaunchBalances` | src/index.ts:150-256 | the balance stages accept exactly 3 SOL and 2.0 tokens at six decimals |
| `Examples.MinimumLaunchAccepted` | src/index.ts:59-257 | the minimum-SOL launch yields the full record with 3·10⁹ lamports and 2 000 000 token units |
| `Examples.LaunchNativeRejected` | src/index.ts:165-189 | an example launch whose SOL change fails the gate yields no record |
| `Examples.SolOutOfBoundsRejected` | src/index.ts:165-189 | a decrease from 1 SOL to 0.9 SOL, and a delta of 51 SOL, both yield no record |
| `Examples.MissingPostEntryRejected` | src/index.ts:211-219 | with no post entry for the mint there is no record, although the SOL delta is valid |
| `Examples.WrongAccountCountRejected` | src/index.ts:129-132 | thirteen or fifteen accounts yield no record |

## Left out

- Network plumbing is not modelled: the RPC connection, the `onLogs` subscription, `getTransaction` and its promise chain, and `main`'s idle loop. The fetch result (transaction, not found, transport failure) is an input of `Monitor.HandleLogs`.
- Side effects with no domain logic are not modelled: console warnings and
  output, the timestamp, and `process.exit`. Because of this, the transaction
  signatures (used only in log messages) and the program id (used only to
  subscribe) are not modelled either.
- `PublicKey` is modelled as bytes compared for equality. The base58 parsing of a token entry's `mint` string is not modelled: the entry carries the key directly.
- The key table is whatever `getAccountKeys()` returns, a plain sequence of keys; a message with address-table lookups falls under the exceptions line below.
- The source reads an account index out of the key table with TypeScript's non-null assertion. That is not a runtime check. So an index in range, and native balance arrays parallel to the key table, are the `WellFormed` precondition. Whatever an out-of-range index would do is not modelled.
- Floating point is not modelled. Display amounts are exact reals, `Math.floor` is the exact floor, and lamport balances are exact naturals. Rounding of `tokenBalanceChange * 10 ** tokenDecimals` in doubles, and lamport values above 2^53, are not captured.
- Exceptions raised inside parsing (for example a malformed mint string, or `getAccountKeys()` on a message with address-table lookups) are not modelled.
- Token-balance fields the source never reads (owner, program id, raw amount) are not modelled.
- The record groups the fourteen role keys in one `accounts` field instead of the flat fields of the source.
- The bonding-curve search can only fail for a key table that lacks the
  accounts' own key. `Parser.BondingCurveAlwaysFound` shows that cannot happen
  for a well-formed record. The `-1` branch is still modelled as the source
  writes it.
