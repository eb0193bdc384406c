/** The transaction record the monitor receives from the ledger node: compiled
    instructions, the account-key table (static keys followed by any loaded
    addresses) and the execution metadata with its balance snapshots. */
module Ledger {
  import opened Wrappers

  type Byte = x: int | 0 <= x < 256

  /** An account address. Keys are compared by their bytes, as
      `PublicKey.equals` does. */
  datatype Pubkey = Pubkey(bytes: seq<Byte>)

  /** One instruction of the transaction message: the program it invokes (as a
      position in the key table), its payload and the key-table positions of
      the accounts it reads or writes. */
  datatype CompiledInstruction = CompiledInstruction(
    programIdIndex: int,
    data: seq<Byte>,
    accountKeyIndexes: seq<nat>)

  /** One entry of `preTokenBalances` / `postTokenBalances`. `uiAmount` is the
      display amount (an exact real here), which the node may report as null. */
  datatype TokenBalance = TokenBalance(
    accountIndex: nat,
    mint: Pubkey,
    uiAmount: Option<real>,
    decimals: nat)

  /** Execution metadata. `err` is set when the transaction was reverted;
      `preBalances` / `postBalances` are the native balances in lamports. */
  datatype TransactionMeta = TransactionMeta(
    err: bool,
    preBalances: seq<nat>,
    postBalances: seq<nat>,
    preTokenBalances: Option<seq<TokenBalance>>,
    postTokenBalances: Option<seq<TokenBalance>>)

  datatype Transaction = Transaction(
    instructions: seq<CompiledInstruction>,
    accountKeys: seq<Pubkey>,
    meta: Option<TransactionMeta>)

  /** What the ledger guarantees of every record it returns: each account index
      of each instruction resolves in the key table, and the native balance
      snapshots run parallel to the key table. */
  predicate WellFormed(tx: Transaction) {
    && (forall i, k :: 0 <= i < |tx.instructions| && 0 <= k < |tx.instructions[i].accountKeyIndexes| ==>
          tx.instructions[i].accountKeyIndexes[k] < |tx.accountKeys|)
    && (tx.meta.Some? ==>
          |tx.meta.value.preBalances| == |tx.accountKeys| && |tx.meta.value.postBalances| == |tx.accountKeys|)
  }
}

/** The monitor's configured constants. */
module Constants {

  /** Lamports in one SOL. */
  const LAMPORTS_PER_SOL: nat := 1_000_000_000

  /** Bounds, in lamports, on the SOL a launch puts into its bonding curve. */
  const MAX_INITIAL_SOL: nat := 50 * LAMPORTS_PER_SOL
  const MIN_INITIAL_SOL: nat := 3 * LAMPORTS_PER_SOL

  /** Minimum token-balance change, scaled like a lamport amount; the gate
      compares against `MIN_INITIAL_TOKEN / LAMPORTS_PER_SOL`. */
  const MIN_INITIAL_TOKEN: nat := 1 * LAMPORTS_PER_SOL
  const MIN_INITIAL_TOKEN_BALANCE: real := MIN_INITIAL_TOKEN as real / LAMPORTS_PER_SOL as real

  /** Log lines of the launch program. The sell line is declared but never consulted. */
  const PUMPFUN_CREATE_LOG: string := "Program log: IX: Create Metadata Accounts v3"
  const PUMPFUN_BUY_LOG: string := "Program log: Instruction: Buy"
  const PUMPFUN_SELL_LOG: string := "Program log: Instruction: Sell"

  /** The launch program's create-instruction selector, as `Buffer.toString("hex")`
      renders its first four data bytes. */
  const CREATE_SELECTOR_HEX: string := "181ec828"
}
