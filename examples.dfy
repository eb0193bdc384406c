/** Concrete launch transactions and what the pipeline makes of them. The key
    table is any sixteen distinct keys; position 15 is the launch program. */
module Examples {
  import opened Wrappers
  import opened Search
  import opened Ledger
  import opened Constants
  import opened Locator
  import opened Roles
  import opened Balances
  import opened Parser

  ghost predicate DistinctKeys(keys: seq<Pubkey>) {
    |keys| == 16 && forall i, j :: 0 <= i < j < |keys| ==> keys[i] != keys[j]
  }

  const CREATE_DATA: seq<Byte> := [0x18, 0x1e, 0xc8, 0x28, 0x04, 0x00, 0x00, 0x00]

  /** An instruction of another kind, ahead of the create instruction. */
  const OTHER_INSTRUCTION: CompiledInstruction := CompiledInstruction(15, [0x66, 0x06, 0x3d, 0x12, 0, 0, 0, 0], [0, 1])

  /** The create instruction's fourteen accounts: keys 1 to 14, so the mint is
      key 1 and the bonding curve key 3. */
  const LAUNCH_ACCOUNTS: seq<nat> := [1, 2, 3, 4, 5, 6, 7, 8, 9, 10, 11, 12, 13, 14]

  /** The same accounts with the last one missing, or with one extra. */
  const SHORT_ACCOUNTS: seq<nat> := [1, 2, 3, 4, 5, 6, 7, 8, 9, 10, 11, 12, 13]
  const LONG_ACCOUNTS: seq<nat> := [1, 2, 3, 4, 5, 6, 7, 8, 9, 10, 11, 12, 13, 14, 15]

  /** Native balances: zero everywhere except at the bonding curve (position 3). */
  function Lamports(atBondingCurve: nat): seq<nat> {
    [0, 0, 0, atBondingCurve, 0, 0, 0, 0, 0, 0, 0, 0, 0, 0, 0, 0]
  }

  function LaunchTx(keys: seq<Pubkey>, indexes: seq<nat>, lamportsBefore: nat, lamportsAfter: nat,
                    post: seq<TokenBalance>): (tx: Transaction)
    requires |keys| == 16
    requires forall k :: 0 <= k < |indexes| ==> indexes[k] < 16
    ensures WellFormed(tx)
  {
    Transaction(
      [OTHER_INSTRUCTION, CompiledInstruction(15, CREATE_DATA, indexes)],
      keys,
      Some(TransactionMeta(false, Lamports(lamportsBefore), Lamports(lamportsAfter), None, Some(post))))
  }

  /** Two whole tokens of the mint, six decimals. */
  function MintBalance(keys: seq<Pubkey>): seq<TokenBalance>
    requires |keys| == 16
  {
    [TokenBalance(4, keys[1], Some(2.0), 6)]
  }

  function LaunchRoles(keys: seq<Pubkey>): CreateAccounts
    requires |keys| == 16
  {
    CreateAccounts(
      keys[1], keys[2], keys[3], keys[4], keys[5], keys[6], keys[7],
      keys[8], keys[9], keys[10], keys[11], keys[12], keys[13], keys[14])
  }

  lemma CreateIsSecondInstruction(tx: Transaction)
    requires |tx.instructions| == 2
    requires tx.instructions[0] == OTHER_INSTRUCTION
    requires tx.instructions[1].programIdIndex == 15 && tx.instructions[1].data == CREATE_DATA
    ensures LocateCreateInstruction(tx.instructions) == Some(1)
  {
    CreateInstructionBytes(tx.instructions[0]);
    CreateInstructionBytes(tx.instructions[1]);
    assert OTHER_INSTRUCTION.data[..4] != CREATE_SELECTOR by {
      assert OTHER_INSTRUCTION.data[0] != CREATE_SELECTOR[0];
    }
    assert CREATE_DATA[..4] == CREATE_SELECTOR;
    FindIndexIsFirst(tx.instructions, IsCreateInstruction, 1);
  }

  /** The launch instruction's accounts name the expected roles. */
  lemma LaunchAccountsResolve(keys: seq<Pubkey>)
    requires |keys| == 16
    ensures forall k :: 0 <= k < |LAUNCH_ACCOUNTS| ==> LAUNCH_ACCOUNTS[k] < 16
    ensures AccountsOf(ResolveAccounts(keys, LAUNCH_ACCOUNTS)) == Some(LaunchRoles(keys))
  {
    assert forall k :: 0 <= k < 14 ==> LAUNCH_ACCOUNTS[k] == k + 1;
    assert ResolveAccounts(keys, LAUNCH_ACCOUNTS) == keys[1..15];
    AccountsRoundTrip(LaunchRoles(keys));
  }

  /** The bonding curve (key 3) is first found at position 3. */
  lemma BondingCurveAtThree(keys: seq<Pubkey>)
    requires DistinctKeys(keys)
    ensures KeyPosition(keys, keys[3]) == Some(3)
  {
    assert keys[0] != keys[3] && keys[1] != keys[3] && keys[2] != keys[3];
    FindIndexIsFirst(keys, IsKey(keys[3]), 3);
  }

  /** Two tokens at six decimals, with no pre-launch entry. */
  lemma TwoTokensAtSixDecimals(keys: seq<Pubkey>)
    requires |keys| == 16
    ensures TokenChange(None, MintBalance(keys), keys[1]) == Some((2.0, 6))
    ensures ScaledAmount(2.0, 6) == 2_000_000
  {
    assert IsFirst(MintBalance(keys), HasMint(keys[1]), 0);
    assert Pow10(6) == 1_000_000;
    ScaledAmountRoundTrip(2_000_000, 6);
  }

  /** Any launch transaction of this shape reaches the balance stages with
      the expected roles. */
  lemma LaunchReachesBalances(keys: seq<Pubkey>, lamportsBefore: nat, lamportsAfter: nat, post: seq<TokenBalance>)
    requires |keys| == 16
    ensures forall k :: 0 <= k < |LAUNCH_ACCOUNTS| ==> LAUNCH_ACCOUNTS[k] < 16
    ensures var tx := LaunchTx(keys, LAUNCH_ACCOUNTS, lamportsBefore, lamportsAfter, post);
      ParseInstructions(tx) == ValidateBalances(keys, tx.meta.value, post, LaunchRoles(keys))
  {
    LaunchAccountsResolve(keys);
    CreateIsSecondInstruction(LaunchTx(keys, LAUNCH_ACCOUNTS, lamportsBefore, lamportsAfter, post));
  }

  /** The balance stages for the minimum launch. */
  lemma MinimumLaunchBalances(keys: seq<Pubkey>)
    requires DistinctKeys(keys)
    ensures ValidateBalances(keys, TransactionMeta(false, Lamports(1_000_000_000), Lamports(4_000_000_000), None, Some(MintBalance(keys))),
                             MintBalance(keys), LaunchRoles(keys))
      == Some(CreateInstruction(LaunchRoles(keys), 3.0, 2.0, 3_000_000_000, 2_000_000, 6))
  {
    BondingCurveAtThree(keys);
    TwoTokensAtSixDecimals(keys);
    assert NativeDelta(1_000_000_000, 4_000_000_000) == Some(3_000_000_000);
  }

  /** Exactly the minimum SOL and two tokens at six decimals: a record with
      2 000 000 smallest token units. */
  lemma MinimumLaunchAccepted(keys: seq<Pubkey>)
    requires DistinctKeys(keys)
    ensures ParseInstructions(LaunchTx(keys, LAUNCH_ACCOUNTS, 1_000_000_000, 4_000_000_000, MintBalance(keys))) ==
      Some(CreateInstruction(LaunchRoles(keys), 3.0, 2.0, 3_000_000_000, 2_000_000, 6))
  {
    LaunchReachesBalances(keys, 1_000_000_000, 4_000_000_000, MintBalance(keys));
    MinimumLaunchBalances(keys);
  }

  /** A launch transaction whose bonding-curve balance change fails the SOL
      gate yields no record. */
  lemma LaunchNativeRejected(keys: seq<Pubkey>, lamportsBefore: nat, lamportsAfter: nat)
    requires DistinctKeys(keys)
    requires NativeDelta(lamportsBefore, lamportsAfter).None?
    ensures ParseInstructions(LaunchTx(keys, LAUNCH_ACCOUNTS, lamportsBefore, lamportsAfter, MintBalance(keys))) == None
  {
    var meta := TransactionMeta(false, Lamports(lamportsBefore), Lamports(lamportsAfter), None, Some(MintBalance(keys)));
    assert ValidateBalances(keys, meta, MintBalance(keys), LaunchRoles(keys)) == None by {
      BondingCurveAtThree(keys);
      assert meta.preBalances[3] == lamportsBefore && meta.postBalances[3] == lamportsAfter;
    }
    LaunchReachesBalances(keys, lamportsBefore, lamportsAfter, MintBalance(keys));
  }

  /** The bonding curve's balance falls from 1 SOL to 0.9 SOL, or grows by
      51 SOL, above the 50 SOL maximum: no record. */
  lemma SolOutOfBoundsRejected(keys: seq<Pubkey>)
    requires DistinctKeys(keys)
    ensures ParseInstructions(LaunchTx(keys, LAUNCH_ACCOUNTS, 1_000_000_000, 900_000_000, MintBalance(keys))) == None
    ensures ParseInstructions(LaunchTx(keys, LAUNCH_ACCOUNTS, 1_000_000_000, 52_000_000_000, MintBalance(keys))) == None
  {
    LaunchNativeRejected(keys, 1_000_000_000, 900_000_000);
    LaunchNativeRejected(keys, 1_000_000_000, 52_000_000_000);
  }

  /** No post-token entry for the mint (only one of another key): no record,
      although the SOL delta is valid. */
  lemma MissingPostEntryRejected(keys: seq<Pubkey>)
    requires DistinctKeys(keys)
    ensures ParseInstructions(LaunchTx(keys, LAUNCH_ACCOUNTS, 1_000_000_000, 4_000_000_000,
                                       [TokenBalance(4, keys[9], Some(5.0), 6)])) == None
  {
    var post := [TokenBalance(4, keys[9], Some(5.0), 6)];
    var meta := TransactionMeta(false, Lamports(1_000_000_000), Lamports(4_000_000_000), None, Some(post));
    assert ValidateBalances(keys, meta, post, LaunchRoles(keys)) == None by {
      BondingCurveAtThree(keys);
      assert meta.preBalances[3] == 1_000_000_000 && meta.postBalances[3] == 4_000_000_000;
      assert PostTokenAmount(post, keys[1]).None?;
    }
    LaunchReachesBalances(keys, 1_000_000_000, 4_000_000_000, post);
  }

  /** Thirteen or fifteen accounts instead of fourteen: no record. */
  lemma WrongAccountCountRejected(keys: seq<Pubkey>)
    requires |keys| == 16
    ensures ParseInstructions(LaunchTx(keys, SHORT_ACCOUNTS, 1_000_000_000, 4_000_000_000, MintBalance(keys))) == None
    ensures ParseInstructions(LaunchTx(keys, LONG_ACCOUNTS, 1_000_000_000, 4_000_000_000, MintBalance(keys))) == None
  {
    var short := LaunchTx(keys, SHORT_ACCOUNTS, 1_000_000_000, 4_000_000_000, MintBalance(keys));
    var long := LaunchTx(keys, LONG_ACCOUNTS, 1_000_000_000, 4_000_000_000, MintBalance(keys));
    CreateIsSecondInstruction(short);
    CreateIsSecondInstruction(long);
    AccountCountRejects(short, 1);
    AccountCountRejects(long, 1);
  }
}
