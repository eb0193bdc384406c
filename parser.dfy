/** `parseInstructions`: locate the create instruction, name its accounts,
    validate the SOL and token deltas and assemble the launch record, or
    yield no record when any gate fails. */
module Parser {
  import opened Wrappers
  import opened Search
  import opened Ledger
  import opened Constants
  import opened Locator
  import opened Roles
  import opened Balances

  /** The launch record the monitor reports. */
  datatype CreateInstruction = CreateInstruction(
    accounts: CreateAccounts,
    initialSolBalance: real,
    initialTokenBalance: real,
    initialLamportAmount: int,
    initialTokenAmount: int,
    tokenDecimals: nat)

  /** The event assembler: the named accounts and the validated deltas. */
  function Assemble(accounts: CreateAccounts, lamports: nat, tokens: real, decimals: nat): CreateInstruction {
    CreateInstruction(
      accounts,
      lamports as real / LAMPORTS_PER_SOL as real,
      tokens,
      lamports,
      ScaledAmount(tokens, decimals),
      decimals)
  }

  /** The token stage: the growth of the mint's display balance, checked by
      the token gate, with the decimals of its post entry. */
  function TokenChange(preTokenBalances: Option<seq<TokenBalance>>, postTokenBalances: seq<TokenBalance>, mint: Pubkey)
    : Option<(real, nat)>
  {
    var before := PreTokenAmount(preTokenBalances, mint);
    var decimals := TokenDecimals(postTokenBalances, mint);
    match PostTokenAmount(postTokenBalances, mint)
    case None => None
    case Some(after) =>
      match TokenDelta(before, after)
      case None => None
      case Some(tokens) => Some((tokens, decimals))
  }

  /** The balance stages for the named accounts: the bonding curve's SOL delta
      and the mint's token delta. */
  function ValidateBalances(accountKeys: seq<Pubkey>, meta: TransactionMeta, postTokenBalances: seq<TokenBalance>,
                            accounts: CreateAccounts): Option<CreateInstruction>
    requires |meta.preBalances| == |accountKeys| && |meta.postBalances| == |accountKeys|
  {
    match KeyPosition(accountKeys, accounts.bondingCurve)
    case None => None
    case Some(bondingCurveIndex) =>
      match NativeDelta(meta.preBalances[bondingCurveIndex], meta.postBalances[bondingCurveIndex])
      case None => None
      case Some(lamports) =>
        match TokenChange(meta.preTokenBalances, postTokenBalances, accounts.mint)
        case None => None
        case Some((tokens, decimals)) => Some(Assemble(accounts, lamports, tokens, decimals))
  }

  /** The pipeline as a composition of its stages. */
  function ParseInstructions(tx: Transaction): Option<CreateInstruction>
    requires WellFormed(tx)
  {
    match LocateCreateInstruction(tx.instructions)
    case None => None
    case Some(createIndex) =>
      if tx.meta.None? || tx.meta.value.postTokenBalances.None? then None
      else
        var inputAccounts := ResolveAccounts(tx.accountKeys, tx.instructions[createIndex].accountKeyIndexes);
        match AccountsOf(inputAccounts)
        case None => None
        case Some(accounts) =>
          ValidateBalances(tx.accountKeys, tx.meta.value, tx.meta.value.postTokenBalances.value, accounts)
  }

  /** The token stage as the monitor writes it: the pre-balance starts at zero
      and is overwritten when an entry is found; the decimals are read from the
      first post entry and reset to zero when absent or zero; the post amount
      comes from a second search of the post entries. */
  method TokenChangeStepwise(preTokenBalances: Option<seq<TokenBalance>>, postTokenBalances: seq<TokenBalance>,
                             mint: Pubkey) returns (result: Option<(real, nat)>)
    ensures result == TokenChange(preTokenBalances, postTokenBalances, mint)
  {
    var beforeTokenBalance: real := 0.0;
    if preTokenBalances.Some? {
      var preBalance := Find(preTokenBalances.value, HasMint(mint));
      beforeTokenBalance :=
        if preBalance.Some? && preBalance.value.uiAmount.Some? && preBalance.value.uiAmount.value != 0.0
        then preBalance.value.uiAmount.value
        else 0.0;
    }

    var decimalsEntry := Find(postTokenBalances, HasMint(mint));
    var foundDecimals: Option<nat> := if decimalsEntry.Some? then Some(decimalsEntry.value.decimals) else None;
    if foundDecimals.None? || foundDecimals.value == 0 {
      foundDecimals := Some(0);
    }
    var tokenDecimals := foundDecimals.value;

    var postBalance := Find(postTokenBalances, HasMint(mint));
    if postBalance.None? || postBalance.value.uiAmount.None? || postBalance.value.uiAmount.value == 0.0 {
      return None;
    }
    var afterTokenBalance := postBalance.value.uiAmount.value;
    if afterTokenBalance <= beforeTokenBalance {
      return None;
    }
    var tokenBalanceChange := afterTokenBalance - beforeTokenBalance;
    if tokenBalanceChange < MIN_INITIAL_TOKEN as real / LAMPORTS_PER_SOL as real {
      return None;
    }
    result := Some((tokenBalanceChange, tokenDecimals));
  }

  /** The pipeline step by step, as the monitor runs it: early returns and the
      bonding-curve loop. */
  method ParseInstructionsStepwise(tx: Transaction) returns (result: Option<CreateInstruction>)
    requires WellFormed(tx)
    ensures result == ParseInstructions(tx)
  {
    var createIndex := LocateCreateInstruction(tx.instructions);
    if createIndex.None? {
      return None;
    }
    if tx.meta.None? {
      return None;
    }
    var meta := tx.meta.value;
    if meta.postTokenBalances.None? {
      return None;
    }
    var postTokenBalances := meta.postTokenBalances.value;

    var inputAccounts := ResolveAccounts(tx.accountKeys, tx.instructions[createIndex.value].accountKeyIndexes);
    if |inputAccounts| != CREATE_ACCOUNT_COUNT {
      return None;
    }
    var accounts := AccountsOf(inputAccounts).value;
    assert ParseInstructions(tx) == ValidateBalances(tx.accountKeys, meta, postTokenBalances, accounts);

    result := ValidateBalancesStepwise(tx.accountKeys, meta, postTokenBalances, accounts);
  }

  /** The balance stages step by step: the bonding-curve loop, then the SOL
      gates with early returns, then the token stage. */
  method ValidateBalancesStepwise(accountKeys: seq<Pubkey>, meta: TransactionMeta, postTokenBalances: seq<TokenBalance>,
                                  accounts: CreateAccounts) returns (result: Option<CreateInstruction>)
    requires |meta.preBalances| == |accountKeys| && |meta.postBalances| == |accountKeys|
    ensures result == ValidateBalances(accountKeys, meta, postTokenBalances, accounts)
  {
    var bondingCurveIndex := FindBondingCurveIndex(accountKeys, accounts.bondingCurve);
    if bondingCurveIndex == -1 {
      return None;
    }

    var beforeSolBalance := meta.preBalances[bondingCurveIndex];
    var afterSolBalance := meta.postBalances[bondingCurveIndex];
    if afterSolBalance <= beforeSolBalance {
      return None;
    }
    var solBalanceChange := afterSolBalance - beforeSolBalance;
    if solBalanceChange < MIN_INITIAL_SOL {
      return None;
    }
    if solBalanceChange > MAX_INITIAL_SOL {
      return None;
    }

    var tokens := TokenChangeStepwise(meta.preTokenBalances, postTokenBalances, accounts.mint);
    if tokens.None? {
      return None;
    }
    var (tokenBalanceChange, tokenDecimals) := tokens.value;

    result := Some(CreateInstruction(
      accounts,
      solBalanceChange as real / LAMPORTS_PER_SOL as real,
      tokenBalanceChange,
      solBalanceChange,
      (tokenBalanceChange * Pow10(tokenDecimals) as real).Floor,
      tokenDecimals));
  }

  /** Stage 1 and 2 of an acceptance: the first create instruction is at
      `createIndex`, the record has metadata with post-token balances, and the
      instruction's fourteen resolved accounts are `accounts`, by position. */
  ghost predicate RolesAt(tx: Transaction, createIndex: int, accounts: CreateAccounts)
    requires WellFormed(tx)
  {
    && IsFirst(tx.instructions, IsCreateInstruction, createIndex)
    && tx.meta.Some? && tx.meta.value.postTokenBalances.Some?
    && var indexes := tx.instructions[createIndex].accountKeyIndexes;
       && |indexes| == CREATE_ACCOUNT_COUNT
       && forall k :: 0 <= k < CREATE_ACCOUNT_COUNT ==> AccountList(accounts)[k] == tx.accountKeys[indexes[k]]
  }

  /** The SOL part of an acceptance: the bonding curve first appears in the key
      table at `bondingCurveIndex`, its balance grew by an amount within the
      bounds, and `e` reports that amount in lamports and in SOL. */
  ghost predicate NativeAt(accountKeys: seq<Pubkey>, meta: TransactionMeta, bondingCurveIndex: int, e: CreateInstruction)
    requires |meta.preBalances| == |accountKeys| && |meta.postBalances| == |accountKeys|
  {
    && IsFirst(accountKeys, IsKey(e.accounts.bondingCurve), bondingCurveIndex)
    && var before := meta.preBalances[bondingCurveIndex];
       var after := meta.postBalances[bondingCurveIndex];
       && before < after
       && MIN_INITIAL_SOL <= after - before <= MAX_INITIAL_SOL
       && e.initialLamportAmount == after - before
       && e.initialSolBalance == e.initialLamportAmount as real / LAMPORTS_PER_SOL as real
  }

  /** The token part of an acceptance: the mint's first post-token entry is at
      `postIndex` with a non-zero amount that exceeds the pre-launch amount by
      `e.initialTokenBalance`, at least one token; `e` carries that entry's
      decimals and the change in smallest units. */
  ghost predicate TokensAt(meta: TransactionMeta, postTokenBalances: seq<TokenBalance>, postIndex: int, e: CreateInstruction)
  {
    && IsFirst(postTokenBalances, HasMint(e.accounts.mint), postIndex)
    && var before := PreTokenAmount(meta.preTokenBalances, e.accounts.mint);
       && postTokenBalances[postIndex].uiAmount == Some(before + e.initialTokenBalance)
       && before + e.initialTokenBalance != 0.0
       && e.initialTokenBalance > 0.0
       && e.initialTokenBalance >= MIN_INITIAL_TOKEN_BALANCE
       && e.tokenDecimals == postTokenBalances[postIndex].decimals
       && e.initialTokenAmount == ScaledAmount(e.initialTokenBalance, e.tokenDecimals)
  }

  /** Declarative description of an accepted transaction and its record. */
  ghost predicate AcceptedAt(tx: Transaction, createIndex: int, bondingCurveIndex: int, postIndex: int, e: CreateInstruction)
    requires WellFormed(tx)
  {
    && RolesAt(tx, createIndex, e.accounts)
    && NativeAt(tx.accountKeys, tx.meta.value, bondingCurveIndex, e)
    && TokensAt(tx.meta.value, tx.meta.value.postTokenBalances.value, postIndex, e)
  }

  lemma TokenChangeAt(meta: TransactionMeta, postTokenBalances: seq<TokenBalance>, e: CreateInstruction)
    ensures (exists postIndex :: TokensAt(meta, postTokenBalances, postIndex, e)) <==>
      && TokenChange(meta.preTokenBalances, postTokenBalances, e.accounts.mint) == Some((e.initialTokenBalance, e.tokenDecimals))
      && e.initialTokenAmount == ScaledAmount(e.initialTokenBalance, e.tokenDecimals)
  {
    var mint := e.accounts.mint;
    var found := FindIndex(postTokenBalances, HasMint(mint));
    if found.Some? {
      var postIndex := found.value;
      TokenChangeFrom(meta, postTokenBalances, postIndex, e);
      FirstIsUnique(postTokenBalances, HasMint(mint));
    } else {
      assert PostTokenAmount(postTokenBalances, mint).None?;
    }
  }

  /** The token stage, once the mint's first post entry is known. */
  lemma TokenChangeFrom(meta: TransactionMeta, postTokenBalances: seq<TokenBalance>, postIndex: int, e: CreateInstruction)
    requires IsFirst(postTokenBalances, HasMint(e.accounts.mint), postIndex)
    ensures TokensAt(meta, postTokenBalances, postIndex, e) <==>
      && TokenChange(meta.preTokenBalances, postTokenBalances, e.accounts.mint) == Some((e.initialTokenBalance, e.tokenDecimals))
      && e.initialTokenAmount == ScaledAmount(e.initialTokenBalance, e.tokenDecimals)
  {
    var mint := e.accounts.mint;
    var entry := postTokenBalances[postIndex];
    var before := PreTokenAmount(meta.preTokenBalances, mint);
    assert TokenDecimals(postTokenBalances, mint) == entry.decimals;
    var after := PostTokenAmount(postTokenBalances, mint);
    assert after.Some? <==> entry.uiAmount.Some? && entry.uiAmount.value != 0.0;
    assert after.Some? ==> entry.uiAmount == after;
  }

  lemma ValidateBalancesAt(accountKeys: seq<Pubkey>, meta: TransactionMeta, postTokenBalances: seq<TokenBalance>,
                           e: CreateInstruction)
    requires |meta.preBalances| == |accountKeys| && |meta.postBalances| == |accountKeys|
    ensures ValidateBalances(accountKeys, meta, postTokenBalances, e.accounts) == Some(e) <==>
      exists bondingCurveIndex, postIndex ::
        NativeAt(accountKeys, meta, bondingCurveIndex, e) && TokensAt(meta, postTokenBalances, postIndex, e)
  {
    TokenChangeAt(meta, postTokenBalances, e);
    match KeyPosition(accountKeys, e.accounts.bondingCurve)
    case None =>
    case Some(bondingCurveIndex) =>
      FirstIsUnique(accountKeys, IsKey(e.accounts.bondingCurve));
      if ValidateBalances(accountKeys, meta, postTokenBalances, e.accounts) == Some(e) {
        assert NativeAt(accountKeys, meta, bondingCurveIndex, e);
      }
  }

  /** The role stage, once the create instruction is located and the
      metadata is known to be present. */
  lemma ParseLocated(tx: Transaction, createIndex: int, e: CreateInstruction)
    requires WellFormed(tx)
    requires IsFirst(tx.instructions, IsCreateInstruction, createIndex)
    requires tx.meta.Some? && tx.meta.value.postTokenBalances.Some?
    ensures ParseInstructions(tx) == Some(e) <==>
      && RolesAt(tx, createIndex, e.accounts)
      && ValidateBalances(tx.accountKeys, tx.meta.value, tx.meta.value.postTokenBalances.value, e.accounts) == Some(e)
  {
    FindIndexIsFirst(tx.instructions, IsCreateInstruction, createIndex);
    var meta := tx.meta.value;
    var inputAccounts := ResolveAccounts(tx.accountKeys, tx.instructions[createIndex].accountKeyIndexes);
    if RolesAt(tx, createIndex, e.accounts) {
      assert AccountList(e.accounts) == inputAccounts;
      AccountsRoundTrip(e.accounts);
    }
    if ParseInstructions(tx) == Some(e) {
      var accounts := AccountsOf(inputAccounts).value;
      assert ValidateBalances(tx.accountKeys, meta, meta.postTokenBalances.value, accounts) == Some(e);
      assert e.accounts == accounts;
      assert RolesAt(tx, createIndex, e.accounts);
    }
  }

  /** The pipeline accepts exactly the transactions the gates describe, and
      the record it returns is the described one. */
  lemma ParseInstructionsCharacterized(tx: Transaction, e: CreateInstruction)
    requires WellFormed(tx)
    ensures ParseInstructions(tx) == Some(e) <==>
      exists createIndex, bondingCurveIndex, postIndex :: AcceptedAt(tx, createIndex, bondingCurveIndex, postIndex, e)
  {
    var located := LocateCreateInstruction(tx.instructions);
    FirstIsUnique(tx.instructions, IsCreateInstruction);
    if located.Some? && tx.meta.Some? && tx.meta.value.postTokenBalances.Some? {
      var createIndex := located.value;
      var meta := tx.meta.value;
      ParseLocated(tx, createIndex, e);
      ValidateBalancesAt(tx.accountKeys, meta, meta.postTokenBalances.value, e);
      if ParseInstructions(tx) == Some(e) {
        var bondingCurveIndex, postIndex :|
          NativeAt(tx.accountKeys, meta, bondingCurveIndex, e) && TokensAt(meta, meta.postTokenBalances.value, postIndex, e);
        assert AcceptedAt(tx, createIndex, bondingCurveIndex, postIndex, e);
      }
    }
  }

  /** No create instruction: no record. */
  lemma NoCreateInstructionRejects(tx: Transaction)
    requires WellFormed(tx)
    requires forall j :: 0 <= j < |tx.instructions| ==> !IsCreateInstruction(tx.instructions[j])
    ensures ParseInstructions(tx) == None
  {
  }

  /** Missing metadata, or metadata without post-token balances: no record,
      whenever a create instruction was found. */
  lemma MissingMetaRejects(tx: Transaction)
    requires WellFormed(tx)
    requires tx.meta.None? || tx.meta.value.postTokenBalances.None?
    ensures ParseInstructions(tx) == None
  {
  }

  /** A first create instruction whose account list does not have exactly
      fourteen entries: no record. */
  lemma AccountCountRejects(tx: Transaction, createIndex: int)
    requires WellFormed(tx)
    requires IsFirst(tx.instructions, IsCreateInstruction, createIndex)
    requires |tx.instructions[createIndex].accountKeyIndexes| != CREATE_ACCOUNT_COUNT
    ensures ParseInstructions(tx) == None
  {
    FindIndexIsFirst(tx.instructions, IsCreateInstruction, createIndex);
  }

  /** The bonding curve's key-table lookup cannot fail: the key was read from
      that table, so its first position is at or before the index the
      instruction names. */
  lemma BondingCurveAlwaysFound(tx: Transaction, createIndex: int)
    requires WellFormed(tx)
    requires IsFirst(tx.instructions, IsCreateInstruction, createIndex)
    requires |tx.instructions[createIndex].accountKeyIndexes| == CREATE_ACCOUNT_COUNT
    ensures var index := tx.instructions[createIndex].accountKeyIndexes[2];
      && KeyPosition(tx.accountKeys, tx.accountKeys[index]).Some?
      && KeyPosition(tx.accountKeys, tx.accountKeys[index]).value <= index
  {
    var index := tx.instructions[createIndex].accountKeyIndexes[2];
    var p := IsKey(tx.accountKeys[index]);
    assert p(tx.accountKeys[index]);
  }

  /** A SOL delta at the bonding curve's position that is not an increase
      within the bounds: no record, whatever the token balances say. */
  lemma NativeOutOfBoundsRejects(tx: Transaction, createIndex: int, bondingCurveIndex: int)
    requires WellFormed(tx)
    requires IsFirst(tx.instructions, IsCreateInstruction, createIndex)
    requires tx.meta.Some?
    requires |tx.instructions[createIndex].accountKeyIndexes| == CREATE_ACCOUNT_COUNT
    requires IsFirst(tx.accountKeys, IsKey(tx.accountKeys[tx.instructions[createIndex].accountKeyIndexes[2]]), bondingCurveIndex)
    requires var before := tx.meta.value.preBalances[bondingCurveIndex];
      var after := tx.meta.value.postBalances[bondingCurveIndex];
      !(before < after && MIN_INITIAL_SOL <= after - before <= MAX_INITIAL_SOL)
    ensures ParseInstructions(tx) == None
  {
    if ParseInstructions(tx).Some? {
      var e := ParseInstructions(tx).value;
      ParseInstructionsCharacterized(tx, e);
      var c, b, p :| AcceptedAt(tx, c, b, p, e);
      FirstIsUnique(tx.instructions, IsCreateInstruction);
      FirstIsUnique(tx.accountKeys, IsKey(e.accounts.bondingCurve));
    }
  }

  /** No post-token entry for the mint, or a first entry whose amount is null
      or zero: no record, whatever the SOL delta is. */
  lemma MissingPostAmountRejects(tx: Transaction, createIndex: int)
    requires WellFormed(tx)
    requires IsFirst(tx.instructions, IsCreateInstruction, createIndex)
    requires tx.meta.Some? && tx.meta.value.postTokenBalances.Some?
    requires |tx.instructions[createIndex].accountKeyIndexes| == CREATE_ACCOUNT_COUNT
    requires var post := tx.meta.value.postTokenBalances.value;
      var mint := tx.accountKeys[tx.instructions[createIndex].accountKeyIndexes[0]];
      forall j :: 0 <= j < |post| && post[j].mint == mint ==>
        (exists i :: 0 <= i < j && post[i].mint == mint) || post[j].uiAmount.None? || post[j].uiAmount == Some(0.0)
    ensures ParseInstructions(tx) == None
  {
    if ParseInstructions(tx).Some? {
      var e := ParseInstructions(tx).value;
      ParseInstructionsCharacterized(tx, e);
      var c, b, p :| AcceptedAt(tx, c, b, p, e);
      FirstIsUnique(tx.instructions, IsCreateInstruction);
      assert AccountList(e.accounts)[0] == e.accounts.mint;
      var post := tx.meta.value.postTokenBalances.value;
      assert post[p].mint == e.accounts.mint;
    }
  }

  /** Every record satisfies the launch invariant: SOL within the bounds, at
      least one whole token, and the smallest-unit amount is the display
      change scaled by `10^decimals` and floored, hence positive. */
  lemma AcceptedRecordInvariant(tx: Transaction, e: CreateInstruction)
    requires WellFormed(tx)
    requires ParseInstructions(tx) == Some(e)
    ensures MIN_INITIAL_SOL <= e.initialLamportAmount <= MAX_INITIAL_SOL
    ensures e.initialSolBalance == e.initialLamportAmount as real / LAMPORTS_PER_SOL as real
    ensures e.initialTokenBalance >= MIN_INITIAL_TOKEN_BALANCE
    ensures e.initialTokenAmount == ScaledAmount(e.initialTokenBalance, e.tokenDecimals)
    ensures e.initialTokenAmount >= Pow10(e.tokenDecimals) >= 1
  {
    ParseInstructionsCharacterized(tx, e);
    var c, b, p :| AcceptedAt(tx, c, b, p, e);
    NativeAtBounds(tx.accountKeys, tx.meta.value, b, e);
    TokensAtBounds(tx.meta.value, tx.meta.value.postTokenBalances.value, p, e);
  }

  lemma NativeAtBounds(accountKeys: seq<Pubkey>, meta: TransactionMeta, bondingCurveIndex: int, e: CreateInstruction)
    requires |meta.preBalances| == |accountKeys| && |meta.postBalances| == |accountKeys|
    requires NativeAt(accountKeys, meta, bondingCurveIndex, e)
    ensures MIN_INITIAL_SOL <= e.initialLamportAmount <= MAX_INITIAL_SOL
    ensures e.initialSolBalance == e.initialLamportAmount as real / LAMPORTS_PER_SOL as real
  {
  }

  lemma TokensAtBounds(meta: TransactionMeta, postTokenBalances: seq<TokenBalance>, postIndex: int, e: CreateInstruction)
    requires TokensAt(meta, postTokenBalances, postIndex, e)
    ensures e.initialTokenBalance >= MIN_INITIAL_TOKEN_BALANCE
    ensures e.initialTokenAmount == ScaledAmount(e.initialTokenBalance, e.tokenDecimals)
    ensures e.initialTokenAmount >= Pow10(e.tokenDecimals) >= 1
  {
    assert MIN_INITIAL_TOKEN_BALANCE == 1.0;
    ScaledAmountAtLeastOneToken(e.initialTokenBalance, e.tokenDecimals);
  }

  /** The account roles of a record are the create instruction's accounts at
      their fixed positions. */
  lemma AcceptedRecordRoles(tx: Transaction, e: CreateInstruction)
    requires WellFormed(tx)
    requires ParseInstructions(tx) == Some(e)
    ensures exists createIndex :: RolesAt(tx, createIndex, e.accounts)
  {
    ParseInstructionsCharacterized(tx, e);
    var c, b, p :| AcceptedAt(tx, c, b, p, e);
  }
}
