/** The account role resolver: the create instruction's fourteen accounts, by
    their fixed positions in its account list. */
module Roles {
  import opened Wrappers
  import opened Ledger

  /** The number of accounts the create instruction takes. */
  const CREATE_ACCOUNT_COUNT: nat := 14

  datatype CreateAccounts = CreateAccounts(
    mint: Pubkey,
    mintAuthority: Pubkey,
    bondingCurve: Pubkey,
    associatedBondingCurve: Pubkey,
    global: Pubkey,
    mplTokenMetadata: Pubkey,
    metadata: Pubkey,
    user: Pubkey,
    systemProgram: Pubkey,
    tokenProgram: Pubkey,
    associatedTokenProgram: Pubkey,
    rent: Pubkey,
    eventAuthority: Pubkey,
    program: Pubkey)

  /** The roles in account-list order: `mint` is position 0, `program` position 13. */
  function AccountList(accounts: CreateAccounts): (r: seq<Pubkey>)
    ensures |r| == CREATE_ACCOUNT_COUNT
  {
    [ accounts.mint, accounts.mintAuthority, accounts.bondingCurve, accounts.associatedBondingCurve,
      accounts.global, accounts.mplTokenMetadata, accounts.metadata, accounts.user,
      accounts.systemProgram, accounts.tokenProgram, accounts.associatedTokenProgram, accounts.rent,
      accounts.eventAuthority, accounts.program ]
  }

  /** The instruction's account indexes mapped through the key table. */
  function ResolveAccounts(accountKeys: seq<Pubkey>, indexes: seq<nat>): (r: seq<Pubkey>)
    requires forall k :: 0 <= k < |indexes| ==> indexes[k] < |accountKeys|
    ensures |r| == |indexes|
    ensures forall k :: 0 <= k < |indexes| ==> r[k] == accountKeys[indexes[k]]
  {
    if |indexes| == 0 then []
    else [accountKeys[indexes[0]]] + ResolveAccounts(accountKeys, indexes[1..])
  }

  /** The positional schema: exactly fourteen accounts, named by position;
      any other count is rejected. */
  function AccountsOf(inputAccounts: seq<Pubkey>): (r: Option<CreateAccounts>)
    ensures r.Some? <==> |inputAccounts| == CREATE_ACCOUNT_COUNT
    ensures r.Some? ==> AccountList(r.value) == inputAccounts
  {
    if |inputAccounts| != CREATE_ACCOUNT_COUNT then None
    else
      Some(CreateAccounts(
        inputAccounts[0], inputAccounts[1], inputAccounts[2], inputAccounts[3],
        inputAccounts[4], inputAccounts[5], inputAccounts[6], inputAccounts[7],
        inputAccounts[8], inputAccounts[9], inputAccounts[10], inputAccounts[11],
        inputAccounts[12], inputAccounts[13]))
  }

  /** Naming the roles and listing them again gives back the same roles. */
  lemma AccountsRoundTrip(accounts: CreateAccounts)
    ensures AccountsOf(AccountList(accounts)) == Some(accounts)
  {
  }
}
