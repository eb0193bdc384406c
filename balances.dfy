/** The balance delta validator: the SOL that entered the bonding curve and the
    tokens that appeared for the new mint, each checked against the configured
    bounds. */
module Balances {
  import opened Wrappers
  import opened Search
  import opened Ledger
  import opened Constants

  /** Matches a key-table entry equal to `key`. */
  function IsKey(key: Pubkey): Pubkey -> bool {
    (k: Pubkey) => k == key
  }

  /** The first key-table position holding `key`. */
  function KeyPosition(accountKeys: seq<Pubkey>, key: Pubkey): Option<nat> {
    FindIndex(accountKeys, IsKey(key))
  }

  /** The bonding-curve search as the monitor writes it: a loop over the key
      table that stops at the first equal key, `-1` when there is none. */
  method FindBondingCurveIndex(accountKeys: seq<Pubkey>, bondingCurve: Pubkey) returns (index: int)
    ensures index == -1 <==> bondingCurve !in accountKeys
    ensures index != -1 ==> IsFirst(accountKeys, IsKey(bondingCurve), index)
    ensures index == match KeyPosition(accountKeys, bondingCurve) case Some(p) => p case None => -1
  {
    index := -1;
    var i := 0;
    while i < |accountKeys|
      invariant 0 <= i <= |accountKeys|
      invariant forall j :: 0 <= j < i ==> accountKeys[j] != bondingCurve
    {
      if accountKeys[i] == bondingCurve {
        index := i;
        break;
      }
      i := i + 1;
    }
    if index != -1 {
      FindIndexIsFirst(accountKeys, IsKey(bondingCurve), index);
    }
  }

  /** The SOL gate: the bonding curve's balance must grow, by at least
      `MIN_INITIAL_SOL` and at most `MAX_INITIAL_SOL` lamports. */
  function NativeDelta(before: nat, after: nat): (r: Option<nat>)
    ensures r.Some? <==> before < after && MIN_INITIAL_SOL <= after - before <= MAX_INITIAL_SOL
    ensures r.Some? ==> r.value == after - before
  {
    if after <= before then None
    else
      var change := after - before;
      if change < MIN_INITIAL_SOL then None
      else if change > MAX_INITIAL_SOL then None
      else Some(change)
  }

  /** Matches a token-balance entry of `mint`. */
  function HasMint(mint: Pubkey): TokenBalance -> bool {
    (b: TokenBalance) => b.mint == mint
  }

  /** The token balance before the launch: the display amount of the first
      `preTokenBalances` entry of the mint, zero when the list or the entry is
      absent or its amount is null or zero. */
  function PreTokenAmount(preTokenBalances: Option<seq<TokenBalance>>, mint: Pubkey): (r: real)
    ensures preTokenBalances.None? ==> r == 0.0
    ensures preTokenBalances.Some? && (forall j :: 0 <= j < |preTokenBalances.value| ==> preTokenBalances.value[j].mint != mint)
      ==> r == 0.0
    ensures forall i :: preTokenBalances.Some? && IsFirst(preTokenBalances.value, HasMint(mint), i) ==>
      r == preTokenBalances.value[i].uiAmount.GetOr(0.0)
  {
    if preTokenBalances.None? then 0.0
    else
      match Find(preTokenBalances.value, HasMint(mint))
      case None => 0.0
      case Some(entry) =>
        match entry.uiAmount
        case Some(amount) => if amount != 0.0 then amount else 0.0
        case None => 0.0
  }

  /** The token balance after the launch: the display amount of the first
      `postTokenBalances` entry of the mint; absent when there is no entry or
      its amount is null or zero. */
  function PostTokenAmount(postTokenBalances: seq<TokenBalance>, mint: Pubkey): (r: Option<real>)
    ensures (forall j :: 0 <= j < |postTokenBalances| ==> postTokenBalances[j].mint != mint) ==> r.None?
    ensures forall i :: IsFirst(postTokenBalances, HasMint(mint), i) ==>
      (r.Some? <==> postTokenBalances[i].uiAmount.Some? && postTokenBalances[i].uiAmount.value != 0.0) &&
      (r.Some? ==> postTokenBalances[i].uiAmount == r)
  {
    match Find(postTokenBalances, HasMint(mint))
    case None => None
    case Some(entry) =>
      match entry.uiAmount
      case Some(amount) => if amount != 0.0 then Some(amount) else None
      case None => None
  }

  /** The mint's decimals: those of its first `postTokenBalances` entry, zero
      when there is none. */
  function TokenDecimals(postTokenBalances: seq<TokenBalance>, mint: Pubkey): (r: nat)
    ensures (forall j :: 0 <= j < |postTokenBalances| ==> postTokenBalances[j].mint != mint) ==> r == 0
    ensures forall i :: IsFirst(postTokenBalances, HasMint(mint), i) ==> r == postTokenBalances[i].decimals
  {
    match Find(postTokenBalances, HasMint(mint))
    case None => 0
    case Some(entry) => if entry.decimals != 0 then entry.decimals else 0
  }

  /** The token gate: the display balance must grow, by at least
      `MIN_INITIAL_TOKEN_BALANCE`. */
  function TokenDelta(before: real, after: real): (r: Option<real>)
    ensures r.Some? <==> before < after && after - before >= MIN_INITIAL_TOKEN_BALANCE
    ensures r.Some? ==> r.value == after - before
  {
    if after <= before then None
    else
      var change := after - before;
      if change < MIN_INITIAL_TOKEN_BALANCE then None
      else Some(change)
  }

  function Pow10(n: nat): (r: nat)
    ensures r >= 1
  {
    if n == 0 then 1 else 10 * Pow10(n - 1)
  }

  /** The display amount in smallest units: scaled by `10^decimals` and floored. */
  function ScaledAmount(amount: real, decimals: nat): (r: int)
    ensures r as real <= amount * Pow10(decimals) as real < r as real + 1.0
  {
    (amount * Pow10(decimals) as real).Floor
  }

  /** Scaling a display amount that is a whole number of smallest units gives
      that number back. */
  lemma ScaledAmountRoundTrip(units: int, decimals: nat)
    ensures ScaledAmount(units as real / Pow10(decimals) as real, decimals) == units
  {
    var p := Pow10(decimals) as real;
    assert units as real / p * p == units as real;
  }

  /** A change of at least one whole token is at least `10^decimals` smallest units. */
  lemma ScaledAmountAtLeastOneToken(amount: real, decimals: nat)
    requires amount >= 1.0
    ensures ScaledAmount(amount, decimals) >= Pow10(decimals)
  {
    var p := Pow10(decimals) as real;
    assert amount * p >= p;
  }
}
