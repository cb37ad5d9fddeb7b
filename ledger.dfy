/**
  The token side of the marketplace: the balances the ERC-20 contracts keep,
  and how a transfer changes them.
 */
module TokenLedger {
  import opened MarketTypes

  /** Balance of `holder` in the token at address `token`, keyed (token, holder). */
  type Balances = map<(Address, Address), nat>

  function BalanceIn(b: Balances, token: Address, holder: Address): nat {
    if (token, holder) in b then b[(token, holder)] else 0
  }

  /**
    A transfer reverts when there is no token contract (the zero address)
    or when the sender holds too little.
   */
  predicate CanTransfer(b: Balances, token: Address, from: Address, amount: nat) {
    token != ZeroAddress && amount <= BalanceIn(b, token, from)
  }

  /**
    `after` is `before` with `amount` of `token` moved from `from` to `to`,
    every other balance of every token as it was.
   */
  ghost predicate Transferred(before: Balances, after: Balances, token: Address, from: Address, to: Address, amount: nat) {
    && (from != to ==> BalanceIn(after, token, from) + amount == BalanceIn(before, token, from))
    && (from != to ==> BalanceIn(after, token, to) == BalanceIn(before, token, to) + amount)
    && (from == to ==> BalanceIn(after, token, from) == BalanceIn(before, token, from))
    && forall t, h :: (t != token || (h != from && h != to)) ==> BalanceIn(after, t, h) == BalanceIn(before, t, h)
  }

  /** The balances after `amount` of `token` moved from `from` to `to`. */
  function Moved(b: Balances, token: Address, from: Address, to: Address, amount: nat): (r: Balances)
    requires amount <= BalanceIn(b, token, from)
    ensures Transferred(b, r, token, from, to, amount)
  {
    var b1 := b[(token, from) := BalanceIn(b, token, from) - amount];
    b1[(token, to) := BalanceIn(b1, token, to) + amount]
  }
}

/**
  The engine's accounting: how much of a token the open sales hold in escrow.
  The TVL counter of the contract must always equal this sum.
 */
module EscrowSum {
  import opened MarketTypes

  type SaleTable = map<nat, Sale>

  /** The TVL counter of a token; a token never escrowed reads as 0. */
  function TvlIn(tvl: map<Address, nat>, token: Address): nat {
    if token in tvl then tvl[token] else 0
  }

  /** `after` is `before` with the counter of `token` moved by `delta`, the others as they were. */
  ghost predicate Adjusted(before: map<Address, nat>, after: map<Address, nat>, token: Address, delta: int) {
    && TvlIn(after, token) == TvlIn(before, token) + delta
    && forall t :: t != token ==> TvlIn(after, t) == TvlIn(before, t)
  }

  /** A sale table read the way the contract reads it: a missing id is the zero record. */
  function SaleAt(sales: SaleTable, id: nat): Sale {
    if id in sales then sales[id] else EmptySale
  }

  /** What one sale contributes to the escrow of `token`. */
  function Share(s: Sale, token: Address): nat {
    if s.token == token && Escrowed(s.status) then s.price else 0
  }

  /** Sum of the escrowed prices of `token` over the sale ids below `n`. */
  function Locked(sales: SaleTable, token: Address, n: nat): nat
    decreases n
  {
    if n == 0 then 0 else Locked(sales, token, n - 1) + Share(SaleAt(sales, n - 1), token)
  }

  /** Writing a sale at an id that is not yet counted leaves the sum alone. */
  lemma {:induction false} LockedBeyond(sales: SaleTable, token: Address, n: nat, k: nat, s: Sale)
    requires n <= k
    ensures Locked(sales[k := s], token, n) == Locked(sales, token, n)
  {
    if n > 0 {
      LockedBeyond(sales, token, n - 1, k, s);
      assert SaleAt(sales[k := s], n - 1) == SaleAt(sales, n - 1);
    }
  }

  /** Replacing one counted sale swaps its share for the new sale's share. */
  lemma {:induction false} LockedUpdate(sales: SaleTable, token: Address, n: nat, k: nat, s: Sale)
    requires k < n
    ensures Locked(sales[k := s], token, n) + Share(SaleAt(sales, k), token)
         == Locked(sales, token, n) + Share(s, token)
  {
    if k == n - 1 {
      LockedBeyond(sales, token, n - 1, k, s);
    } else {
      LockedUpdate(sales, token, n - 1, k, s);
      assert SaleAt(sales[k := s], n - 1) == SaleAt(sales, n - 1);
    }
  }

  /**
    When one counted sale is rewritten (its token kept) and the TVL of that token
    moves by the change in its share, the TVL still equals the escrow sum for
    every token.
   */
  lemma BooksAfterRewrite(tvl0: map<Address, nat>, tvl1: map<Address, nat>, sales: SaleTable, n: nat, k: nat, s: Sale)
    requires k < n && s.token == SaleAt(sales, k).token
    requires forall t :: TvlIn(tvl0, t) == Locked(sales, t, n)
    requires Adjusted(tvl0, tvl1, s.token, Share(s, s.token) - Share(SaleAt(sales, k), s.token))
    ensures forall t :: TvlIn(tvl1, t) == Locked(sales[k := s], t, n)
  {
    forall t ensures TvlIn(tvl1, t) == Locked(sales[k := s], t, n) {
      LockedUpdate(sales, t, n, k, s);
    }
  }

  /** No single sale's escrow exceeds the total escrow of its token. */
  lemma {:induction false} ShareWithinLocked(sales: SaleTable, token: Address, n: nat, k: nat)
    requires k < n
    ensures Share(SaleAt(sales, k), token) <= Locked(sales, token, n)
  {
    if k < n - 1 {
      ShareWithinLocked(sales, token, n - 1, k);
    }
  }
}
