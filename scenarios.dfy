/**
  Client code that runs the marketplace through its documented flows, using
  nothing but the operations' contracts. Each method names the flow it follows;
  the first three build the common starting points.
 */
module Scenarios {
  import opened MarketTypes
  import opened TokenLedger
  import opened Marketplace

  const Engine: Address := 1
  const Resolver: Address := 2
  const Seller: Address := 3
  const Buyer: Address := 4
  const Stranger: Address := 5
  const Token: Address := 10
  const Item: string := "LorepIpsu"

  /** A deployed marketplace with sale 0 listed at `price`; the buyer owns `price` of the token. */
  method Listed(price: nat) returns (m: ItemMarketplace)
    requires price > 0
    ensures fresh(m) && m.Valid()
    ensures m.engine == Engine && m.resolvers == {Resolver} && m.admins == {Resolver}
    ensures m.SaleOf(0) == Sale(Seller, price, Token, Active, Item, ZeroAddress)
    ensures m.TvlOf(Token) == 0 && m.DisputeReasonOf(0) == ""
    ensures m.BalanceOf(Token, Buyer) == price
    ensures m.BalanceOf(Token, Seller) == 0 && m.BalanceOf(Token, Engine) == 0
    ensures m.BalanceOf(Token, Resolver) == 0
  {
    m := new ItemMarketplace(Engine, Resolver, map[(Token, Buyer) := price]);
    var r, id := m.CreateSale(Seller, price, Token, Item);
    assert r == Ok && id == 0;
  }

  /** Sale 0 bought: the price sits in escrow. */
  method Paid(price: nat) returns (m: ItemMarketplace)
    requires price > 0
    ensures fresh(m) && m.Valid()
    ensures m.engine == Engine && m.resolvers == {Resolver} && m.admins == {Resolver}
    ensures m.SaleOf(0) == Sale(Seller, price, Token, Payed, Item, Buyer)
    ensures m.TvlOf(Token) == price && m.DisputeReasonOf(0) == ""
    ensures m.BalanceOf(Token, Engine) == price
    ensures m.BalanceOf(Token, Buyer) == 0 && m.BalanceOf(Token, Seller) == 0
    ensures m.BalanceOf(Token, Resolver) == 0
  {
    m := Listed(price);
    var r := m.BuyItemOnSale(Buyer, 0);
    assert r == Ok;
  }

  /** Sale 0 bought and shipped. */
  method Shipped(price: nat) returns (m: ItemMarketplace)
    requires price > 0
    ensures fresh(m) && m.Valid()
    ensures m.engine == Engine && m.resolvers == {Resolver} && m.admins == {Resolver}
    ensures m.SaleOf(0) == Sale(Seller, price, Token, Send, Item, Buyer)
    ensures m.TvlOf(Token) == price && m.DisputeReasonOf(0) == ""
    ensures m.BalanceOf(Token, Engine) == price
    ensures m.BalanceOf(Token, Buyer) == 0 && m.BalanceOf(Token, Seller) == 0
  {
    m := Paid(price);
    var r := m.ConfirmSendingItem(Stranger, 0);
    assert r == Err(NotSeller);
    r := m.ConfirmSendingItem(Seller, 0);
    assert r == Ok;
  }

  /** createSale with price 0 reverts with E#6 and slot 0 still reads as the zero record. */
  method CreateSaleWithZeroPrice() {
    var m := new ItemMarketplace(Engine, Resolver, map[]);
    var r, id := m.CreateSale(Seller, 0, Token, Item);
    assert r == Err(ZeroPrice) && RevertReason(r.error) == "E#6";
    assert id == 0 && m.SaleOf(0) == EmptySale;
  }

  /** Buying moves the price from the buyer into escrow and raises TVL by it. */
  method BuyRaisesTvl(price: nat)
    requires price > 0
  {
    var m := Listed(price);
    var r := m.ConfirmSendingItem(Seller, 0);
    assert r == Err(NotPayed) && RevertReason(r.error) == "E#3";
    r := m.BuyItemOnSale(Buyer, 0);
    assert r == Ok && m.SaleOf(0).status == Payed && m.SaleOf(0).buyer == Buyer;
    assert m.TvlOf(Token) == price && m.BalanceOf(Token, Engine) == price;
    assert m.BalanceOf(Token, Buyer) == 0;
  }

  /** Receipt cannot be confirmed before the item is shipped; nothing moves. */
  method ConfirmReceiptBeforeShipping(price: nat)
    requires price > 0
  {
    var m := Paid(price);
    var r := m.ConfirmReceivingItem(Buyer, 0);
    assert r == Err(NotSend) && RevertReason(r.error) == "E#5";
    assert m.BalanceOf(Token, Engine) == price && m.TvlOf(Token) == price;
    assert m.BalanceOf(Token, Seller) == 0;
  }

  /** Receipt may be confirmed only by the buyer; then the seller is paid. */
  method ConfirmReceiptPaysSeller(price: nat)
    requires price > 0
  {
    var m := Shipped(price);
    var r := m.ConfirmReceivingItem(Stranger, 0);
    assert r == Err(NotBuyer) && m.SaleOf(0).status == Send;
    r := m.ConfirmReceivingItem(Buyer, 0);
    assert r == Ok && m.SaleOf(0).status == Received;
    assert m.BalanceOf(Token, Seller) == price;
    assert m.BalanceOf(Token, Engine) == 0 && m.TvlOf(Token) == 0;

    r := m.ReportProblem(Buyer, 0, "Problem description");
    assert r == Err(NotSend) && m.DisputeReasonOf(0) == "";
  }

  /** Only a party may open a dispute; it stores the reason and moves no funds. */
  method ReportOpensDispute(price: nat)
    requires price > 0
  {
    var m := Shipped(price);
    var r := m.ReportProblem(Stranger, 0, "Problem description");
    assert r == Err(NotSellerOrBuyer) && m.DisputeReasonOf(0) == "";
    r := m.ResolveDispute(Resolver, 0, true);
    assert r == Err(NotDisputeUnresolved) && RevertReason(r.error) == "E#7";
    r := m.ReportProblem(Seller, 0, "Problem description");
    assert r == Ok && m.SaleOf(0).status == DisputeUnresolved;
    assert m.DisputeReasonOf(0) == "Problem description";
    assert m.BalanceOf(Token, Engine) == price && m.BalanceOf(Token, Seller) == 0;
  }

  /** Before shipping, a dispute is refused with E#5 even from an account that is not yet a party. */
  method ReportBeforeShipping(price: nat)
    requires price > 0
  {
    var m := Listed(price);
    var r := m.ReportProblem(Buyer, 0, "Problem description");
    assert r == Err(NotSend) && RevertReason(r.error) == "E#5";
    assert m.SaleOf(0).status == Active && m.DisputeReasonOf(0) == "";
    assert m.BalanceOf(Token, Seller) == 0 && m.BalanceOf(Token, Engine) == 0;
  }

  /** On a cancelled sale, a dispute is refused with E#5. */
  method ReportOnCancelledSale(price: nat)
    requires price > 0
  {
    var m := Listed(price);
    var r := m.CancelSale(Seller, 0);
    assert r == Ok;
    r := m.ReportProblem(Buyer, 0, "Problem description");
    assert r == Err(NotSend) && RevertReason(r.error) == "E#5";
    assert m.SaleOf(0).status == Cancelled && m.DisputeReasonOf(0) == "";
    assert m.BalanceOf(Token, Seller) == 0 && m.BalanceOf(Token, Engine) == 0;
  }

  /** While paid for but not shipped, a dispute is refused with E#5 and the escrow stays. */
  method ReportWhilePaid(price: nat)
    requires price > 0
  {
    var m := Paid(price);
    var r := m.ReportProblem(Buyer, 0, "Problem description");
    assert r == Err(NotSend) && RevertReason(r.error) == "E#5";
    assert m.StatusIdOf(0) == 1 && m.DisputeReasonOf(0) == "";
    assert m.BalanceOf(Token, Seller) == 0 && m.BalanceOf(Token, Engine) == price;
  }

  /** A dispute settled for the buyer refunds the buyer in full and empties the escrow. */
  method DisputeSettledForBuyer(price: nat)
    requires price > 0
  {
    var m := Shipped(price);
    var r := m.ReportProblem(Buyer, 0, "Problem description");
    assert r == Ok;
    r := m.ResolveDispute(Stranger, 0, true);
    assert r == Err(MissingRole) && m.SaleOf(0).status == DisputeUnresolved;
    assert m.BalanceOf(Token, Engine) == price && m.TvlOf(Token) == price;
    r := m.ResolveDispute(Resolver, 0, true);
    assert r == Ok && m.SaleOf(0).status == DisputeResolvedBuyer;
    assert m.BalanceOf(Token, Buyer) == price && m.BalanceOf(Token, Seller) == 0;
    assert m.BalanceOf(Token, Engine) == 0 && m.TvlOf(Token) == 0;
    r := m.ReportProblem(Buyer, 0, "Problem description");
    assert r == Err(NotSend);
  }

  /** A dispute settled for the seller pays the seller in full and empties the escrow. */
  method DisputeSettledForSeller(price: nat)
    requires price > 0
  {
    var m := Shipped(price);
    var r := m.ReportProblem(Buyer, 0, "Problem description");
    assert r == Ok;
    r := m.ResolveDispute(Resolver, 0, false);
    assert r == Ok && m.StatusIdOf(0) == 6;
    assert m.BalanceOf(Token, Seller) == price && m.BalanceOf(Token, Buyer) == 0;
    assert m.BalanceOf(Token, Engine) == 0 && m.TvlOf(Token) == 0;
    r := m.ReportProblem(Buyer, 0, "Problem description");
    assert r == Err(NotSend) && m.StatusIdOf(0) == 6;
  }

  /** Only the seller reprices or cancels, and only to a positive price. */
  method OnlySellerReprices(price: nat)
    requires price > 0
  {
    var m := Listed(price);
    var r := m.CancelSale(Stranger, 0);
    assert r == Err(NotSeller) && m.SaleOf(0).status == Active;
    r := m.ModifySalePrice(Seller, 0, 0);
    assert r == Err(ZeroPrice) && m.SaleOf(0).price == price;
    r := m.ModifySalePrice(Stranger, 0, price + 1);
    assert r == Err(NotSeller) && m.SaleOf(0).price == price;
    r := m.ModifySalePrice(Seller, 0, price + 1);
    assert r == Ok && m.SaleOf(0).price == price + 1;
  }

  /** A cancelled sale can be neither cancelled again, repriced, bought nor resolved; nothing moves. */
  method CancelledSaleIsFinal(price: nat)
    requires price > 0
  {
    var m := Listed(price);
    var r := m.CancelSale(Seller, 0);
    assert r == Ok && m.SaleOf(0).status == Cancelled;
    r := m.CancelSale(Seller, 0);
    assert r == Err(NotActive) && RevertReason(r.error) == "E#2";
    r := m.ModifySalePrice(Seller, 0, price + 1);
    assert r == Err(NotActive) && m.SaleOf(0).price == price;
    r := m.BuyItemOnSale(Buyer, 0);
    assert r == Err(NotActive) && m.SaleOf(0).buyer == ZeroAddress;
    assert m.BalanceOf(Token, Buyer) == price && m.BalanceOf(Token, Engine) == 0;
    assert m.TvlOf(Token) == 0;
    r := m.ResolveDispute(Resolver, 0, true);
    assert r == Err(NotDisputeUnresolved);
  }

  /** A cancelled sale cannot be shipped: E#3, and it stays cancelled. */
  method CancelledSaleIsNotShipped(price: nat)
    requires price > 0
  {
    var m := Listed(price);
    var r := m.CancelSale(Seller, 0);
    assert r == Ok;
    r := m.ConfirmSendingItem(Seller, 0);
    assert r == Err(NotPayed) && RevertReason(r.error) == "E#3";
    assert m.StatusIdOf(0) == 4;
  }

  /** A resolver cannot settle a sale that is listed or paid for but not in dispute (E#7). */
  method ResolveBeforeDispute(price: nat)
    requires price > 0
  {
    var m := Listed(price);
    var r := m.ResolveDispute(Resolver, 0, true);
    assert r == Err(NotDisputeUnresolved) && RevertReason(r.error) == "E#7";
    assert m.StatusIdOf(0) == 0;
    r := m.BuyItemOnSale(Buyer, 0);
    assert r == Ok;
    r := m.ResolveDispute(Resolver, 0, true);
    assert r == Err(NotDisputeUnresolved) && m.StatusIdOf(0) == 1;
    assert m.BalanceOf(Token, Engine) == price && m.TvlOf(Token) == price;
  }

  /** Once receipt is confirmed, a resolver cannot reopen the payout (E#7). */
  method ResolveAfterReceipt(price: nat)
    requires price > 0
  {
    var m := Shipped(price);
    var r := m.ConfirmReceivingItem(Buyer, 0);
    assert r == Ok;
    r := m.ResolveDispute(Resolver, 0, true);
    assert r == Err(NotDisputeUnresolved) && m.StatusIdOf(0) == 3;
    assert m.BalanceOf(Token, Seller) == price && m.BalanceOf(Token, Buyer) == 0;
    assert m.BalanceOf(Token, Engine) == 0 && m.TvlOf(Token) == 0;
  }

  /** Stray tokens sent to the engine are reclaimed by the admin once, and only once. */
  method WithdrawStrayTokens(price: nat)
    requires price > 0
  {
    var m := Paid(price);
    var r := m.WithdrawRedundantTokens(Resolver, Token);
    assert r == Err(NoRedundantFunds) && RevertReason(r.error) == "E#10";

    var ok := m.TokenTransfer(Buyer, Engine, Token, price);
    assert !ok;
    assert m.BalanceOf(Token, Engine) == price && m.TvlOf(Token) == price;

    r := m.WithdrawRedundantTokens(Stranger, Token);
    assert r == Err(MissingRole);
    r := m.WithdrawRedundantTokens(Resolver, ZeroAddress);
    assert r == Err(TransferFailed);
  }

  /** Sale 0 paid for, and then `stray` more of the token sent straight to the engine. */
  method StrayDeposited(price: nat, stray: nat) returns (m: ItemMarketplace)
    requires price > 0 && stray > 0
    ensures fresh(m) && m.Valid()
    ensures m.engine == Engine && m.admins == {Resolver}
    ensures m.TvlOf(Token) == price && m.BalanceOf(Token, Engine) == price + stray
    ensures m.Redundant(Token) == stray && m.BalanceOf(Token, Resolver) == 0
  {
    m := new ItemMarketplace(Engine, Resolver, map[(Token, Buyer) := price, (Token, Stranger) := stray]);
    var r, id := m.CreateSale(Seller, price, Token, Item);
    r := m.BuyItemOnSale(Buyer, 0);
    assert r == Ok;
    var ok := m.TokenTransfer(Stranger, Engine, Token, stray);
    assert ok;
  }

  /** After a stray deposit, the admin takes exactly the stray amount; TVL stays. */
  method WithdrawTakesExactlyTheStray(price: nat, stray: nat)
    requires price > 0 && stray > 0
  {
    var m := StrayDeposited(price, stray);
    var r := m.WithdrawRedundantTokens(Stranger, Token);
    assert r == Err(MissingRole) && m.BalanceOf(Token, Engine) == price + stray;
    r := m.WithdrawRedundantTokens(Resolver, Token);
    assert r == Ok && m.Redundant(Token) == 0 && m.TvlOf(Token) == price;
    assert m.BalanceOf(Token, Resolver) == stray;
    r := m.WithdrawRedundantTokens(Resolver, Token);
    assert r == Err(NoRedundantFunds);
  }

  /** Native currency sent to the contract is refused with E#9. */
  method NativeTransferIsRefused(value: nat) {
    var m := new ItemMarketplace(Engine, Resolver, map[]);
    var r := m.Receive(Stranger, value);
    assert RevertReason(r.error) == "E#9";
  }
}
