/**
  The ItemMarketplace contract: a table of sales, a per-token TVL ledger, the
  dispute reasons, and the token balances it moves. Each public operation is a
  method that either commits all of its effects (Ok) or reverts with nothing
  changed (Err).
 */
module Marketplace {
  import opened MarketTypes
  import opened Guards
  import opened TokenLedger
  import opened EscrowSum

  class ItemMarketplace {
    /** The contract's own address, holder of the escrowed tokens. */
    const engine: Address
    /** Holders of the dispute-resolver role. */
    const resolvers: set<Address>
    /** Holders of the admin role. */
    const admins: set<Address>

    /** saleIdToSale: every sale ever created, keyed by its id. */
    var sales: SaleTable
    /** The id the next createSale assigns. */
    var nextSaleId: nat
    /** addressToTvl: per token, the value the engine is accountable for. */
    var tvl: map<Address, nat>
    /** saleIdToDisputeReason: the reason stored when a dispute is opened. */
    var disputeReason: map<nat, string>
    /** The ERC-20 balances of every token contract, keyed (token, holder). */
    var balances: Balances

    /** saleIdToSale: the stored record, or the all-zero record for an id never written. */
    function SaleOf(id: nat): (s: Sale)
      reads this
      ensures id !in sales ==> s == EmptySale
      ensures id in sales ==> s == sales[id]
    {
      SaleAt(sales, id)
    }

    /** The status id 0-7 that saleIdToSale returns in the record's fourth field. */
    function StatusIdOf(id: nat): (code: nat)
      reads this
      ensures code < 8
      ensures StatusOfId(code) == Some(SaleOf(id).status)
      ensures id !in sales ==> code == 0
    {
      StatusIdRoundTrip(SaleOf(id).status);
      StatusId(SaleOf(id).status)
    }

    /** addressToTvl: the value locked in `token`; 0 for a token never used. */
    function TvlOf(token: Address): (v: nat)
      reads this
      ensures token !in tvl ==> v == 0
    {
      TvlIn(tvl, token)
    }

    /** saleIdToDisputeReason: the reason stored for `id`, or "" when none was stored. */
    function DisputeReasonOf(id: nat): (reason: string)
      reads this
      ensures id !in disputeReason ==> reason == ""
      ensures id in disputeReason ==> reason == disputeReason[id]
    {
      if id in disputeReason then disputeReason[id] else ""
    }

    function BalanceOf(token: Address, holder: Address): nat
      reads this
    {
      BalanceIn(balances, token, holder)
    }

    /** An account that can send a transaction: not the zero address, not the contract itself. */
    predicate External(a: Address) {
      a != ZeroAddress && a != engine
    }

    /** What every stored sale satisfies. */
    ghost predicate WellFormed(s: Sale) {
      && s.price > 0
      && External(s.seller)
      && (HasBuyer(s.status) <==> s.buyer != ZeroAddress)
      && (HasBuyer(s.status) ==> External(s.buyer))
      && (Escrowed(s.status) ==> s.token != ZeroAddress)
    }

    /**
      The contract invariant. Sale ids are exactly 0 .. nextSaleId-1; a dispute
      reason exists exactly for the sales that went into dispute; TVL of every
      token is the sum of the prices its sales hold in escrow, and the engine's
      balance of the token covers it.
     */
    ghost predicate Valid()
      reads this
    {
      && engine != ZeroAddress
      && (forall id: nat :: id in sales <==> id < nextSaleId)
      && (forall id: nat :: id in sales ==> WellFormed(sales[id]))
      && (forall id: nat :: id in disputeReason <==> id in sales && Disputed(sales[id].status))
      && (forall t :: TvlIn(tvl, t) == Locked(sales, t, nextSaleId))
      && (forall t :: TvlIn(tvl, t) <= BalanceIn(balances, t, engine))
      && (forall h :: BalanceIn(balances, ZeroAddress, h) == 0)
    }

    /**
      Tokens the engine holds beyond what open sales account for: together with
      the TVL it makes up the engine's whole balance of the token.
     */
    function Redundant(token: Address): (amount: nat)
      reads this
      requires Valid()
      ensures amount + TvlOf(token) == BalanceOf(token, engine)
      ensures amount == 0 <==> BalanceOf(token, engine) == TvlOf(token)
    {
      BalanceOf(token, engine) - TvlOf(token)
    }

    /** Deployment: the deployer holds both roles; no sales, nothing locked. */
    constructor (engine: Address, deployer: Address, initial: Balances)
      requires engine != ZeroAddress && deployer != ZeroAddress && deployer != engine
      requires forall h :: BalanceIn(initial, ZeroAddress, h) == 0
      ensures Valid()
      ensures this.engine == engine && resolvers == {deployer} && admins == {deployer}
      ensures sales == map[] && nextSaleId == 0 && tvl == map[] && disputeReason == map[]
      ensures balances == initial
    {
      this.engine := engine;
      resolvers := {deployer};
      admins := {deployer};
      sales := map[];
      nextSaleId := 0;
      tvl := map[];
      disputeReason := map[];
      balances := initial;
      assert forall t :: Locked(map[], t, 0) == 0;
    }

    /** createSale: list an item at the next id, with the caller as seller. */
    method CreateSale(caller: Address, price: nat, token: Address, description: string)
      returns (r: Outcome, id: nat)
      requires Valid() && External(caller)
      modifies this
      ensures Valid()
      ensures id == old(nextSaleId)
      ensures r == (if price > 0 then Ok else Err(ZeroPrice))
      ensures r.Ok? ==>
        && sales == old(sales)[id := Sale(caller, price, token, Active, description, ZeroAddress)]
        && nextSaleId == id + 1
        && tvl == old(tvl) && disputeReason == old(disputeReason) && balances == old(balances)
      ensures r.Err? ==> unchanged(this) && SaleOf(id) == EmptySale
    {
      id := nextSaleId;
      var check := CreateCheck(price);
      if check.Some? {
        return Err(check.value), id;
      }
      ghost var before := sales;
      sales := sales[id := Sale(caller, price, token, Active, description, ZeroAddress)];
      nextSaleId := id + 1;
      forall t ensures TvlIn(tvl, t) == Locked(sales, t, nextSaleId) {
        LockedBeyond(before, t, id, id, sales[id]);
      }
      r := Ok;
    }

    /** cancelSale: the seller withdraws a listing nobody has paid for. */
    method CancelSale(caller: Address, id: nat) returns (r: Outcome)
      requires Valid() && External(caller)
      modifies this
      ensures Valid()
      ensures r.Ok? <==> CancelCheck(old(SaleOf(id)), caller) == None
      ensures r.Err? ==> Some(r.error) == CancelCheck(old(SaleOf(id)), caller) && unchanged(this)
      ensures r.Ok? ==>
        && sales == old(sales)[id := old(SaleOf(id)).(status := Cancelled)]
        && nextSaleId == old(nextSaleId) && tvl == old(tvl)
        && disputeReason == old(disputeReason) && balances == old(balances)
    {
      var s := SaleOf(id);
      var check := CancelCheck(s, caller);
      if check.Some? {
        return Err(check.value);
      }
      ghost var before := sales;
      sales := sales[id := s.(status := Cancelled)];
      forall t ensures TvlIn(tvl, t) == Locked(sales, t, nextSaleId) {
        LockedUpdate(before, t, nextSaleId, id, sales[id]);
      }
      r := Ok;
    }

    /** modifySalePrice: the seller reprices a listing nobody has paid for. */
    method ModifySalePrice(caller: Address, id: nat, newPrice: nat) returns (r: Outcome)
      requires Valid() && External(caller)
      modifies this
      ensures Valid()
      ensures r.Ok? <==> ModifyPriceCheck(old(SaleOf(id)), caller, newPrice) == None
      ensures r.Err? ==> Some(r.error) == ModifyPriceCheck(old(SaleOf(id)), caller, newPrice) && unchanged(this)
      ensures r.Ok? ==>
        && sales == old(sales)[id := old(SaleOf(id)).(price := newPrice)]
        && nextSaleId == old(nextSaleId) && tvl == old(tvl)
        && disputeReason == old(disputeReason) && balances == old(balances)
    {
      var s := SaleOf(id);
      var check := ModifyPriceCheck(s, caller, newPrice);
      if check.Some? {
        return Err(check.value);
      }
      ghost var before := sales;
      sales := sales[id := s.(price := newPrice)];
      forall t ensures TvlIn(tvl, t) == Locked(sales, t, nextSaleId) {
        LockedUpdate(before, t, nextSaleId, id, sales[id]);
      }
      r := Ok;
    }

    /**
      buyItemOnSale: the caller pays the price into escrow and becomes the buyer.
      It reverts when the sale is not ACTIVE, or when the token transfer from the
      buyer fails.
     */
    method BuyItemOnSale(caller: Address, id: nat) returns (r: Outcome)
      requires Valid() && External(caller)
      modifies this
      ensures Valid()
      ensures r.Ok? <==>
        old(BuyCheck(SaleOf(id))) == None
        && CanTransfer(old(balances), old(SaleOf(id)).token, caller, old(SaleOf(id)).price)
      ensures r.Err? ==> unchanged(this)
      ensures r == Err(NotActive) <==> old(BuyCheck(SaleOf(id))) == Some(NotActive)
      ensures r.Err? && r.error != NotActive ==> r.error == TransferFailed
      ensures r.Ok? ==> var s := old(SaleOf(id));
        && id in old(sales)
        && sales == old(sales)[id := s.(status := Payed, buyer := caller)]
        && Adjusted(old(tvl), tvl, s.token, s.price)
        && Transferred(old(balances), balances, s.token, caller, engine, s.price)
        && nextSaleId == old(nextSaleId) && disputeReason == old(disputeReason)
    {
      var s := SaleOf(id);
      var check := BuyCheck(s);
      if check.Some? {
        return Err(check.value);
      }
      if !CanTransfer(balances, s.token, caller, s.price) {
        return Err(TransferFailed);
      }
      Pay(caller, id);
      r := Ok;
    }

    /**
      The committing half of buyItemOnSale: the sale becomes PAYED with the caller
      as buyer, its price moves from the caller into escrow, and TVL rises by it.
     */
    method Pay(caller: Address, id: nat)
      requires Valid() && External(caller)
      requires SaleOf(id).status == Active
      requires CanTransfer(balances, SaleOf(id).token, caller, SaleOf(id).price)
      modifies this
      ensures Valid()
      ensures var s := old(SaleOf(id));
        && id in old(sales)
        && sales == old(sales)[id := s.(status := Payed, buyer := caller)]
        && Adjusted(old(tvl), tvl, s.token, s.price)
        && Transferred(old(balances), balances, s.token, caller, engine, s.price)
        && nextSaleId == old(nextSaleId) && disputeReason == old(disputeReason)
    {
      var s := SaleOf(id);
      assert id in sales;
      ghost var before := sales;
      sales := sales[id := s.(status := Payed, buyer := caller)];
      tvl := tvl[s.token := TvlIn(tvl, s.token) + s.price];
      ghost var oldBalances := balances;
      balances := Moved(balances, s.token, caller, engine, s.price);
      ghost var oldTvl := old(tvl);
      DepositCovered(oldTvl, tvl, oldBalances, balances, s.token, caller, engine, s.price);
      BooksAfterRewrite(oldTvl, tvl, before, nextSaleId, id, sales[id]);
      ReasonsKept(before, disputeReason, id, sales[id]);
    }

    /** confirmSendingItem: the seller marks a paid item as shipped. */
    method ConfirmSendingItem(caller: Address, id: nat) returns (r: Outcome)
      requires Valid() && External(caller)
      modifies this
      ensures Valid()
      ensures r.Ok? <==> ConfirmSendCheck(old(SaleOf(id)), caller) == None
      ensures r.Err? ==> Some(r.error) == ConfirmSendCheck(old(SaleOf(id)), caller) && unchanged(this)
      ensures r.Ok? ==>
        && sales == old(sales)[id := old(SaleOf(id)).(status := Send)]
        && nextSaleId == old(nextSaleId) && tvl == old(tvl)
        && disputeReason == old(disputeReason) && balances == old(balances)
    {
      var s := SaleOf(id);
      var check := ConfirmSendCheck(s, caller);
      if check.Some? {
        return Err(check.value);
      }
      ghost var before := sales;
      sales := sales[id := s.(status := Send)];
      forall t ensures TvlIn(tvl, t) == Locked(sales, t, nextSaleId) {
        LockedUpdate(before, t, nextSaleId, id, sales[id]);
      }
      r := Ok;
    }

    /**
      confirmReceivingItem: the buyer confirms delivery and the escrowed price
      goes to the seller. Once its checks pass the payout cannot fail: the
      engine always holds what it owes.
     */
    method ConfirmReceivingItem(caller: Address, id: nat) returns (r: Outcome)
      requires Valid() && External(caller)
      modifies this
      ensures Valid()
      ensures r.Ok? <==> ConfirmReceiveCheck(old(SaleOf(id)), caller) == None
      ensures r.Err? ==> Some(r.error) == ConfirmReceiveCheck(old(SaleOf(id)), caller) && unchanged(this)
      ensures r.Ok? ==> var s := old(SaleOf(id));
        && sales == old(sales)[id := s.(status := Received)]
        && Adjusted(old(tvl), tvl, s.token, -(s.price as int))
        && Transferred(old(balances), balances, s.token, engine, s.seller, s.price)
        && nextSaleId == old(nextSaleId) && disputeReason == old(disputeReason)
    {
      var s := SaleOf(id);
      var check := ConfirmReceiveCheck(s, caller);
      if check.Some? {
        return Err(check.value);
      }
      Release(id, Received, s.seller);
      r := Ok;
    }

    /** reportProblem: the seller or the buyer opens a dispute on a shipped item. */
    method ReportProblem(caller: Address, id: nat, reason: string) returns (r: Outcome)
      requires Valid() && External(caller)
      modifies this
      ensures Valid()
      ensures r.Ok? <==> ReportCheck(old(SaleOf(id)), caller) == None
      ensures r.Err? ==> Some(r.error) == ReportCheck(old(SaleOf(id)), caller) && unchanged(this)
      ensures r.Ok? ==>
        && sales == old(sales)[id := old(SaleOf(id)).(status := DisputeUnresolved)]
        && disputeReason == old(disputeReason)[id := reason]
        && nextSaleId == old(nextSaleId) && tvl == old(tvl) && balances == old(balances)
    {
      var s := SaleOf(id);
      var check := ReportCheck(s, caller);
      if check.Some? {
        return Err(check.value);
      }
      ghost var before := sales;
      sales := sales[id := s.(status := DisputeUnresolved)];
      disputeReason := disputeReason[id := reason];
      forall t ensures TvlIn(tvl, t) == Locked(sales, t, nextSaleId) {
        LockedUpdate(before, t, nextSaleId, id, sales[id]);
      }
      r := Ok;
    }

    /**
      resolveDispute: a resolver settles an open dispute, paying the whole
      escrowed price to the buyer (isBuyerRight) or to the seller.
     */
    method ResolveDispute(caller: Address, id: nat, isBuyerRight: bool) returns (r: Outcome)
      requires Valid() && External(caller)
      modifies this
      ensures Valid()
      ensures r.Ok? <==> ResolveCheck(old(SaleOf(id)), caller in resolvers) == None
      ensures r.Err? ==> Some(r.error) == ResolveCheck(old(SaleOf(id)), caller in resolvers) && unchanged(this)
      ensures r.Ok? ==> var s := old(SaleOf(id));
        var winner := if isBuyerRight then s.buyer else s.seller;
        && sales == old(sales)[id := s.(status := if isBuyerRight then DisputeResolvedBuyer else DisputeResolvedSeller)]
        && Adjusted(old(tvl), tvl, s.token, -(s.price as int))
        && Transferred(old(balances), balances, s.token, engine, winner, s.price)
        && nextSaleId == old(nextSaleId) && disputeReason == old(disputeReason)
    {
      var s := SaleOf(id);
      var check := ResolveCheck(s, caller in resolvers);
      if check.Some? {
        return Err(check.value);
      }
      if isBuyerRight {
        Release(id, DisputeResolvedBuyer, s.buyer);
      } else {
        Release(id, DisputeResolvedSeller, s.seller);
      }
      r := Ok;
    }

    /**
      The payout shared by confirmReceivingItem and resolveDispute: an escrowed
      sale moves to a state that no longer holds escrow, its price leaves the
      TVL counter and goes from the engine to `to`.
     */
    method Release(id: nat, next: Status, to: Address)
      requires Valid()
      requires Escrowed(SaleOf(id).status) && !Escrowed(next) && HasBuyer(next)
      requires Disputed(SaleOf(id).status) <==> Disputed(next)
      requires to == SaleOf(id).seller || to == SaleOf(id).buyer
      modifies this
      ensures Valid()
      ensures var s := old(SaleOf(id));
        && sales == old(sales)[id := s.(status := next)]
        && Adjusted(old(tvl), tvl, s.token, -(s.price as int))
        && Transferred(old(balances), balances, s.token, engine, to, s.price)
        && nextSaleId == old(nextSaleId) && disputeReason == old(disputeReason)
    {
      var s := SaleOf(id);
      EscrowIsBacked(this, id);
      assert WellFormed(s);
      ghost var before := sales;
      ghost var oldTvl := tvl;
      ghost var oldBalances := balances;
      sales := sales[id := s.(status := next)];
      tvl := tvl[s.token := TvlIn(tvl, s.token) - s.price];
      balances := Moved(balances, s.token, engine, to, s.price);
      PayoutCovered(oldTvl, tvl, oldBalances, balances, s.token, engine, to, s.price);
      BooksAfterRewrite(oldTvl, tvl, before, nextSaleId, id, sales[id]);
      ReasonsKept(before, disputeReason, id, sales[id]);
    }

    /**
      withdrawRedundantTokens: an admin takes the engine's balance of `token`
      beyond its TVL; the TVL itself is untouched. On the zero address there is
      no token contract to ask for a balance, so the call reverts.
     */
    method WithdrawRedundantTokens(caller: Address, token: Address) returns (r: Outcome)
      requires Valid() && External(caller)
      modifies this
      ensures Valid()
      ensures r.Ok? <==> WithdrawCheck(caller in admins, token, old(Redundant(token))) == None
      ensures r.Err? ==> Some(r.error) == WithdrawCheck(caller in admins, token, old(Redundant(token))) && unchanged(this)
      ensures r.Ok? ==>
        && Transferred(old(balances), balances, token, engine, caller, old(Redundant(token)))
        && Redundant(token) == 0
        && sales == old(sales) && nextSaleId == old(nextSaleId)
        && tvl == old(tvl) && disputeReason == old(disputeReason)
    {
      var amount := Redundant(token);
      var check := WithdrawCheck(caller in admins, token, amount);
      if check.Some? {
        return Err(check.value);
      }
      balances := Moved(balances, token, engine, caller, amount);
      r := Ok;
    }

    /**
      A holder's own ERC-20 transfer, outside the marketplace: the way stray
      tokens reach the engine. The engine's tokens never leave this way.
     */
    method TokenTransfer(from: Address, to: Address, token: Address, amount: nat) returns (ok: bool)
      requires Valid() && External(from)
      modifies this
      ensures Valid()
      ensures ok == CanTransfer(old(balances), token, from, amount)
      ensures !ok ==> unchanged(this)
      ensures ok ==> Transferred(old(balances), balances, token, from, to, amount)
      ensures sales == old(sales) && nextSaleId == old(nextSaleId)
      ensures tvl == old(tvl) && disputeReason == old(disputeReason)
      ensures ok && to == engine ==> Redundant(token) == old(Redundant(token)) + amount
    {
      ok := CanTransfer(balances, token, from, amount);
      if ok {
        balances := Moved(balances, token, from, to, amount);
      }
    }

    /** receive: native currency sent to the contract is always refused (E#9). */
    method Receive(caller: Address, value: nat) returns (r: Outcome)
      ensures r == Err(NativeTransferRejected)
    {
      r := Err(NativeTransferRejected);
    }
  }

  /** Tokens paid into the engine, with TVL raised by the same amount, keep TVL covered. */
  lemma DepositCovered(tvl0: map<Address, nat>, tvl1: map<Address, nat>, b0: Balances, b1: Balances,
                       token: Address, from: Address, engine: Address, amount: nat)
    requires from != engine
    requires forall t :: TvlIn(tvl0, t) <= BalanceIn(b0, t, engine)
    requires Adjusted(tvl0, tvl1, token, amount)
    requires Transferred(b0, b1, token, from, engine, amount)
    ensures forall t :: TvlIn(tvl1, t) <= BalanceIn(b1, t, engine)
  {
  }

  /** Rewriting a stored sale without entering or leaving dispute keeps the reasons matched to the disputed sales. */
  lemma ReasonsKept(sales: SaleTable, reasons: map<nat, string>, k: nat, s: Sale)
    requires forall id: nat :: id in reasons <==> id in sales && Disputed(sales[id].status)
    requires k in sales && (Disputed(s.status) <==> Disputed(sales[k].status))
    ensures forall id: nat :: id in reasons <==> id in sales[k := s] && Disputed(sales[k := s][id].status)
  {
  }

  /** Tokens paid out of the engine, with TVL lowered by the same amount, keep TVL covered. */
  lemma PayoutCovered(tvl0: map<Address, nat>, tvl1: map<Address, nat>, b0: Balances, b1: Balances,
                      token: Address, engine: Address, to: Address, amount: nat)
    requires to != engine
    requires forall t :: TvlIn(tvl0, t) <= BalanceIn(b0, t, engine)
    requires Adjusted(tvl0, tvl1, token, -(amount as int))
    requires Transferred(b0, b1, token, engine, to, amount)
    ensures forall t :: TvlIn(tvl1, t) <= BalanceIn(b1, t, engine)
  {
  }

  /**
    Under the invariant, an id reads as the all-zero record exactly when no sale
    was created at it: a stored sale has a positive price.
   */
  lemma UnwrittenSaleIsEmpty(m: ItemMarketplace, id: nat)
    requires m.Valid()
    ensures m.SaleOf(id) == EmptySale <==> id >= m.nextSaleId
  {
    if id < m.nextSaleId {
      assert m.WellFormed(m.sales[id]);
    }
  }

  /**
    Under the invariant, a token's TVL is the sum of the prices its sales hold in
    escrow, the engine's balance covers it, and nothing is locked in the zero address.
   */
  lemma TvlIsEscrowSum(m: ItemMarketplace, token: Address)
    requires m.Valid()
    ensures m.TvlOf(token) == Locked(m.sales, token, m.nextSaleId)
    ensures m.TvlOf(token) <= m.BalanceOf(token, m.engine)
    ensures token == ZeroAddress ==> m.TvlOf(token) == 0
  {
    assert m.TvlOf(token) <= BalanceIn(m.balances, token, m.engine);
  }

  /** Under the invariant, a sale that never went into dispute has no reason stored. */
  lemma NoReasonWithoutDispute(m: ItemMarketplace, id: nat)
    requires m.Valid()
    ensures !Disputed(m.SaleOf(id).status) ==> m.DisputeReasonOf(id) == ""
  {
  }

  /** An escrowed sale is covered twice over: by its token's TVL and by the engine's balance. */
  lemma EscrowIsBacked(m: ItemMarketplace, id: nat)
    requires m.Valid()
    requires Escrowed(m.SaleOf(id).status)
    ensures id in m.sales
    ensures m.SaleOf(id).token != ZeroAddress
    ensures m.SaleOf(id).price <= m.TvlOf(m.SaleOf(id).token) <= m.BalanceOf(m.SaleOf(id).token, m.engine)
  {
    ShareWithinLocked(m.sales, m.SaleOf(id).token, m.nextSaleId, id);
  }
}
