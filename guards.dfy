/**
  The checks each marketplace operation makes before it changes anything.
  Each returns None when the operation may proceed, or the error it reverts with.
  Where several checks fail at once, the order of the branches decides which
  error is named; that order is as the contract's tests show it for
  reportProblem (the state first) and a choice of the model elsewhere.
 */
module Guards {
  import opened MarketTypes

  /** createSale: the price must be positive (E#6). */
  function CreateCheck(price: nat): (r: Option<Error>)
    ensures r == None <==> price > 0
    ensures r != None ==> r == Some(ZeroPrice)
  {
    if price == 0 then Some(ZeroPrice) else None
  }

  /** cancelSale: seller only (E#0), while ACTIVE (E#2). */
  function CancelCheck(sale: Sale, caller: Address): (r: Option<Error>)
    ensures r == None <==> caller == sale.seller && sale.status == Active
    ensures r == Some(NotSeller) ==> caller != sale.seller
    ensures r == Some(NotActive) ==> sale.status != Active
    ensures r == None || r == Some(NotSeller) || r == Some(NotActive)
  {
    if caller != sale.seller then Some(NotSeller)
    else if sale.status != Active then Some(NotActive)
    else None
  }

  /** modifySalePrice: seller only (E#0), while ACTIVE (E#2), new price positive (E#6). */
  function ModifyPriceCheck(sale: Sale, caller: Address, newPrice: nat): (r: Option<Error>)
    ensures r == None <==> caller == sale.seller && sale.status == Active && newPrice > 0
    ensures r == Some(NotSeller) ==> caller != sale.seller
    ensures r == Some(NotActive) ==> sale.status != Active
    ensures r == Some(ZeroPrice) ==> newPrice == 0
    ensures r == None || r == Some(NotSeller) || r == Some(NotActive) || r == Some(ZeroPrice)
  {
    if caller != sale.seller then Some(NotSeller)
    else if sale.status != Active then Some(NotActive)
    else if newPrice == 0 then Some(ZeroPrice)
    else None
  }

  /** buyItemOnSale: anyone, while ACTIVE (E#2). */
  function BuyCheck(sale: Sale): (r: Option<Error>)
    ensures r == None <==> sale.status == Active
    ensures r != None ==> r == Some(NotActive)
  {
    if sale.status != Active then Some(NotActive) else None
  }

  /** confirmSendingItem: seller only (E#0), while PAYED (E#3). */
  function ConfirmSendCheck(sale: Sale, caller: Address): (r: Option<Error>)
    ensures r == None <==> caller == sale.seller && sale.status == Payed
    ensures r == Some(NotSeller) ==> caller != sale.seller
    ensures r == Some(NotPayed) ==> sale.status != Payed
    ensures r == None || r == Some(NotSeller) || r == Some(NotPayed)
  {
    if caller != sale.seller then Some(NotSeller)
    else if sale.status != Payed then Some(NotPayed)
    else None
  }

  /** confirmReceivingItem: buyer only (E#4), while SEND (E#5). */
  function ConfirmReceiveCheck(sale: Sale, caller: Address): (r: Option<Error>)
    ensures r == None <==> caller == sale.buyer && sale.status == Send
    ensures r == Some(NotBuyer) ==> caller != sale.buyer
    ensures r == Some(NotSend) ==> sale.status != Send
    ensures r == None || r == Some(NotBuyer) || r == Some(NotSend)
  {
    if caller != sale.buyer then Some(NotBuyer)
    else if sale.status != Send then Some(NotSend)
    else None
  }

  /**
    reportProblem: while SEND (E#5), by the seller or the buyer (E#8). The state
    is checked first: a sale not yet shipped or already settled reverts with
    E#5 whoever calls.
   */
  function ReportCheck(sale: Sale, caller: Address): (r: Option<Error>)
    ensures r == None <==> (caller == sale.seller || caller == sale.buyer) && sale.status == Send
    ensures sale.status != Send ==> r == Some(NotSend)
    ensures r == Some(NotSellerOrBuyer) ==> caller != sale.seller && caller != sale.buyer && sale.status == Send
    ensures r == None || r == Some(NotSellerOrBuyer) || r == Some(NotSend)
  {
    if sale.status != Send then Some(NotSend)
    else if caller != sale.seller && caller != sale.buyer then Some(NotSellerOrBuyer)
    else None
  }

  /** resolveDispute: resolver role (role revert), while DISPUTE_UNRESOLVED (E#7). */
  function ResolveCheck(sale: Sale, isResolver: bool): (r: Option<Error>)
    ensures r == None <==> isResolver && sale.status == DisputeUnresolved
    ensures r == Some(MissingRole) ==> !isResolver
    ensures r == Some(NotDisputeUnresolved) ==> sale.status != DisputeUnresolved
    ensures r == None || r == Some(MissingRole) || r == Some(NotDisputeUnresolved)
  {
    if !isResolver then Some(MissingRole)
    else if sale.status != DisputeUnresolved then Some(NotDisputeUnresolved)
    else None
  }

  /**
    withdrawRedundantTokens: admin role (role revert); then the balance query on
    `token`, which reverts when no token contract lives at the zero address;
    then something to reclaim (E#10).
   */
  function WithdrawCheck(isAdmin: bool, token: Address, redundant: nat): (r: Option<Error>)
    ensures r == None <==> isAdmin && token != ZeroAddress && redundant > 0
    ensures r == Some(MissingRole) ==> !isAdmin
    ensures r == Some(TransferFailed) ==> token == ZeroAddress
    ensures r == Some(NoRedundantFunds) ==> redundant == 0
    ensures r == None || r == Some(MissingRole) || r == Some(TransferFailed) || r == Some(NoRedundantFunds)
  {
    if !isAdmin then Some(MissingRole)
    else if token == ZeroAddress then Some(TransferFailed)
    else if redundant == 0 then Some(NoRedundantFunds)
    else None
  }

  /**
    A sale in a terminal state is a permanent record: every operation that names
    it by id is refused, whoever calls.
   */
  lemma TerminalSaleIsFinal(sale: Sale, caller: Address, newPrice: nat, isResolver: bool)
    requires Terminal(sale.status)
    ensures CancelCheck(sale, caller).Some?
    ensures ModifyPriceCheck(sale, caller, newPrice).Some?
    ensures BuyCheck(sale).Some?
    ensures ConfirmSendCheck(sale, caller).Some?
    ensures ConfirmReceiveCheck(sale, caller).Some?
    ensures ReportCheck(sale, caller).Some?
    ensures ResolveCheck(sale, isResolver).Some?
  {
  }
}
