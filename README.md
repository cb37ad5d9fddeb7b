# ItemMarketplace escrow engine, in Dafny

A model of the `ItemMarketplace` contract. Its behaviour is taken from the contract's test suite
(`test/ItemMarketplace.js`). A seller lists an item for a price in an ERC-20 token. A buyer pays
that price into the contract's escrow. The seller confirms shipping. Then either the buyer confirms
receipt, which pays the seller, or one of the two opens a dispute. A holder of the dispute-resolver
role settles the dispute by paying the whole price to the buyer or the seller.

The contract keeps a per-token **TVL** (total value locked) counter, `addressToTvl`, for the value
it holds on behalf of open sales. An admin may withdraw anything the contract holds beyond its TVL:
tokens sent straight to it by mistake.

Files:

- `types.dfy` (module `MarketTypes`) holds the values:
  - the eight sale states and their stored ids 0–7;
  - the sale record (seller, price, token, status, description, buyer);
  - the zero record that an unwritten slot of the sale table reads as;
  - the revert reasons `E#0` … `E#10`.
- `guards.dfy` (module `Guards`) holds one check per operation. Each check returns the error the
  operation reverts with, or nothing.
- `ledger.dfy` holds two modules:
  - `TokenLedger` is the token contracts' balances and what a transfer does to them.
  - `EscrowSum` is the TVL counter and `Locked`, the sum of the escrowed prices of a token over
    the sale table. It also holds the lemmas that say how that sum changes when one sale changes.
- `marketplace.dfy` (module `Marketplace`) is the contract as a class, `ItemMarketplace`.
  - Its fields: the sale table, the next sale id, the TVL map, the dispute-reason map and the
    token balances.
  - It has one method per public operation. A method either commits every effect it lists (`Ok`)
    or reverts (`Err(e)`) with the state unchanged.
  - `Valid()` is the contract's invariant. Sale ids are exactly `0 .. nextSaleId-1`. Every sale
    has a positive price. A buyer is recorded exactly when the sale has been paid for. A dispute
    reason exists exactly for the sales that went into dispute. The TVL of every token equals the
    sum of the prices its sales hold in escrow (states PAYED, SEND, DISPUTE_UNRESOLVED). The
    contract's balance of every token covers that TVL.
  - Every method keeps `Valid()`. From it, the payouts of `confirmReceivingItem`,
    `resolveDispute` and `withdrawRedundantTokens` are proved never to fail once their checks
    pass.
- `scenarios.dfy` (module `Scenarios`) follows the test suite's flows step by step, using only
  the methods' contracts. Its asserts restate what the tests expect: statuses, TVL, balances,
  dispute reasons and revert reasons.

Modelling choices:

- Addresses are naturals, and the zero address is 0. The caller of an operation is a parameter.
  It is required to be neither 0 nor the contract itself: no transaction comes from the zero
  address, and the contract never calls itself.
- Reading an id that was never written gives the all-zero record, as Solidity mappings do. Such a
  record shows status ACTIVE and has no seller, no buyer and no token. Every operation on such an
  id therefore reverts through its own check. `buyItemOnSale` on it reaches a transfer on the
  zero address, and that reverts because no token contract lives there.
- A token transfer reverts when the token is the zero address or when the sender's balance is too
  small. The contract's own payouts are proved never to hit either case.
- When several checks fail at once, the order is fixed by the tests only for `reportProblem`. The
  test at `test/ItemMarketplace.js:430` calls it on an ACTIVE sale and the one at `:448` on a
  CANCELLED sale, both from an account that is neither seller nor recorded buyer. Each expects
  `E#5`, so the state is checked before the caller: `ReportCheck` returns `E#5` in every state
  other than SEND. For the other operations no test combines two failing conditions, and the
  order the model uses is its own choice (see "## Left out").
- The roles are fixed at deployment: the deployer holds both the resolver role and the admin role.

## Model

| member | source | states |
|---|---|---|
| `MarketTypes.StatusId` | test/ItemMarketplace.js:9-16 | every status has an id below 8; id 0 is ACTIVE and only ACTIVE |
| `MarketTypes.StatusOfId` | test/ItemMarketplace.js:9-16 | exactly the ids 0–7 decode to a status |
| `MarketTypes.StatusIdRoundTrip` | test/ItemMarketplace.js:9-16 | decoding a status's id gives back that status |
| `MarketTypes.RevertReason` | test/ItemMarketplace.js:61-63 | every error carries a non-empty revert reason (`E#0` … `E#10` for the contract's own checks) |
| `MarketTypes.RevertReasonsDistinct` | test/ItemMarketplace.js:97-110 | two different errors never share a revert reason |
| `Guards.CreateCheck` | test/ItemMarketplace.js:56-72 | createSale may proceed iff price > 0; otherwise E#6 |
| `Guards.CancelCheck` | test/ItemMarketplace.js:91-114 | cancelSale may proceed iff the caller is the seller and the sale is ACTIVE; E#0 only when the caller is not the seller, E#2 only when the sale is not ACTIVE |
| `Guards.ModifyPriceCheck` | test/ItemMarketplace.js:134-172 | modifySalePrice may proceed iff caller is seller, sale ACTIVE and new price > 0; E#0 / E#2 / E#6 each only when its own condition fails |
| `Guards.BuyCheck` | test/ItemMarketplace.js:197-216 | buyItemOnSale may proceed iff the sale is ACTIVE; otherwise E#2 |
| `Guards.ConfirmSendCheck` | test/ItemMarketplace.js:238-283 | confirmSendingItem may proceed iff caller is seller and sale PAYED; E#0 / E#3 each only when its own condition fails |
| `Guards.ConfirmReceiveCheck` | test/ItemMarketplace.js:310-349 | confirmReceivingItem may proceed iff caller is buyer and sale SEND; E#4 / E#5 each only when its own condition fails |
| `Guards.ReportCheck` | test/ItemMarketplace.js:399-545 | reportProblem may proceed iff caller is seller or buyer and sale SEND; the state is checked first, so every state other than SEND gives E#5 whoever calls; E#8 only for a non-party on a SEND sale |
| `Guards.ResolveCheck` | test/ItemMarketplace.js:603-746 | resolveDispute may proceed iff caller holds the resolver role and sale is DISPUTE_UNRESOLVED; role revert / E#7 each only when its own condition fails |
| `Guards.WithdrawCheck` | test/ItemMarketplace.js:790-840 | withdrawRedundantTokens may proceed iff caller is admin, the token is not the zero address and the redundant amount is positive; role revert / token revert / E#10 each only when its own condition fails |
| `Guards.TerminalSaleIsFinal` | test/ItemMarketplace.js:477-545 | in CANCELLED, RECEIVED and both resolved states every per-sale operation is refused, whoever calls |
| `TokenLedger.Moved` | test/ItemMarketplace.js:776-787 | a transfer lowers the sender's balance by the amount, raises the receiver's by it, and leaves every other balance of every token alone |
| `EscrowSum.LockedBeyond` | test/ItemMarketplace.js:38-54 | writing a sale at a not-yet-counted id leaves the escrow sum unchanged |
| `EscrowSum.LockedUpdate` | test/ItemMarketplace.js:186-194 | replacing one counted sale changes the escrow sum by exactly the new share minus the old share |
| `EscrowSum.ShareWithinLocked` | test/ItemMarketplace.js:297-307 | one sale's escrowed price never exceeds its token's escrow sum |
| `Marketplace.ItemMarketplace.SaleOf` | test/ItemMarketplace.js:47-53 | the `saleIdToSale` getter: the stored record, and the all-zero record for an id never written |
| `Marketplace.ItemMarketplace.StatusIdOf` | test/ItemMarketplace.js:9-16 | the status field as the getter returns it: an id below 8 that decodes to the sale's status, 0 for an id never written |
| `Marketplace.ItemMarketplace.TvlOf` | test/ItemMarketplace.js:186-194 | the `addressToTvl` getter: 0 for a token no sale has used |
| `Marketplace.ItemMarketplace.DisputeReasonOf` | test/ItemMarketplace.js:365-375 | the `saleIdToDisputeReason` getter: the stored reason, or "" when none was stored |
| `Marketplace.ItemMarketplace.Redundant` | test/ItemMarketplace.js:776-787 | the amount `withdrawRedundantTokens` takes: together with the TVL it makes up the contract's whole balance of the token, and it is 0 exactly when the balance equals the TVL |
| `Marketplace.ItemMarketplace.Valid` | test/ItemMarketplace.js:186-194 | the contract's invariant, stated by its definition and kept by every operation: ids are 0 .. next-1; stored sales are well formed; reasons exist exactly for disputed sales; each token's TVL equals the escrow sum and is covered by the contract's balance |
| `Marketplace.UnwrittenSaleIsEmpty` | test/ItemMarketplace.js:56-72 | under the invariant, an id reads as the all-zero record exactly when no sale was created at it |
| `Marketplace.TvlIsEscrowSum` | test/ItemMarketplace.js:186-194 | under the invariant, a token's TVL is the sum of its escrowed prices, at most the contract's balance of it, and 0 for the zero address |
| `Marketplace.NoReasonWithoutDispute` | test/ItemMarketplace.js:414-419 | under the invariant, a sale that never went into dispute has the reason "" |
| `EscrowSum.BooksAfterRewrite` | test/ItemMarketplace.js:186-194 | rewriting one sale and moving its token's TVL by the change in its share keeps TVL equal to the escrow sum for every token |
| `Marketplace.EscrowIsBacked` | test/ItemMarketplace.js:297-307 | an escrowed sale is stored, its token is a real token, and its price ≤ TVL of the token ≤ the contract's balance of it |
| `Marketplace.ItemMarketplace.constructor` | test/ItemMarketplace.js:18-28 | after deployment there are no sales and no TVL, and the deployer holds both roles |
| `Marketplace.ItemMarketplace.CreateSale` | test/ItemMarketplace.js:38-72 | with price > 0: stores at the next id a sale with the caller as seller, the given price, token and description, ACTIVE and no buyer, and bumps the id; price 0: E#6, nothing written, and the slot still reads as the zero record |
| `Marketplace.ItemMarketplace.CancelSale` | test/ItemMarketplace.js:76-114 | succeeds iff its check passes and then only sets CANCELLED; otherwise reverts with the check's error and changes nothing |
| `Marketplace.ItemMarketplace.ModifySalePrice` | test/ItemMarketplace.js:118-172 | succeeds iff its check passes and then only replaces the price; otherwise reverts and the price is unchanged |
| `Marketplace.ItemMarketplace.BuyItemOnSale` | test/ItemMarketplace.js:176-216 | succeeds iff the sale is ACTIVE and the buyer can pay; sets PAYED and the caller as buyer, moves the price from the buyer to the contract, and raises that token's TVL by the price; E#2 or a failed transfer changes nothing |
| `Marketplace.ItemMarketplace.Pay` | test/ItemMarketplace.js:176-194 | the committing half of buyItemOnSale: the sale becomes PAYED with the caller as buyer, the price moves from the caller to the contract, and TVL rises by it |
| `Marketplace.ItemMarketplace.ConfirmSendingItem` | test/ItemMarketplace.js:220-283 | succeeds iff its check passes and then only moves PAYED to SEND |
| `Marketplace.ItemMarketplace.ConfirmReceivingItem` | test/ItemMarketplace.js:287-349 | succeeds exactly when its check passes (the payout never fails); sets RECEIVED, pays the price from the contract to the seller, and lowers TVL by the price; failures change nothing |
| `Marketplace.ItemMarketplace.ReportProblem` | test/ItemMarketplace.js:353-545 | succeeds iff its check passes; sets DISPUTE_UNRESOLVED and stores the reason, moving no funds; failures (E#5 whenever the sale is not SEND) change nothing and leave the reason unset |
| `Marketplace.ItemMarketplace.ResolveDispute` | test/ItemMarketplace.js:549-746 | succeeds exactly when its check passes; pays the whole price to the buyer (status 7) or the seller (status 6) and lowers TVL by the price; failures change nothing |
| `Marketplace.ItemMarketplace.Release` | test/ItemMarketplace.js:564-601 | the shared payout step: the sale leaves escrow, TVL drops by its price, and the contract pays that price to the named party |
| `Marketplace.ItemMarketplace.WithdrawRedundantTokens` | test/ItemMarketplace.js:765-840 | succeeds exactly when its check passes; sends exactly balance − TVL to the admin, leaves TVL and sales unchanged, and leaves no redundant balance |
| `Marketplace.ItemMarketplace.TokenTransfer` | test/ItemMarketplace.js:778-781 | a holder's direct transfer moves only balances; sent to the contract, it raises the redundant amount by exactly the amount and leaves TVL alone |
| `Marketplace.ItemMarketplace.Receive` | test/ItemMarketplace.js:749-761 | native currency sent to the contract always reverts with E#9 |

## Left out

- The ERC-20 token contract is reduced to a balance map keyed by (token, holder). `approve` and
  allowances are not modelled, so a purchase fails only when the buyer's balance is too small.
  `mint` is replaced by the balances given at deployment.
- The role registry is two fixed sets chosen at deployment. `grantRole`, `revokeRole` and the role
  hashes are not modelled. A role failure is one error, `MissingRole`, whose reason stands for
  the registry's "AccessControl: account … is missing role …" message.
- A failed call into a token contract is one error, `TransferFailed`. Its reason string "ERC20:
  transfer failed" is a placeholder. No test fixes the token's own revert message.
- Events (`SaleCreated`, `SalePriceUpdated`, `ItemBought`, …) are not modelled. They carry no state.
- Amounts are unbounded naturals. The 256-bit width of Solidity integers is not modelled: TVL can
  never exceed a balance, so the counter cannot overflow.
- Revert code `E#1` appears in no test. Whatever check raises it is not modelled.
- Check order where no test fixes it: each check is a transparent function, so the operations'
  contracts name one error even when several checks fail, in an order the tests do not confirm.
  The order is:
  - the caller before the state for `cancelSale`, `confirmSendingItem` and
    `confirmReceivingItem`;
  - seller, then ACTIVE, then price for `modifySalePrice`;
  - the role before the state for `resolveDispute`;
  - the role, then the zero token, then `E#10` for `withdrawRedundantTokens`.

  The real contract may check these in another order. Only `reportProblem`'s order (state
  first) is confirmed by its tests.
- `getRandomTokenNumber` and the fixtures are replaced by arbitrary positive prices in
  `scenarios.dfy`.
- Marketplace.ItemMarketplace.BuyItemOnSale: the failure of the pull from the buyer is "the buyer's
  balance is below the price". Allowance and any other reason a token contract might refuse are
  not represented.
- A withdrawal naming the zero address as token reverts with `TransferFailed`, because the
  balance query finds no token contract there. This comes after the role check and before E#10.
  No test covers the case, so the real query's exact revert is not modelled.
