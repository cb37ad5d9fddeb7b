/**
  Values of the item marketplace: accounts, the eight lifecycle states of a sale,
  the sale record, and the revert reasons the contract fails with.
 */
module MarketTypes {

  /** An account or a contract address; the zero address is 0. */
  type Address = nat

  const ZeroAddress: Address := 0

  datatype Option<T> = None | Some(value: T)

  /** Lifecycle of a sale, in the order of the contract's enum. */
  datatype Status =
    | Active
    | Payed
    | Send
    | Received
    | Cancelled
    | DisputeUnresolved
    | DisputeResolvedSeller
    | DisputeResolvedBuyer

  /** The small integer the contract stores and returns for a status. */
  function StatusId(s: Status): (id: nat)
    ensures id < 8
    ensures id == 0 <==> s == Active
  {
    match s
    case Active => 0
    case Payed => 1
    case Send => 2
    case Received => 3
    case Cancelled => 4
    case DisputeUnresolved => 5
    case DisputeResolvedSeller => 6
    case DisputeResolvedBuyer => 7
  }

  /** Decodes a stored status id; ids from 8 up name no status. */
  function StatusOfId(id: nat): (s: Option<Status>)
    ensures s.Some? <==> id < 8
  {
    if id == 0 then Some(Active)
    else if id == 1 then Some(Payed)
    else if id == 2 then Some(Send)
    else if id == 3 then Some(Received)
    else if id == 4 then Some(Cancelled)
    else if id == 5 then Some(DisputeUnresolved)
    else if id == 6 then Some(DisputeResolvedSeller)
    else if id == 7 then Some(DisputeResolvedBuyer)
    else None
  }

  lemma StatusIdRoundTrip(s: Status)
    ensures StatusOfId(StatusId(s)) == Some(s)
  {
  }

  /** States in which the engine holds the buyer's payment. */
  predicate Escrowed(s: Status) {
    s == Payed || s == Send || s == DisputeUnresolved
  }

  /** States reached only after a successful payment. */
  predicate HasBuyer(s: Status) {
    s != Active && s != Cancelled
  }

  /** States reached only after a dispute was opened. */
  predicate Disputed(s: Status) {
    s == DisputeUnresolved || s == DisputeResolvedSeller || s == DisputeResolvedBuyer
  }

  /** States no operation leaves. */
  predicate Terminal(s: Status) {
    s == Cancelled || s == Received || s == DisputeResolvedSeller || s == DisputeResolvedBuyer
  }

  /** One listing, with its fields in the order the query returns them. */
  datatype Sale = Sale(
    seller: Address,
    price: nat,
    token: Address,
    status: Status,
    description: string,
    buyer: Address)

  /** What the sale table returns for an id never written: every field zero. */
  const EmptySale := Sale(ZeroAddress, 0, ZeroAddress, Active, "", ZeroAddress)

  /** Why an operation reverted. */
  datatype Error =
    | NotSeller               // E#0
    | NotActive               // E#2
    | NotPayed                // E#3
    | NotBuyer                // E#4
    | NotSend                 // E#5
    | ZeroPrice               // E#6
    | NotDisputeUnresolved    // E#7
    | NotSellerOrBuyer        // E#8
    | NativeTransferRejected  // E#9
    | NoRedundantFunds        // E#10
    | MissingRole             // the role registry's revert
    | TransferFailed          // a call into the token contract reverted

  /**
    The revert string a caller observes. For the contract's own checks it is the
    exact `E#n` code; the role registry's and the token contract's messages are
    placeholders standing for whatever text those contracts revert with.
   */
  function RevertReason(e: Error): (reason: string)
    ensures |reason| > 0
  {
    match e
    case NotSeller => "E#0"
    case NotActive => "E#2"
    case NotPayed => "E#3"
    case NotBuyer => "E#4"
    case NotSend => "E#5"
    case ZeroPrice => "E#6"
    case NotDisputeUnresolved => "E#7"
    case NotSellerOrBuyer => "E#8"
    case NativeTransferRejected => "E#9"
    case NoRedundantFunds => "E#10"
    case MissingRole => "AccessControl: account is missing role"
    case TransferFailed => "ERC20: transfer failed"
  }

  /** Every failure is told apart by its revert reason. */
  lemma RevertReasonsDistinct(a: Error, b: Error)
    requires a != b
    ensures RevertReason(a) != RevertReason(b)
  {
  }

  /** The result of one transaction: it commits, or it reverts with a reason. */
  datatype Outcome = Ok | Err(error: Error)
}
