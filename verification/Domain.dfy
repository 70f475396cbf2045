/** The rows of one region's shard and the replies of its services. */
module Domain {

  datatype Option<+T> = None | Some(value: T)

  type OrderId = nat
  type TxId = nat
  type DeliveryId = nat
  type AgentId = nat
  type EventId = string

  datatype Currency = EGP | SAR

  /** Primary key of `restaurant_balances`. */
  datatype Account = Account(restaurantId: nat, currency: Currency)

  datatype PaymentMethod = Online | Cod

  datatype OrderStatus =
    | PendingPayment | Placed | Accepted | Rejected | Preparing
    | Ready | Assigned | Picked | Delivered | Cancelled

  /** The columns of an order that no statement ever updates. */
  datatype Terms = Terms(
    customerId: nat,
    restaurantId: nat,
    currency: Currency,
    payment: PaymentMethod,
    subtotal: int,
    deliveryFee: int,
    total: int,
    createdAt: nat)
  {
    function Payee(): Account { Account(restaurantId, currency) }
  }

  /** `accepted` says whether `accepted_at` has been stamped. */
  datatype Order = Order(
    terms: Terms,
    status: OrderStatus,
    accepted: bool,
    agentId: Option<AgentId>,
    reassignments: nat)

  datatype TxKind = Charge | CodCollection | Commission | Refund | Payout | Adjustment
  datatype TxStatus = Pending | Succeeded | Failed | Reversed

  datatype Transaction = Transaction(
    orderId: Option<OrderId>,
    kind: TxKind,
    status: TxStatus,
    amount: int,
    currency: Currency,
    source: Option<nat>,
    destination: Option<nat>,
    refundedBy: Option<TxId>)
  {
    predicate IsRefunded() { refundedBy.Some? }
  }

  datatype Balance = Balance(pending: int, available: int, totalEarned: int)

  datatype DeliveryStatus = Assigned | Accepted | Rejected | Picked | Delivered | Cancelled | Reassigned

  datatype Delivery = Delivery(
    orderId: OrderId,
    agentId: AgentId,
    status: DeliveryStatus,
    earning: Option<int>)
  {
    predicate Active() { status.Assigned? || status.Accepted? || status.Picked? }
  }

  datatype Earning = Earning(
    agentId: AgentId,
    orderId: OrderId,
    deliveryId: DeliveryId,
    amount: int,
    currency: Currency)

  /** What a row of `outbox` announces. */
  datatype Event =
    | OrderPlaced(orderId: OrderId)
    | PaymentCompleted(orderId: OrderId, txId: TxId, amount: int)
    | OrderDelivered(orderId: OrderId, agentId: AgentId)
    | StatusChanged(orderId: OrderId, status: OrderStatus)
    | OrderCancelled(orderId: OrderId)

  datatype Role = Customer | RestaurantUser | DeliveryAgent | SystemAdmin

  datatype Error =
    | ValidationFailed | AddressNotFound | OutOfStock | MixedRestaurants
    | OrderNotFound | Forbidden | OrderNotPayable | ProviderUnavailable
    | TransactionNotFound | PaymentAlreadyCompleted | NoAssociatedOrder
    | InsufficientBalance | ConstraintViolated
    | OrderAccessDenied | OrderAlreadyFinalized | InvalidStatusTransition
    | CancellationWindowExpired | ReasonRequired
    | OrderNotReady | OrderAlreadyHasActiveDelivery | AgentInActiveDelivery
    | NoEligibleAgents | MaxReassignmentsReached | NoActiveDelivery
    | DeliveryNotFound | DeliveryNotOwned | InvalidDeliveryTransition
    | PaymentNotSettled | DatabaseFault

  datatype Result<+T> = Ok(value: T) | Err(error: Error)

  /** Deployment settings the services read. */
  datatype Config = Config(maxReassignments: nat, earningShareBps: nat)

  const BPS: int := 10_000

  ghost predicate ValidConfig(cfg: Config) { cfg.earningShareBps <= BPS }

  /**
   * The tables of the shard, and the two presence keys of Redis. A row's id is its position;
   * `events` maps a webhook event id to whether `processed_at` is stamped.
   */
  datatype State = State(
    orders: seq<Order>,
    txs: seq<Transaction>,
    events: map<EventId, bool>,
    balances: map<Account, Balance>,
    deliveries: seq<Delivery>,
    earnings: seq<Earning>,
    outbox: seq<Event>,
    busy: set<AgentId>,
    online: set<AgentId>)

  const EMPTY: State := State([], [], map[], map[], [], [], [], {}, {})

  /** The answer of a request together with the state it leaves. */
  datatype Outcome<+T> = Outcome(state: State, reply: Result<T>)
}
