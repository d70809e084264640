/**
 * `GeneticAnalysisOrderPaidHandler`: a customer paid a genetic-analysis
 * order.  The first delivery writes a payment entry to the ledger; every
 * delivery that gets past the ledger step notifies the analyst.  One
 * try/catch covers the lookups, the entry and the insert.
 */
module GeneticAnalysisOrderPaid {
  import opened Wrappers
  import opened Text
  import opened Records
  import opened Sinks

  /** Ledger status and type of a paid genetic-analysis order. */
  const PaidStatus: nat := 14
  const PaymentType: nat := 3

  datatype Price = Price(value: int)

  /** The fields of a `normalize()`d order the handler reads. */
  datatype Order = Order(
    id: string,
    customerId: string,
    sellerId: string,
    geneticAnalysisTrackingId: string,
    prices: seq<Price>,
    currency: string,
    updatedAt: Timestamp)

  datatype Command = Command(order: Order, blockNumber: nat)

  /**
   * What `getLoggingByOrderId` resolves to: no record (reading its `id`
   * throws), or a record whose `id` may be absent.
   */
  datatype History = NoHistory | HistoryRecord(id: Option<nat>)

  /** The handler's other inputs: the history lookup and the clock. */
  datatype Env = Env(history: History, now: Timestamp)

  /** `BigInt(history.id ?? 0)`. */
  function ParentId(id: Option<nat>): nat
  {
    if id.Some? then id.value else 0
  }

  /** The ledger entry built inside the branch for a first payment. */
  function OrderLogging(order: Order, historyId: Option<nat>): Entry
    requires |order.prices| > 0
  {
    Entry(
      address := order.customerId,
      amount := order.prices[0].value,
      created_at := order.updatedAt,
      currency := UpperCase(order.currency),
      parent_id := ParentId(historyId),
      ref_number := order.id,
      transaction_status := PaidStatus,
      transaction_type := PaymentType)
  }

  /** The analyst's notification. */
  function NewOrderNotification(order: Order, blockNumber: string, now: Timestamp): Notification
  {
    Notification(
      role := "GA",
      entity_type := "Genetic Analyst",
      entity := "New Order",
      description := "A new order " + order.geneticAnalysisTrackingId + " is awaiting process.",
      read := false,
      created_at := now,
      updated_at := now,
      deleted_at := None,
      from := "Debio Network",
      to := order.sellerId,
      block_number := blockNumber)
  }

  /** Both lookups succeed and the ledger has no `(id, 14)` entry. */
  predicate FirstSeen(s: State, cmd: Command, fault: Option<Step>)
  {
    && !Throws(fault, GetLoggingByHashAndStatus)
    && !Throws(fault, GetLoggingByOrderId)
    && FindEntry(s.ledger, cmd.order.id, PaidStatus).None?
  }

  /** The entry can be built (a first price and a history record exist) and stored. */
  predicate EntryStored(cmd: Command, env: Env, fault: Option<Step>)
  {
    && |cmd.order.prices| > 0
    && env.history.HistoryRecord?
    && !Throws(fault, CreateLogging)
  }

  /** `execute(command)` on the stores `s`, the call named by `fault` throwing. */
  function Apply(s: State, cmd: Command, env: Env, fault: Option<Step>): (r: Run)
    ensures r.state.labs == s.labs && r.state.services == s.services && r.state.emails == s.emails
    ensures s.ledger <= r.state.ledger && |r.state.ledger| <= |s.ledger| + 1
    ensures s.notifications <= r.state.notifications && |r.state.notifications| <= |s.notifications| + 1
  {
    var order := cmd.order;
    if Throws(fault, GetLoggingByHashAndStatus) then
      Run(s, Some(StoreError(GetLoggingByHashAndStatus)))
    else if Throws(fault, GetLoggingByOrderId) then
      Run(s, Some(StoreError(GetLoggingByOrderId)))
    else
      var gate :=
        if FindEntry(s.ledger, order.id, PaidStatus).Some? then Run(s, None)
        else if |order.prices| == 0 then Run(s, Some(TypeError(FirstPrice)))
        else if env.history.NoHistory? then Run(s, Some(TypeError(HistoryId)))
        else if Throws(fault, CreateLogging) then Run(s, Some(StoreError(CreateLogging)))
        else Run(s.(ledger := s.ledger + [OrderLogging(order, env.history.id)]), None);
      if gate.error.Some? then gate
      else if Throws(fault, InsertNotification) then
        Run(gate.state, Some(StoreError(InsertNotification)))
      else
        var n := NewOrderNotification(order, NatToString(cmd.blockNumber), env.now);
        Run(gate.state.(notifications := gate.state.notifications + [n]), None)
  }

  /**
   * `execute(command)`: the error thrown inside the try block is logged
   * and returned here; `execute` itself always returns normally.
   */
  method Execute(sinks: Stores, command: Command, env: Env, fault: Option<Step>)
    returns (logged: Option<Failure>)
    modifies sinks
    ensures sinks.Snapshot() == Apply(old(sinks.Snapshot()), command, env, fault).state
    ensures logged == Apply(old(sinks.Snapshot()), command, env, fault).error
  {
    var geneticAnalysisOrder := command.order;
    var blockNumber := NatToString(command.blockNumber);

    if Throws(fault, GetLoggingByHashAndStatus) {
      return Some(StoreError(GetLoggingByHashAndStatus));
    }
    var isGeneticAnalysisOrderHasBeenInsert :=
      FindEntry(sinks.ledger, geneticAnalysisOrder.id, PaidStatus);
    if Throws(fault, GetLoggingByOrderId) {
      return Some(StoreError(GetLoggingByOrderId));
    }
    var geneticAnalysisOrderHistory := env.history;

    if isGeneticAnalysisOrderHasBeenInsert.None? {
      if |geneticAnalysisOrder.prices| == 0 { return Some(TypeError(FirstPrice)); }
      if geneticAnalysisOrderHistory.NoHistory? { return Some(TypeError(HistoryId)); }
      var geneticAnalysisOrderLogging :=
        OrderLogging(geneticAnalysisOrder, geneticAnalysisOrderHistory.id);
      if Throws(fault, CreateLogging) { return Some(StoreError(CreateLogging)); }
      sinks.Create(geneticAnalysisOrderLogging);
    }

    var currDateTime := env.now;
    var notificationNewOrderGeneticAnalyst :=
      NewOrderNotification(geneticAnalysisOrder, blockNumber, currDateTime);
    if Throws(fault, InsertNotification) { return Some(StoreError(InsertNotification)); }
    sinks.Insert(notificationNewOrderGeneticAnalyst);
    return None;
  }

  // ---------------------------------------------------------------------
  // Properties of one delivery

  /**
   * The idempotency gate: the ledger gains the payment entry exactly when
   * no `(id, 14)` entry exists and nothing before the create throws;
   * otherwise it is unchanged.
   */
  lemma LedgerGate(s: State, cmd: Command, env: Env, fault: Option<Step>)
    ensures var r := Apply(s, cmd, env, fault);
      && (r.state.ledger != s.ledger <==> FirstSeen(s, cmd, fault) && EntryStored(cmd, env, fault))
      && (r.state.ledger != s.ledger ==>
            r.state.ledger == s.ledger + [OrderLogging(cmd.order, env.history.id)])
  {
  }

  /**
   * The entry written: the customer pays the first price in the order's
   * currency, upper-cased, under key `(id, 14)` with type 3; its parent is
   * the history record's id, or 0 when that id is absent.
   */
  lemma PaymentEntryWritten(s: State, cmd: Command, env: Env, fault: Option<Step>)
    requires Apply(s, cmd, env, fault).state.ledger != s.ledger
    ensures var l := Apply(s, cmd, env, fault).state.ledger;
      var order := cmd.order;
      var e := l[|l| - 1];
      && |l| == |s.ledger| + 1 && |order.prices| > 0 && env.history.HistoryRecord?
      && e.address == order.customerId
      && e.amount == order.prices[0].value
      && e.created_at == order.updatedAt
      && e.currency == UpperCase(order.currency)
      && (forall i :: 0 <= i < |e.currency| ==> !IsLower(e.currency[i]))
      && e.parent_id == (if env.history.id.Some? then env.history.id.value else 0)
      && e.ref_number == order.id
      && e.transaction_status == 14
      && e.transaction_type == 3
  {
    LedgerGate(s, cmd, env, fault);
  }

  /**
   * Every execution that gets past the ledger step and whose insert does
   * not throw adds one notification to the analyst; one that throws adds
   * none.
   */
  lemma NotificationUnlessFailed(s: State, cmd: Command, env: Env, fault: Option<Step>)
    ensures var r := Apply(s, cmd, env, fault);
      var order := cmd.order;
      && (r.error.Some? ==> r.state.notifications == s.notifications)
      && (r.error.None? ==>
            && |r.state.notifications| == |s.notifications| + 1
            && var n := r.state.notifications[|s.notifications|];
            && n.role == "GA"
            && n.entity_type == "Genetic Analyst"
            && n.entity == "New Order"
            && n.description == "A new order " + order.geneticAnalysisTrackingId + " is awaiting process."
            && n.from == "Debio Network"
            && n.to == order.sellerId
            && n.block_number == NatToString(cmd.blockNumber)
            && !n.read
            && n.deleted_at.None?
            && n.created_at == n.updated_at == env.now)
      && (r.error.None? <==>
            && !Throws(fault, GetLoggingByHashAndStatus)
            && !Throws(fault, GetLoggingByOrderId)
            && (FindEntry(s.ledger, order.id, PaidStatus).None? ==> EntryStored(cmd, env, fault))
            && !Throws(fault, InsertNotification))
  {
  }

  /**
   * A throw in either lookup or in building or storing the entry is logged
   * and swallowed, and nothing at all is written.
   */
  lemma FailuresSwallowed(s: State, cmd: Command, env: Env, fault: Option<Step>)
    ensures var r := Apply(s, cmd, env, fault);
      && (Throws(fault, GetLoggingByHashAndStatus) ==>
            r == Run(s, Some(StoreError(GetLoggingByHashAndStatus))))
      && (Throws(fault, GetLoggingByOrderId) ==>
            r == Run(s, Some(StoreError(GetLoggingByOrderId))))
      && (FirstSeen(s, cmd, fault) && |cmd.order.prices| == 0 ==>
            r == Run(s, Some(TypeError(FirstPrice))))
      && (FirstSeen(s, cmd, fault) && |cmd.order.prices| > 0 && env.history.NoHistory? ==>
            r == Run(s, Some(TypeError(HistoryId))))
      && (FirstSeen(s, cmd, fault) && Throws(fault, CreateLogging) ==>
            r.state == s && r.error.Some?)
  {
  }

  /** The ledger invariant (one entry per key) survives every delivery. */
  lemma KeepsKeysUnique(s: State, cmd: Command, env: Env, fault: Option<Step>)
    requires KeysUnique(s.ledger)
    ensures KeysUnique(Apply(s, cmd, env, fault).state.ledger)
  {
    LedgerGate(s, cmd, env, fault);
    if FirstSeen(s, cmd, fault) && EntryStored(cmd, env, fault) {
      AppendAbsentKeepsUnique(s.ledger, OrderLogging(cmd.order, env.history.id));
    }
  }

  // ---------------------------------------------------------------------
  // Redelivery

  /** Once the key is in the ledger, a delivery only adds a notification. */
  lemma AlreadyLoggedOnlyNotifies(s: State, cmd: Command, env: Env)
    requires FindEntry(s.ledger, cmd.order.id, PaidStatus).Some?
    ensures Apply(s, cmd, env, None) ==
      Run(s.(notifications := s.notifications
               + [NewOrderNotification(cmd.order, NatToString(cmd.blockNumber), env.now)]), None)
  {
  }

  /** A fault-free first delivery writes the entry and the notification. */
  lemma FirstDelivery(s: State, cmd: Command, env: Env)
    requires FindEntry(s.ledger, cmd.order.id, PaidStatus).None?
    requires |cmd.order.prices| > 0 && env.history.HistoryRecord?
    ensures Apply(s, cmd, env, None).state ==
      s.(ledger := s.ledger + [OrderLogging(cmd.order, env.history.id)],
         notifications := s.notifications
           + [NewOrderNotification(cmd.order, NatToString(cmd.blockNumber), env.now)])
  {
  }

  /** `n` fault-free deliveries of the same command. */
  ghost function Redeliver(s: State, cmd: Command, env: Env, n: nat): State
    decreases n
  {
    if n == 0 then s else Redeliver(Apply(s, cmd, env, None).state, cmd, env, n - 1)
  }

  /** Deliveries after the first leave the ledger as it is and each adds a notification. */
  lemma {:induction false} AlreadyLoggedRedelivery(s: State, cmd: Command, env: Env, n: nat)
    requires FindEntry(s.ledger, cmd.order.id, PaidStatus).Some?
    ensures var t := Redeliver(s, cmd, env, n);
      t.ledger == s.ledger && |t.notifications| == |s.notifications| + n
    decreases n
  {
    if n > 0 {
      AlreadyLoggedOnlyNotifies(s, cmd, env);
      AlreadyLoggedRedelivery(Apply(s, cmd, env, None).state, cmd, env, n - 1);
    }
  }

  /**
   * `n >= 1` successful deliveries of the same order give one `(id, 14)`
   * entry, the payment entry, and `n` notifications.
   */
  lemma RedeliveryIdempotent(s: State, cmd: Command, env: Env, n: nat)
    requires n >= 1
    requires CountKey(s.ledger, cmd.order.id, PaidStatus) == 0
    requires |cmd.order.prices| > 0 && env.history.HistoryRecord?
    ensures var t := Redeliver(s, cmd, env, n);
      && t.ledger == s.ledger + [OrderLogging(cmd.order, env.history.id)]
      && CountKey(t.ledger, cmd.order.id, PaidStatus) == 1
      && |t.notifications| == |s.notifications| + n
  {
    var order := cmd.order;
    CountKeyZero(s.ledger, order.id, PaidStatus);
    var s1 := Apply(s, cmd, env, None).state;
    FirstDelivery(s, cmd, env);
    assert Redeliver(s, cmd, env, n) == Redeliver(s1, cmd, env, n - 1);
    CountKeyAppend(s.ledger, OrderLogging(order, env.history.id), order.id, PaidStatus);
    CountKeyZero(s1.ledger, order.id, PaidStatus);
    AlreadyLoggedRedelivery(s1, cmd, env, n - 1);
  }
}
