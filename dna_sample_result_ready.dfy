/**
 * `DnaSampleResultReadyCommandHandler`: a lab published a sample's result.
 * The handler only notifies the customer; it has no try/catch, so a
 * failing insert reaches its caller.
 */
module DnaSampleResultReady {
  import opened Wrappers
  import opened Records
  import opened Sinks

  datatype DnaSample = DnaSample(orderId: string, ownerId: string)

  datatype Command = Command(dnaSample: DnaSample)

  /** The customer's notification; it carries no block number. */
  function ResultNotification(sample: DnaSample, now: Timestamp): Notification
  {
    Notification(
      role := "Customer",
      entity_type := "Genetic Testing Tracking",
      entity := "Order Fulfilled",
      description := "Your test results for " + sample.orderId
                     + " are out. Click here to see your order details.",
      read := false,
      created_at := now,
      updated_at := now,
      deleted_at := None,
      from := "Debio Network",
      to := sample.ownerId,
      block_number := "")
  }

  /** `execute(command)` on the stores `s` at clock reading `now`. */
  function Apply(s: State, cmd: Command, now: Timestamp, fault: Option<Step>): (r: Run)
    ensures r.state.ledger == s.ledger && r.state.emails == s.emails
    ensures r.state.labs == s.labs && r.state.services == s.services
  {
    if Throws(fault, InsertNotification) then Run(s, Some(StoreError(InsertNotification)))
    else Run(s.(notifications := s.notifications + [ResultNotification(cmd.dnaSample, now)]), None)
  }

  /**
   * `execute(command)`; `raised` is the error that propagates to the
   * caller.
   */
  method Execute(sinks: Stores, command: Command, now: Timestamp, fault: Option<Step>)
    returns (raised: Option<Failure>)
    modifies sinks
    ensures sinks.Snapshot() == Apply(old(sinks.Snapshot()), command, now, fault).state
    ensures raised == Apply(old(sinks.Snapshot()), command, now, fault).error
  {
    var dnaSample := command.dnaSample;
    var currDateTime := now;
    var testResultNotification := ResultNotification(dnaSample, currDateTime);
    if Throws(fault, InsertNotification) { return Some(StoreError(InsertNotification)); }
    sinks.Insert(testResultNotification);
    return None;
  }

  /**
   * Each execution appends exactly one notification to the sample's
   * owner, stamped with the one clock reading and no block number; a
   * failing insert appends nothing and is raised to the caller.
   */
  lemma OneNotification(s: State, cmd: Command, now: Timestamp, fault: Option<Step>)
    ensures var r := Apply(s, cmd, now, fault);
      && (r.error.None? <==> !Throws(fault, InsertNotification))
      && (r.error.Some? ==> r.state == s && r.error == Some(StoreError(InsertNotification)))
      && (r.error.None? ==>
            && r.state == s.(notifications := r.state.notifications)
            && |r.state.notifications| == |s.notifications| + 1
            && r.state.notifications[..|s.notifications|] == s.notifications
            && var n := r.state.notifications[|s.notifications|];
            && n.role == "Customer"
            && n.entity_type == "Genetic Testing Tracking"
            && n.entity == "Order Fulfilled"
            && n.description == "Your test results for " + cmd.dnaSample.orderId
                                + " are out. Click here to see your order details."
            && n.from == "Debio Network"
            && n.to == cmd.dnaSample.ownerId
            && n.block_number == ""
            && !n.read
            && n.deleted_at.None?
            && n.created_at == n.updated_at == now)
  {
  }
}
