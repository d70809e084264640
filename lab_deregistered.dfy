/**
 * `LabDeregisteredHandler`: a lab left the network.  Its document is
 * deleted from the `labs` index, then every document of the `services`
 * index that it owns.  There is no try/catch: a failing delete reaches
 * the caller and the steps after it do not run.
 */
module LabDeregistered {
  import opened Wrappers
  import opened Records
  import opened Sinks

  datatype Lab = Lab(accountId: string)

  datatype Command = Command(labs: Lab)

  /** `execute(command)` on the stores `s`, the call named by `fault` throwing. */
  function Apply(s: State, cmd: Command, fault: Option<Step>): (r: Run)
    ensures r.state.ledger == s.ledger && r.state.notifications == s.notifications
    ensures r.state.emails == s.emails
  {
    var id := cmd.labs.accountId;
    if Throws(fault, DeleteLab) then Run(s, Some(StoreError(DeleteLab)))
    else
      var afterLabs := s.(labs := DeleteById(s.labs, id));
      if Throws(fault, DeleteServices) then Run(afterLabs, Some(StoreError(DeleteServices)))
      else Run(afterLabs.(services := DeleteByOwner(s.services, id)), None)
  }

  /** `execute(command)`; `raised` is the error that propagates to the caller. */
  method Execute(sinks: Stores, command: Command, fault: Option<Step>)
    returns (raised: Option<Failure>)
    modifies sinks
    ensures sinks.Snapshot() == Apply(old(sinks.Snapshot()), command, fault).state
    ensures raised == Apply(old(sinks.Snapshot()), command, fault).error
  {
    var lab := command.labs;
    if Throws(fault, DeleteLab) { return Some(StoreError(DeleteLab)); }
    sinks.DeleteLab(lab.accountId);
    if Throws(fault, DeleteServices) { return Some(StoreError(DeleteServices)); }
    sinks.DeleteServicesByOwner(lab.accountId);
    return None;
  }

  /**
   * Afterwards no lab document has the account's id and no service
   * document has it as `owner_id`; every other document is unchanged.
   */
  lemma Deregisters(s: State, cmd: Command, fault: Option<Step>)
    requires !Throws(fault, DeleteLab) && !Throws(fault, DeleteServices)
    ensures var r := Apply(s, cmd, fault);
      var id := cmd.labs.accountId;
      && r.error.None?
      && id !in r.state.labs
      && (forall k :: k in s.labs && k != id <==> k in r.state.labs)
      && (forall k :: k in r.state.labs ==> r.state.labs[k] == s.labs[k])
      && (forall k :: k in r.state.services ==> r.state.services[k].owner_id != id)
      && (forall k :: k in s.services && s.services[k].owner_id != id <==> k in r.state.services)
      && (forall k :: k in r.state.services ==> r.state.services[k] == s.services[k])
  {
  }

  /**
   * The lab deletion runs first: if it throws, nothing changes; if the
   * services deletion throws, only the lab document is gone.
   */
  lemma DeletionOrder(s: State, cmd: Command, fault: Option<Step>)
    ensures var r := Apply(s, cmd, fault);
      && (Throws(fault, DeleteLab) ==> r == Run(s, Some(StoreError(DeleteLab))))
      && (Throws(fault, DeleteServices) ==>
            && r.state.services == s.services
            && r.state.labs == DeleteById(s.labs, cmd.labs.accountId)
            && r.error == Some(StoreError(DeleteServices)))
  {
  }

  /** Deregistering the same lab twice leaves the indices as the first time did. */
  lemma Idempotent(s: State, cmd: Command)
    ensures var once := Apply(s, cmd, None).state;
      var twice := Apply(once, cmd, None).state;
      twice.labs == once.labs && twice.services == once.services
  {
  }
}
