/**
 * The stores the handlers write to, as one object: the transaction
 * ledger, the notification store, the mailer's outbox and the two search
 * indices.  Each method is one store call that succeeds.
 */
module Sinks {
  import opened Wrappers
  import opened Records

  /** A store call of a handler; a fault names the call that throws. */
  datatype Step =
    | GetLoggingByHashAndStatus
    | GetLoggingByOrderId
    | CreateLogging
    | GetCountry
    | GetState
    | SendEmail
    | InsertNotification
    | DeleteLab
    | DeleteServices

  /** A property read on `undefined` inside a handler. */
  datatype Access = CountryName | StateName | FirstPrice | HistoryId

  /** An error thrown inside a handler. */
  datatype Failure = StoreError(step: Step) | TypeError(access: Access)

  /** `fault` names the store call that throws, if that call is made. */
  predicate Throws(fault: Option<Step>, step: Step)
  {
    fault == Some(step)
  }

  /** The contents of all the stores. */
  datatype State = State(
    ledger: seq<Entry>,
    notifications: seq<Notification>,
    emails: seq<Email>,
    labs: map<string, LabDoc>,
    services: map<string, ServiceDoc>)

  /**
   * The outcome of one `execute`: the stores afterwards, and the error the
   * handler logged (for the handlers with a try/catch) or raised to its
   * caller (for the others).
   */
  datatype Run = Run(state: State, error: Option<Failure>)

  /** `delete({index, id})`: the document `id` is gone, the rest are kept. */
  function DeleteById<D>(docs: map<string, D>, id: string): (r: map<string, D>)
    ensures id !in r
    ensures forall k :: k in docs && k != id ==> k in r && r[k] == docs[k]
    ensures forall k :: k in r ==> k in docs
  {
    docs - {id}
  }

  /**
   * `deleteByQuery` matching `owner_id`: the documents of that owner are
   * gone, those of other owners are kept.
   */
  function DeleteByOwner(docs: map<string, ServiceDoc>, owner: string): (r: map<string, ServiceDoc>)
    ensures forall k :: k in r ==> k in docs && r[k] == docs[k] && r[k].owner_id != owner
    ensures forall k :: k in docs && docs[k].owner_id != owner ==> k in r
  {
    map k | k in docs && docs[k].owner_id != owner :: docs[k]
  }

  class Stores {
    var ledger: seq<Entry>
    var notifications: seq<Notification>
    var emails: seq<Email>
    var labs: map<string, LabDoc>
    var services: map<string, ServiceDoc>

    function Snapshot(): State
      reads this
    {
      State(ledger, notifications, emails, labs, services)
    }

    /** `loggingService.create(entry)`. */
    method Create(e: Entry)
      modifies this`ledger
      ensures ledger == old(ledger) + [e]
    {
      ledger := ledger + [e];
    }

    /** `notificationService.insert(notification)`. */
    method Insert(n: Notification)
      modifies this`notifications
      ensures notifications == old(notifications) + [n]
    {
      notifications := notifications + [n];
    }

    /** `mailerManager.sendCustomerStakingRequestServiceEmail(recipients, context)`. */
    method Send(m: Email)
      modifies this`emails
      ensures emails == old(emails) + [m]
    {
      emails := emails + [m];
    }

    /** `elasticsearchService.delete({index: 'labs', id})`. */
    method DeleteLab(id: string)
      modifies this`labs
      ensures labs == DeleteById(old(labs), id)
    {
      labs := DeleteById(labs, id);
    }

    /** `elasticsearchService.deleteByQuery` on `services`, matching `owner_id`. */
    method DeleteServicesByOwner(owner: string)
      modifies this`services
      ensures services == DeleteByOwner(old(services), owner)
    {
      services := DeleteByOwner(services, owner);
    }
  }
}
