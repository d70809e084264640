/**
 * `ServiceRequestCreatedHandler`: a customer staked tokens on a service
 * request.  The first delivery of the event writes a staking entry to the
 * ledger and emails the operators; every delivery that gets that far also
 * notifies the customer.  One try/catch covers all the store calls.
 */
module ServiceRequestCreated {
  import opened Wrappers
  import opened Text
  import opened Records
  import opened Sinks

  /** Ledger status and type of a service-request staking. */
  const StakingStatus: nat := 7
  const StakingType: nat := 2
  /** The network's token. */
  const Dbio := "DBIO"

  /** The fields of a service request the handler reads. */
  datatype Request = Request(
    hash: string,
    requesterAddress: string,
    stakingAmount: int,
    createdAt: Timestamp,
    serviceCategory: string,
    country: string,
    region: string,
    city: string)

  /**
   * The command: the request as delivered (read by the email step), its
   * `normalize()`d form (read by `execute`) and the block number.
   */
  datatype Command = Command(request: Request, normalized: Request, blockNumber: nat)

  /**
   * What a country or state lookup resolves to: no record (reading its
   * `name` throws), or a record whose name may be empty (`""` stands for
   * every falsy name).
   */
  datatype Location = NoRecord | Record(name: string)

  /** The handler's other inputs: the two lookups, the `EMAILS` secret and the clock. */
  datatype Env = Env(country: Location, state: Location, emailsSecret: string, now: Timestamp)

  /** The ledger entry `execute` builds before its try block. */
  function StakingLogging(req: Request): Entry
  {
    Entry(
      address := req.requesterAddress,
      amount := req.stakingAmount,
      created_at := req.createdAt,
      currency := Dbio,
      parent_id := 0,
      ref_number := req.hash,
      transaction_status := StakingStatus,
      transaction_type := StakingType)
  }

  /** The customer's notification. */
  function RequestNotification(req: Request, blockNumber: string, now: Timestamp): Notification
  {
    Notification(
      role := "Customer",
      entity_type := "Request Service Staking",
      entity := "Requested Service Created",
      description := "You've successfully submitted your requested service with staking ID " + req.hash + ".",
      read := false,
      created_at := now,
      updated_at := now,
      deleted_at := None,
      from := "Debio Network",
      to := req.requesterAddress,
      block_number := blockNumber)
  }

  /** JavaScript's `name || fallback` on strings. */
  function OrElse(name: string, fallback: string): string
  {
    if name == "" then fallback else name
  }

  /** The email's template context. */
  function StakingContext(req: Request, countryName: string, stateName: string): EmailContext
  {
    EmailContext(
      service_name := req.serviceCategory,
      public_address := req.requesterAddress,
      country := OrElse(countryName, req.country),
      state := OrElse(stateName, req.region),
      city := req.city,
      amount := req.stakingAmount,
      currency := Dbio)
  }

  /** `getSecret('EMAILS').split(',')`. */
  function Recipients(secret: string): (r: seq<string>)
    ensures |r| >= 1
    ensures forall k :: 0 <= k < |r| ==> ',' !in r[k]
  {
    Split(secret, ',')
  }

  /** The recipient list is exactly the comma-separated secret. */
  lemma RecipientsRoundTrip(secret: string, addresses: seq<string>)
    ensures Join(Recipients(secret), ',') == secret
    ensures |addresses| >= 1 && (forall k :: 0 <= k < |addresses| ==> ',' !in addresses[k])
      ==> Recipients(Join(addresses, ',')) == addresses
  {
    JoinSplit(secret, ',');
    if |addresses| >= 1 && (forall k :: 0 <= k < |addresses| ==> ',' !in addresses[k]) {
      SplitJoin(addresses, ',');
    }
  }

  /** The email that `_sendEmailNotificationServiceRequestCreated` hands to the mailer. */
  function StakingEmail(req: Request, env: Env): Email
    requires env.country.Record? && env.state.Record?
  {
    Email(Recipients(env.emailsSecret), StakingContext(req, env.country.name, env.state.name))
  }

  /** The email step can fail anywhere before the mailer accepts the email. */
  predicate EmailGoesOut(env: Env, fault: Option<Step>)
  {
    && !Throws(fault, GetCountry) && env.country.Record?
    && !Throws(fault, GetState) && env.state.Record?
    && !Throws(fault, SendEmail)
  }

  /**
   * `_sendEmailNotificationServiceRequestCreated(command)`: look up the
   * country, then the state, then hand the email to the mailer.
   */
  function SendEmailStep(s: State, req: Request, env: Env, fault: Option<Step>): (r: Run)
    ensures r.error.None? <==> EmailGoesOut(env, fault)
    ensures r.state == if EmailGoesOut(env, fault) then s.(emails := s.emails + [StakingEmail(req, env)]) else s
  {
    if Throws(fault, GetCountry) then Run(s, Some(StoreError(GetCountry)))
    else if env.country.NoRecord? then Run(s, Some(TypeError(CountryName)))
    else if Throws(fault, GetState) then Run(s, Some(StoreError(GetState)))
    else if env.state.NoRecord? then Run(s, Some(TypeError(StateName)))
    else if Throws(fault, SendEmail) then Run(s, Some(StoreError(SendEmail)))
    else Run(s.(emails := s.emails + [StakingEmail(req, env)]), None)
  }

  /** The ledger lookup succeeds and finds no entry for the request's key. */
  predicate FirstSeen(s: State, cmd: Command, fault: Option<Step>)
  {
    && !Throws(fault, GetLoggingByHashAndStatus)
    && FindEntry(s.ledger, cmd.normalized.hash, StakingStatus).None?
  }

  /** `execute(command)` on the stores `s`, the call named by `fault` throwing. */
  function Apply(s: State, cmd: Command, env: Env, fault: Option<Step>): (r: Run)
    ensures r.state.labs == s.labs && r.state.services == s.services
    ensures s.ledger <= r.state.ledger && |r.state.ledger| <= |s.ledger| + 1
    ensures s.emails <= r.state.emails && |r.state.emails| <= |s.emails| + 1
    ensures s.notifications <= r.state.notifications && |r.state.notifications| <= |s.notifications| + 1
  {
    var req := cmd.normalized;
    if Throws(fault, GetLoggingByHashAndStatus) then
      Run(s, Some(StoreError(GetLoggingByHashAndStatus)))
    else
      var gate :=
        if FindEntry(s.ledger, req.hash, StakingStatus).Some? then Run(s, None)
        else if Throws(fault, CreateLogging) then Run(s, Some(StoreError(CreateLogging)))
        else SendEmailStep(s.(ledger := s.ledger + [StakingLogging(req)]), cmd.request, env, fault);
      if gate.error.Some? then gate
      else if Throws(fault, InsertNotification) then
        Run(gate.state, Some(StoreError(InsertNotification)))
      else
        var n := RequestNotification(req, NatToString(cmd.blockNumber), env.now);
        Run(gate.state.(notifications := gate.state.notifications + [n]), None)
  }

  /** The email step of the handler, on the live stores. */
  method SendEmailNotification(sinks: Stores, request: Request, env: Env, fault: Option<Step>)
    returns (raised: Option<Failure>)
    modifies sinks
    ensures sinks.Snapshot() == SendEmailStep(old(sinks.Snapshot()), request, env, fault).state
    ensures raised == SendEmailStep(old(sinks.Snapshot()), request, env, fault).error
  {
    if Throws(fault, GetCountry) { return Some(StoreError(GetCountry)); }
    if env.country.NoRecord? { return Some(TypeError(CountryName)); }
    var countryName := env.country.name;
    if Throws(fault, GetState) { return Some(StoreError(GetState)); }
    if env.state.NoRecord? { return Some(TypeError(StateName)); }
    var regionName := env.state.name;
    var context := StakingContext(request, countryName, regionName);
    if Throws(fault, SendEmail) { return Some(StoreError(SendEmail)); }
    sinks.Send(Email(Recipients(env.emailsSecret), context));
    return None;
  }

  /**
   * `execute(command)`: the error thrown inside the try block is logged
   * and returned here; `execute` itself always returns normally.
   */
  method Execute(sinks: Stores, command: Command, env: Env, fault: Option<Step>)
    returns (logged: Option<Failure>)
    modifies sinks
    ensures sinks.Snapshot() == Apply(old(sinks.Snapshot()), command, env, fault).state
    ensures logged == Apply(old(sinks.Snapshot()), command, env, fault).error
  {
    var serviceRequest := command.normalized;
    var blockNumber := NatToString(command.blockNumber);
    var stakingLogging := StakingLogging(serviceRequest);

    if Throws(fault, GetLoggingByHashAndStatus) {
      return Some(StoreError(GetLoggingByHashAndStatus));
    }
    var isServiceRequestHasBeenInsert := FindEntry(sinks.ledger, serviceRequest.hash, StakingStatus);
    if isServiceRequestHasBeenInsert.None? {
      if Throws(fault, CreateLogging) { return Some(StoreError(CreateLogging)); }
      sinks.Create(stakingLogging);
      var raised := SendEmailNotification(sinks, command.request, env, fault);
      if raised.Some? { return raised; }
    }

    var currDateTime := env.now;
    var notificationInput := RequestNotification(serviceRequest, blockNumber, currDateTime);
    if Throws(fault, InsertNotification) { return Some(StoreError(InsertNotification)); }
    sinks.Insert(notificationInput);
    return None;
  }

  // ---------------------------------------------------------------------
  // Properties of one delivery

  /**
   * The idempotency gate: the ledger gains the staking entry exactly when
   * the lookup finds no `(hash, 7)` entry and the create does not throw;
   * otherwise it is unchanged.
   */
  lemma LedgerGate(s: State, cmd: Command, env: Env, fault: Option<Step>)
    ensures var r := Apply(s, cmd, env, fault);
      r.state.ledger ==
        if FirstSeen(s, cmd, fault) && !Throws(fault, CreateLogging)
        then s.ledger + [StakingLogging(cmd.normalized)] else s.ledger
  {
  }

  /** The entry written is the request's staking: key `(hash, 7)`, type 2, DBIO, no parent. */
  lemma StakingEntryWritten(s: State, cmd: Command, env: Env, fault: Option<Step>)
    requires Apply(s, cmd, env, fault).state.ledger != s.ledger
    ensures var l := Apply(s, cmd, env, fault).state.ledger;
      var req := cmd.normalized;
      && |l| == |s.ledger| + 1
      && l[|s.ledger|].ref_number == req.hash
      && l[|s.ledger|].address == req.requesterAddress
      && l[|s.ledger|].amount == req.stakingAmount
      && l[|s.ledger|].created_at == req.createdAt
      && l[|s.ledger|].currency == "DBIO"
      && l[|s.ledger|].parent_id == 0
      && l[|s.ledger|].transaction_status == 7
      && l[|s.ledger|].transaction_type == 2
  {
    LedgerGate(s, cmd, env, fault);
  }

  /**
   * The confirmation email goes out only in the branch that just created
   * the ledger entry, and then it is addressed to the `EMAILS` list and
   * carries the staked amount in DBIO and the country and state names,
   * falling back to the raw codes when a name is empty.
   */
  lemma EmailOnlyAfterCreate(s: State, cmd: Command, env: Env, fault: Option<Step>)
    ensures var r := Apply(s, cmd, env, fault);
      && (r.state.emails != s.emails <==>
            FirstSeen(s, cmd, fault) && !Throws(fault, CreateLogging) && EmailGoesOut(env, fault))
      && (r.state.emails != s.emails ==>
            && r.state.ledger == s.ledger + [StakingLogging(cmd.normalized)]
            && r.state.emails == s.emails + [StakingEmail(cmd.request, env)])
  {
  }

  /** What the email says. */
  lemma EmailContents(req: Request, env: Env)
    requires env.country.Record? && env.state.Record?
    ensures var m := StakingEmail(req, env);
      && m.recipients == Split(env.emailsSecret, ',')
      && Join(m.recipients, ',') == env.emailsSecret
      && m.context.amount == req.stakingAmount
      && m.context.currency == "DBIO"
      && m.context.country == (if env.country.name == "" then req.country else env.country.name)
      && m.context.state == (if env.state.name == "" then req.region else env.state.name)
      && m.context.service_name == req.serviceCategory
      && m.context.public_address == req.requesterAddress
      && m.context.city == req.city
  {
    RecipientsRoundTrip(env.emailsSecret, []);
  }

  /**
   * Exactly one notification is appended when nothing throws, whether or
   * not the ledger branch ran; and none when something throws.
   */
  lemma NotificationUnlessFailed(s: State, cmd: Command, env: Env, fault: Option<Step>)
    ensures var r := Apply(s, cmd, env, fault);
      var req := cmd.normalized;
      && (r.error.Some? ==> r.state.notifications == s.notifications)
      && (r.error.None? ==>
            && |r.state.notifications| == |s.notifications| + 1
            && var n := r.state.notifications[|s.notifications|];
            && n.role == "Customer"
            && n.entity_type == "Request Service Staking"
            && n.entity == "Requested Service Created"
            && n.description == "You've successfully submitted your requested service with staking ID "
                                + req.hash + "."
            && n.from == "Debio Network"
            && n.to == req.requesterAddress
            && n.block_number == NatToString(cmd.blockNumber)
            && ParseDigits(n.block_number) == cmd.blockNumber
            && !n.read
            && n.deleted_at.None?
            && n.created_at == n.updated_at == env.now)
      && ((fault.None? && (!FirstSeen(s, cmd, fault) || (env.country.Record? && env.state.Record?)))
            ==> r.error.None?)
  {
    ParseNatToString(cmd.blockNumber);
    var r := Apply(s, cmd, env, fault);
    if r.error.None? {
      var n := RequestNotification(cmd.normalized, NatToString(cmd.blockNumber), env.now);
      assert r.state.notifications == s.notifications + [n];
    }
  }

  /**
   * A throw is logged and swallowed: the error is reported, no
   * notification is added, and the steps after the throw do not run.  A
   * failure of the email step keeps the ledger entry already written.
   */
  lemma FailuresSwallowed(s: State, cmd: Command, env: Env, fault: Option<Step>)
    ensures var r := Apply(s, cmd, env, fault);
      var created := s.(ledger := s.ledger + [StakingLogging(cmd.normalized)]);
      && (Throws(fault, GetLoggingByHashAndStatus) ==>
            r == Run(s, Some(StoreError(GetLoggingByHashAndStatus))))
      && (FirstSeen(s, cmd, fault) && Throws(fault, CreateLogging) ==>
            r == Run(s, Some(StoreError(CreateLogging))))
      && (FirstSeen(s, cmd, fault) && Throws(fault, GetCountry) ==>
            r == Run(created, Some(StoreError(GetCountry))))
      && (FirstSeen(s, cmd, fault) && !Throws(fault, CreateLogging) && env.country.NoRecord? ==>
            r.state == created && r.error.Some?)
      && (FirstSeen(s, cmd, fault) && env.country.Record? && Throws(fault, GetState) ==>
            r == Run(created, Some(StoreError(GetState))))
      && (FirstSeen(s, cmd, fault) && !Throws(fault, CreateLogging) && env.country.Record? && env.state.NoRecord? ==>
            r.state == created && r.error.Some?)
      && (FirstSeen(s, cmd, fault) && env.country.Record? && env.state.Record? && Throws(fault, SendEmail) ==>
            r == Run(created, Some(StoreError(SendEmail))))
      && (Throws(fault, InsertNotification) ==>
            r.error.Some? && r.state.notifications == s.notifications)
  {
  }

  /** The ledger invariant (one entry per key) survives every delivery. */
  lemma KeepsKeysUnique(s: State, cmd: Command, env: Env, fault: Option<Step>)
    requires KeysUnique(s.ledger)
    ensures KeysUnique(Apply(s, cmd, env, fault).state.ledger)
  {
    LedgerGate(s, cmd, env, fault);
    if FirstSeen(s, cmd, fault) && !Throws(fault, CreateLogging) {
      AppendAbsentKeepsUnique(s.ledger, StakingLogging(cmd.normalized));
    }
  }

  // ---------------------------------------------------------------------
  // Redelivery

  /** Once the key is in the ledger, a delivery only adds a notification. */
  lemma AlreadyLoggedOnlyNotifies(s: State, cmd: Command, env: Env)
    requires FindEntry(s.ledger, cmd.normalized.hash, StakingStatus).Some?
    ensures Apply(s, cmd, env, None) ==
      Run(s.(notifications := s.notifications
               + [RequestNotification(cmd.normalized, NatToString(cmd.blockNumber), env.now)]), None)
  {
  }

  /** `n` fault-free deliveries of the same command. */
  ghost function Redeliver(s: State, cmd: Command, env: Env, n: nat): State
    decreases n
  {
    if n == 0 then s else Redeliver(Apply(s, cmd, env, None).state, cmd, env, n - 1)
  }

  /**
   * Delivering the same event `n >= 1` times to a ledger without its key
   * leaves exactly one `(hash, 7)` entry, the staking entry, sends exactly
   * one email, the staking email, and adds `n` notifications.
   */
  lemma {:induction false} RedeliveryIdempotent(s: State, cmd: Command, env: Env, n: nat)
    requires n >= 1
    requires CountKey(s.ledger, cmd.normalized.hash, StakingStatus) == 0
    requires env.country.Record? && env.state.Record?
    ensures var t := Redeliver(s, cmd, env, n);
      && t.ledger == s.ledger + [StakingLogging(cmd.normalized)]
      && CountKey(t.ledger, cmd.normalized.hash, StakingStatus) == 1
      && t.emails == s.emails + [StakingEmail(cmd.request, env)]
      && |t.notifications| == |s.notifications| + n
  {
    var req := cmd.normalized;
    CountKeyZero(s.ledger, req.hash, StakingStatus);
    var s1 := Apply(s, cmd, env, None).state;
    FirstDelivery(s, cmd, env);
    assert Redeliver(s, cmd, env, n) == Redeliver(s1, cmd, env, n - 1);
    CountKeyAppend(s.ledger, StakingLogging(req), req.hash, StakingStatus);
    CountKeyZero(s1.ledger, req.hash, StakingStatus);
    AlreadyLoggedRedelivery(s1, cmd, env, n - 1);
  }

  /** A fault-free first delivery writes the entry, the email and the notification. */
  lemma FirstDelivery(s: State, cmd: Command, env: Env)
    requires FindEntry(s.ledger, cmd.normalized.hash, StakingStatus).None?
    requires env.country.Record? && env.state.Record?
    ensures Apply(s, cmd, env, None).state ==
      s.(ledger := s.ledger + [StakingLogging(cmd.normalized)],
         emails := s.emails + [StakingEmail(cmd.request, env)],
         notifications := s.notifications
           + [RequestNotification(cmd.normalized, NatToString(cmd.blockNumber), env.now)])
  {
  }

  /** Deliveries after the first leave ledger and outbox as they are. */
  lemma {:induction false} AlreadyLoggedRedelivery(s: State, cmd: Command, env: Env, n: nat)
    requires FindEntry(s.ledger, cmd.normalized.hash, StakingStatus).Some?
    ensures var t := Redeliver(s, cmd, env, n);
      t.ledger == s.ledger && t.emails == s.emails && |t.notifications| == |s.notifications| + n
    decreases n
  {
    if n > 0 {
      AlreadyLoggedOnlyNotifies(s, cmd, env);
      AlreadyLoggedRedelivery(Apply(s, cmd, env, None).state, cmd, env, n - 1);
    }
  }

  /**
   * An email lost to a failure after the ledger entry was written is never
   * sent: every later delivery finds the entry and skips the email step.
   */
  lemma LostEmailNotResent(s: State, cmd: Command, env: Env, fault: Option<Step>, n: nat)
    requires FirstSeen(s, cmd, fault) && !Throws(fault, CreateLogging) && !EmailGoesOut(env, fault)
    ensures Redeliver(Apply(s, cmd, env, fault).state, cmd, env, n).emails == s.emails
  {
    var s1 := Apply(s, cmd, env, fault).state;
    assert s1.ledger == s.ledger + [StakingLogging(cmd.normalized)];
    assert FindEntry(s1.ledger, cmd.normalized.hash, StakingStatus).Some? by {
      assert HasKey(s1.ledger[|s.ledger|], cmd.normalized.hash, StakingStatus);
    }
    AlreadyLoggedRedelivery(s1, cmd, env, n);
  }
}
