/**
 * The records the handlers write: transaction-logging (ledger) entries,
 * notifications, confirmation emails and the search-index documents,
 * together with the ledger queries the handlers make.
 */
module Records {
  import opened Wrappers

  /** A clock reading or a record's own timestamp, kept abstract. */
  type Timestamp = int

  /** A transaction-logging row; `(ref_number, transaction_status)` is its key. */
  datatype Entry = Entry(
    address: string,
    amount: int,
    created_at: Timestamp,
    currency: string,
    parent_id: nat,
    ref_number: string,
    transaction_status: nat,
    transaction_type: nat)

  /** A user notification; `deleted_at == None` is the source's `null`. */
  datatype Notification = Notification(
    role: string,
    entity_type: string,
    entity: string,
    description: string,
    read: bool,
    created_at: Timestamp,
    updated_at: Timestamp,
    deleted_at: Option<Timestamp>,
    from: string,
    to: string,
    block_number: string)

  /** The template context of the "customer staking request service" email. */
  datatype EmailContext = EmailContext(
    service_name: string,
    public_address: string,
    country: string,
    state: string,
    city: string,
    amount: int,
    currency: string)

  /** One email handed to the mailer: its recipients and its context. */
  datatype Email = Email(recipients: seq<string>, context: EmailContext)

  /** A document of the `labs` index (keyed by the lab's account id). */
  datatype LabDoc = LabDoc(fields: map<string, string>)

  /** A document of the `services` index; `owner_id` is the owning lab. */
  datatype ServiceDoc = ServiceDoc(owner_id: string, fields: map<string, string>)

  predicate HasKey(e: Entry, ref: string, status: nat)
  {
    e.ref_number == ref && e.transaction_status == status
  }

  /**
   * `getLoggingByHashAndStatus(ref, status)`: an entry of the ledger filed
   * under the key, if there is one.
   */
  function FindEntry(ledger: seq<Entry>, ref: string, status: nat): (r: Option<Entry>)
    ensures r.Some? <==> exists i :: 0 <= i < |ledger| && HasKey(ledger[i], ref, status)
    ensures r.Some? ==> r.value in ledger && HasKey(r.value, ref, status)
    decreases |ledger|
  {
    if |ledger| == 0 then None
    else if HasKey(ledger[0], ref, status) then Some(ledger[0])
    else
      var r := FindEntry(ledger[1..], ref, status);
      assert forall i :: 1 <= i < |ledger| ==> ledger[i] == ledger[1..][i - 1];
      r
  }

  /** The number of ledger entries filed under a key. */
  function CountKey(ledger: seq<Entry>, ref: string, status: nat): nat
    decreases |ledger|
  {
    if |ledger| == 0 then 0
    else (if HasKey(ledger[0], ref, status) then 1 else 0) + CountKey(ledger[1..], ref, status)
  }

  /** The ledger invariant: no two entries share a key. */
  predicate KeysUnique(ledger: seq<Entry>)
  {
    forall i, j :: 0 <= i < j < |ledger| ==>
      !HasKey(ledger[j], ledger[i].ref_number, ledger[i].transaction_status)
  }

  lemma {:induction false} CountKeyAppend(ledger: seq<Entry>, e: Entry, ref: string, status: nat)
    ensures CountKey(ledger + [e], ref, status)
         == CountKey(ledger, ref, status) + (if HasKey(e, ref, status) then 1 else 0)
    decreases |ledger|
  {
    if |ledger| > 0 {
      assert (ledger + [e])[1..] == ledger[1..] + [e];
      CountKeyAppend(ledger[1..], e, ref, status);
    }
  }

  /** The lookup finds nothing exactly when no entry carries the key. */
  lemma {:induction false} CountKeyZero(ledger: seq<Entry>, ref: string, status: nat)
    ensures (CountKey(ledger, ref, status) == 0) == FindEntry(ledger, ref, status).None?
    decreases |ledger|
  {
    if |ledger| > 0 {
      CountKeyZero(ledger[1..], ref, status);
    }
  }

  /** Appending an entry whose key is absent keeps the keys unique. */
  lemma AppendAbsentKeepsUnique(ledger: seq<Entry>, e: Entry)
    requires KeysUnique(ledger)
    requires FindEntry(ledger, e.ref_number, e.transaction_status).None?
    ensures KeysUnique(ledger + [e])
  {
    var l := ledger + [e];
    forall i, j | 0 <= i < j < |l|
      ensures !HasKey(l[j], l[i].ref_number, l[i].transaction_status)
    {
      if j == |ledger| {
        assert !HasKey(ledger[i], e.ref_number, e.transaction_status);
      }
    }
  }

  /** Under the ledger invariant a key is filed at most once. */
  lemma {:induction false} UniqueCountAtMostOne(ledger: seq<Entry>, ref: string, status: nat)
    requires KeysUnique(ledger)
    ensures CountKey(ledger, ref, status) <= 1
    decreases |ledger|
  {
    if |ledger| > 0 {
      var tail := ledger[1..];
      assert KeysUnique(tail) by {
        forall i, j | 0 <= i < j < |tail|
          ensures !HasKey(tail[j], tail[i].ref_number, tail[i].transaction_status)
        {
          assert tail[i] == ledger[i + 1] && tail[j] == ledger[j + 1];
        }
      }
      UniqueCountAtMostOne(tail, ref, status);
      if HasKey(ledger[0], ref, status) {
        assert FindEntry(tail, ref, status).None?;
        CountKeyZero(tail, ref, status);
      }
    }
  }
}
