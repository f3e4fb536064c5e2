/**
 * The researcher's record marketplace (src/assets/pages/Researcher_records.jsx).
 *
 * The component's state is the fields of class `MarketplacePage`. The three `Set`s of
 * record ids are Dafny sets. `Date.now()` and the `Math.random()` draws are parameters.
 * The two `setTimeout` callbacks are steps of their own: `AcceptRequest` is the simulated
 * patient acceptance, and the success alert is left out.
 */
module ResearcherRecords {
  import opened Wrappers
  import opened JsValues

  /** A record as the page generates it. `date` is the millisecond time stamp that
      `toISOString` would format. */
  datatype MarketRecord = MarketRecord(id: nat, patient: string, kind: string, date: int, files: nat,
                                       notes: string, fileNames: seq<string>, price: nat)

  const RecordKinds: seq<string> := ["Medical Report", "MRI Scan", "X-ray", "Prescription", "Lab Test", "Ultrasound"]
  const FileExtensions: seq<string> := ["pdf", "png", "dcm", "doc"]
  const DayMillis: int := 86400000

  /** A value of `Math.random()`. */
  predicate IsDraw(r: real) { 0.0 <= r < 1.0 }

  /** `Math.floor(r * n) + base` for a draw `r`: one of `n` values from `base` on. */
  function Pick(r: real, n: nat, base: int): (v: int)
    requires IsDraw(r) && n > 0
    ensures base <= v < base + n
  {
    ScaledDraw(r, n);
    (r * n as real).Floor + base
  }

  /** `r * n` stays in `[0, n)`, one unit of `n` at a time. */
  lemma {:induction false} ScaledDraw(r: real, n: nat)
    requires IsDraw(r)
    ensures 0.0 <= r * n as real <= n as real
    ensures n > 0 ==> r * n as real < n as real
  {
    if n > 0 {
      ScaledDraw(r, n - 1);
      assert r * n as real == r * (n - 1) as real + r;
    }
  }

  /** `medical_file_<j+1>.<ext>`, the extension cycling through four. */
  function FileName(j: nat): string {
    "medical_file_" + NatToString(j + 1) + "." + FileExtensions[j % 4]
  }

  /** The `count` file names of a record. */
  function FileNames(count: nat): (names: seq<string>)
    ensures |names| == count && forall j :: 0 <= j < count ==> names[j] == FileName(j)
  {
    seq(count, j requires 0 <= j < count => FileName(j))
  }

  /** The fixed notes text of record `i`. */
  function Notes(i: nat): string {
    NotesHead + NatToString(i + 1) + NotesTail
  }

  const NotesHead: string := "Medical record containing diagnostic information and treatment details for patient "
  const NotesTail: string := ". This includes comprehensive health data, diagnostic results, and recommended treatments."

  /** Record `i` of the generated list, from its three draws (files, file-name count, price). */
  function DummyRecord(i: nat, now: int, filesDraw: real, namesDraw: real, priceDraw: real): (r: MarketRecord)
    requires IsDraw(filesDraw) && IsDraw(namesDraw) && IsDraw(priceDraw)
    ensures r.id == i + 1 && r.kind == RecordKinds[i % 6] && r.date == now - i * DayMillis
    ensures 1 <= r.files <= 5 && 2 <= |r.fileNames| <= 5 && 10 <= r.price <= 59
    ensures r.price == (priceDraw * 50.0).Floor + 10
    ensures forall j :: 0 <= j < |r.fileNames| ==> r.fileNames[j] == FileName(j)
  {
    MarketRecord(i + 1, "Patient " + NatToString(i + 1), RecordKinds[i % 6], now - i * DayMillis,
                 Pick(filesDraw, 5, 1), Notes(i), FileNames(Pick(namesDraw, 4, 2)), Pick(priceDraw, 50, 10))
  }

  /** The 30 generated records, drawing three random numbers per record in order. */
  function DummyRecords(now: int, draws: seq<real>): (rs: seq<MarketRecord>)
    requires |draws| == 90 && forall k :: 0 <= k < |draws| ==> IsDraw(draws[k])
    ensures |rs| == 30
    ensures forall i :: 0 <= i < 30 ==>
      rs[i].id == i + 1 && rs[i].kind == RecordKinds[i % 6] && 10 <= rs[i].price <= 59 && 1 <= rs[i].files <= 5
  {
    seq(30, i requires 0 <= i < 30 => DummyRecord(i, now, draws[3 * i], draws[3 * i + 1], draws[3 * i + 2]))
  }

  /** Generated ids are distinct. */
  lemma DummyIdsDistinct(now: int, draws: seq<real>, i: nat, j: nat)
    requires |draws| == 90 && forall k :: 0 <= k < |draws| ==> IsDraw(draws[k])
    requires i < j < 30
    ensures DummyRecords(now, draws)[i].id != DummyRecords(now, draws)[j].id
  {
  }

  /** The search box: the lower-cased term occurs in the lower-cased patient name or type. */
  predicate MatchesSearch(r: MarketRecord, term: string) {
    Includes(ToLower(r.patient), ToLower(term)) || Includes(ToLower(r.kind), ToLower(term))
  }

  /** `filteredRecords`. */
  function Filtered(records: seq<MarketRecord>, term: string): (r: seq<MarketRecord>)
    ensures |r| <= |records|
  {
    if records == [] then []
    else (if MatchesSearch(records[0], term) then [records[0]] else []) + Filtered(records[1..], term)
  }

  /** The filter keeps exactly the matching records. */
  lemma {:induction false} FilteredExactly(records: seq<MarketRecord>, term: string, x: MarketRecord)
    ensures x in Filtered(records, term) <==> x in records && MatchesSearch(x, term)
  {
    if records != [] {
      FilteredExactly(records[1..], term, x);
      assert records == [records[0]] + records[1..];
    }
  }

  /** An empty search keeps every record, in order. */
  lemma {:induction false} EmptySearchKeepsAll(records: seq<MarketRecord>)
    ensures Filtered(records, "") == records
  {
    if records != [] {
      IncludesEmpty(ToLower(records[0].patient));
      EmptySearchKeepsAll(records[1..]);
      assert records == [records[0]] + records[1..];
    }
  }

  /** Where a record stands, in the order both `getStatusBadge` and `getActionButton` test. */
  datatype Stage = Requested | ReadyToPay | Purchased | Open

  function StageOf(id: nat, requested: set<nat>, readyToPay: set<nat>, purchased: set<nat>): (s: Stage)
    ensures s == Requested <==> id in requested
    ensures s == ReadyToPay <==> id !in requested && id in readyToPay
    ensures s == Purchased <==> id !in requested && id !in readyToPay && id in purchased
  {
    if id in requested then Requested
    else if id in readyToPay then ReadyToPay
    else if id in purchased then Purchased
    else Open
  }

  /** `getStatusBadge`. */
  function Badge(r: MarketRecord, requested: set<nat>, readyToPay: set<nat>, purchased: set<nat>): string {
    if r.id in requested then "Request Sent"
    else if r.id in readyToPay then "Ready to Pay"
    else if r.id in purchased then "Purchased"
    else r.kind
  }

  datatype ActionButton = RequestPending | Pay(price: nat) | AccessData | RequestToPurchase

  /** `getActionButton`. */
  function Action(r: MarketRecord, requested: set<nat>, readyToPay: set<nat>, purchased: set<nat>): ActionButton {
    if r.id in requested then RequestPending
    else if r.id in readyToPay then Pay(r.price)
    else if r.id in purchased then AccessData
    else RequestToPurchase
  }

  /** Badge and button agree stage by stage. */
  lemma BadgeMatchesAction(r: MarketRecord, requested: set<nat>, readyToPay: set<nat>, purchased: set<nat>)
    ensures var s := StageOf(r.id, requested, readyToPay, purchased);
      var a := Action(r, requested, readyToPay, purchased);
      var b := Badge(r, requested, readyToPay, purchased);
      (s == Requested ==> b == "Request Sent" && a == RequestPending) &&
      (s == ReadyToPay ==> b == "Ready to Pay" && a == Pay(r.price)) &&
      (s == Purchased ==> b == "Purchased" && a == AccessData) &&
      (s == Open ==> b == r.kind && a == RequestToPurchase)
  {
  }

  /** No id is in two of the three sets. */
  predicate Disjoint(requested: set<nat>, readyToPay: set<nat>, purchased: set<nat>) {
    requested * readyToPay == {} && requested * purchased == {} && readyToPay * purchased == {}
  }

  /** Driven through its buttons (request only an open record, the acceptance of a requested
      one, payment of a ready one), a record walks the stages in order and the sets stay disjoint. */
  lemma Lifecycle(id: nat, requested: set<nat>, readyToPay: set<nat>, purchased: set<nat>)
    requires Disjoint(requested, readyToPay, purchased)
    requires StageOf(id, requested, readyToPay, purchased) == Open
    ensures var q1 := requested + {id};
      StageOf(id, q1, readyToPay, purchased) == Requested && Disjoint(q1, readyToPay, purchased) &&
      var q2, r2 := q1 - {id}, readyToPay + {id};
      StageOf(id, q2, r2, purchased) == ReadyToPay && Disjoint(q2, r2, purchased) &&
      var r3, p3 := r2 - {id}, purchased + {id};
      StageOf(id, q2, r3, p3) == Purchased && Disjoint(q2, r3, p3)
  {
  }

  /** With disjoint sets, the three counters add up to the number of ids that have left `Open`. */
  lemma StatsAddUp(requested: set<nat>, readyToPay: set<nat>, purchased: set<nat>)
    requires Disjoint(requested, readyToPay, purchased)
    ensures |requested| + |readyToPay| + |purchased| == |requested + readyToPay + purchased|
  {
    assert (requested + readyToPay) * purchased == {};
  }

  /** The stats row: total records, then the sizes of the three sets. */
  datatype Stats = Stats(total: nat, pendingRequests: nat, readyForPayment: nat, purchased: nat)

  class MarketplacePage {
    var records: seq<MarketRecord>
    var searchTerm: string
    var requested: set<nat>
    var readyToPay: set<nat>
    var purchased: set<nat>
    var showPaymentModal: bool
    var selectedRecord: Option<MarketRecord>
    var paymentAmount: nat

    constructor ()
      ensures records == [] && searchTerm == "" && requested == {} && readyToPay == {} && purchased == {}
      ensures !showPaymentModal && selectedRecord == None && paymentAmount == 0
    {
      records := [];
      searchTerm := "";
      requested := {};
      readyToPay := {};
      purchased := {};
      showPaymentModal := false;
      selectedRecord := None;
      paymentAmount := 0;
    }

    /** The mount effect that generates the records. */
    method LoadDummyRecords(now: int, draws: seq<real>)
      requires |draws| == 90 && forall k :: 0 <= k < |draws| ==> IsDraw(draws[k])
      modifies this`records
      ensures records == DummyRecords(now, draws)
    {
      records := DummyRecords(now, draws);
    }

    /** The search box's `onChange`. */
    method SetSearchTerm(term: string)
      modifies this`searchTerm
      ensures searchTerm == term
    {
      searchTerm := term;
    }

    /** `handleRequestPurchase`, up to the timer. */
    method HandleRequestPurchase(record: MarketRecord)
      modifies this`requested
      ensures requested == old(requested) + {record.id}
    {
      requested := requested + {record.id};
    }

    /** The timer of `handleRequestPurchase`: the simulated acceptance. */
    method AcceptRequest(record: MarketRecord)
      modifies this`requested, this`readyToPay
      ensures requested == old(requested) - {record.id}
      ensures readyToPay == old(readyToPay) + {record.id}
    {
      requested := requested - {record.id};
      readyToPay := readyToPay + {record.id};
    }

    /** `handleInitiatePayment`. */
    method HandleInitiatePayment(record: MarketRecord)
      modifies this`selectedRecord, this`paymentAmount, this`showPaymentModal
      ensures selectedRecord == Some(record) && paymentAmount == record.price && showPaymentModal
    {
      selectedRecord := Some(record);
      paymentAmount := record.price;
      showPaymentModal := true;
    }

    /** `handlePaymentComplete`: nothing happens without a selected record. */
    method HandlePaymentComplete()
      modifies this`readyToPay, this`purchased, this`showPaymentModal, this`selectedRecord
      ensures old(selectedRecord).None? ==>
        readyToPay == old(readyToPay) && purchased == old(purchased) &&
        showPaymentModal == old(showPaymentModal) && selectedRecord == None
      ensures old(selectedRecord).Some? ==>
        readyToPay == old(readyToPay) - {old(selectedRecord).value.id} &&
        purchased == old(purchased) + {old(selectedRecord).value.id} &&
        !showPaymentModal && selectedRecord == None
    {
      if selectedRecord.Some? {
        var id := selectedRecord.value.id;
        readyToPay := readyToPay - {id};
        purchased := purchased + {id};
        showPaymentModal := false;
        selectedRecord := None;
      }
    }

    /** The modal's Cancel button: the modal closes, the selection stays. */
    method CancelPayment()
      modifies this`showPaymentModal
      ensures !showPaymentModal
    {
      showPaymentModal := false;
    }

    /** The payment modal is drawn only with a selected record. */
    predicate ModalVisible()
      reads this
    {
      showPaymentModal && selectedRecord.Some?
    }

    function VisibleRecords(): seq<MarketRecord>
      reads this
    {
      Filtered(records, searchTerm)
    }

    function CurrentStats(): (s: Stats)
      reads this
      ensures s.total == |records| && s.pendingRequests == |requested| &&
              s.readyForPayment == |readyToPay| && s.purchased == |purchased|
    {
      Stats(|records|, |requested|, |readyToPay|, |purchased|)
    }
  }
}
