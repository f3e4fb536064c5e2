/**
 * The researcher's view of their consent requests (src/assets/pages/Researcher_consent.jsx).
 *
 * The component's state (`consentRequests`, `loading`, `error`, `filter`) is the fields of
 * class `ResearcherConsentPage`; the handlers are its methods, and what each `fetch` returns
 * is a parameter. The derived lists and labels are functions.
 */
module ResearcherConsent {
  import opened Wrappers
  import opened JsValues

  /** What `JSON.parse(data_value)` yields. Field values are flat JavaScript values. */
  datatype Json = JNull | JObject(fields: map<string, JsVal>) | JOther
  datatype Parsed = Malformed | Parsed(value: Json)

  /** `record.<field> || fallback` on a parsed record; reading a field of `null` throws, and
      that is caught like a parse error. */
  function FieldOr(p: Parsed, field: string, missing: string, broken: string): (r: JsVal)
    ensures p.Malformed? || p == Parsed(JNull) ==> r == Str(broken)
    ensures p.Parsed? && p.value.JObject? && field in p.value.fields && Truthy(p.value.fields[field]) ==>
      r == p.value.fields[field]
    ensures p.Parsed? && p.value.JObject? && !(field in p.value.fields && Truthy(p.value.fields[field])) ==>
      r == Str(missing)
    ensures p == Parsed(JOther) ==> r == Str(missing)
  {
    match p
    case Malformed => Str(broken)
    case Parsed(JNull) => Str(broken)
    case Parsed(JOther) => Str(missing)
    case Parsed(JObject(fields)) =>
      if field in fields && Truthy(fields[field]) then fields[field] else Str(missing)
  }

  /** `getRecordType`. */
  function RecordType(p: Parsed): JsVal {
    FieldOr(p, "recordType", "Medical Record", "Medical Data")
  }

  /** `getDataDescription`. */
  function DataDescription(p: Parsed): JsVal {
    FieldOr(p, "description", "Health data for research purposes", "Encrypted health data")
  }

  /** The two fallbacks are told apart: a record without the field is not reported as unreadable. */
  lemma FallbacksDiffer(fields: map<string, JsVal>)
    requires "recordType" !in fields && "description" !in fields
    ensures RecordType(Parsed(JObject(fields))) == Str("Medical Record") != RecordType(Malformed)
    ensures DataDescription(Parsed(JObject(fields))) == Str("Health data for research purposes") != DataDescription(Malformed)
  {
  }

  /** A row of the backend's reply. */
  datatype BackendRequest = BackendRequest(id: JsVal, ownerId: JsVal, dataHash: JsVal, status: Option<string>,
                                           requestedAt: int, dataValue: Parsed, purpose: JsVal)

  datatype BackendRef = BackendRef(requestId: JsVal, ownerId: JsVal, dataHash: JsVal, purpose: JsVal)

  /** A request as the page holds it. */
  datatype Request = Request(id: JsVal, title: string, owner: string, recordType: JsVal, status: string,
                             timestamp: int, dataDescription: JsVal, backend: BackendRef)

  /** `request.status || "pending"`. */
  function LoadedStatus(status: Option<string>): (s: string)
    ensures s != ""
    ensures status.Some? && status.value != "" ==> s == status.value
    ensures status.None? || status.value == "" ==> s == "pending"
  {
    if status.Some? && status.value != "" then status.value else "pending"
  }

  /** The transformation of one backend row. */
  function Transform(b: BackendRequest): (r: Request)
    ensures r.id == b.id && r.status == LoadedStatus(b.status) && r.backend.requestId == b.id
  {
    Request(b.id, "Access request for " + ToText(RecordType(b.dataValue)), "User " + ToText(b.ownerId),
            RecordType(b.dataValue), LoadedStatus(b.status), b.requestedAt, DataDescription(b.dataValue),
            BackendRef(b.id, b.ownerId, b.dataHash, if Truthy(b.purpose) then b.purpose else Str("Research analysis")))
  }

  function TransformAll(rows: seq<BackendRequest>): (r: seq<Request>)
    ensures |r| == |rows| && forall k :: 0 <= k < |rows| ==> r[k] == Transform(rows[k])
  {
    seq(|rows|, k requires 0 <= k < |rows| => Transform(rows[k]))
  }

  /** `filteredRequests`. */
  function Filtered(requests: seq<Request>, filter: string): (r: seq<Request>)
    ensures |r| <= |requests|
  {
    if requests == [] then []
    else (if filter == "all" || requests[0].status == filter then [requests[0]] else []) + Filtered(requests[1..], filter)
  }

  /** `consentRequests.filter(req => req.status === status).length`, the tab and stat counts. */
  function StatusCount(requests: seq<Request>, status: string): (n: nat)
    ensures n <= |requests|
  {
    if requests == [] then 0
    else (if requests[0].status == status then 1 else 0) + StatusCount(requests[1..], status)
  }

  /** Filter "all" keeps every request, in order. */
  lemma {:induction false} FilterAllKeepsEverything(requests: seq<Request>)
    ensures Filtered(requests, "all") == requests
  {
    if requests != [] {
      FilterAllKeepsEverything(requests[1..]);
      assert requests == [requests[0]] + requests[1..];
    }
  }

  /** Any other filter keeps exactly the requests with that status, as many as the count shows. */
  lemma {:induction false} FilterByStatus(requests: seq<Request>, filter: string, x: Request)
    requires filter != "all"
    ensures x in Filtered(requests, filter) <==> x in requests && x.status == filter
    ensures |Filtered(requests, filter)| == StatusCount(requests, filter)
  {
    if requests != [] {
      FilterByStatus(requests[1..], filter, x);
      assert requests == [requests[0]] + requests[1..];
    }
  }

  /** The three status tiles of the stats row never add up to more than the total tile. */
  lemma {:induction false} StatsWithinTotal(requests: seq<Request>)
    ensures StatusCount(requests, "pending") + StatusCount(requests, "approved") + StatusCount(requests, "declined") <= |requests|
  {
    if requests != [] {
      StatsWithinTotal(requests[1..]);
    }
  }

  /** `prev.map(req => req.id === id ? { ...req, status } : req)`. */
  function SetStatus(requests: seq<Request>, id: JsVal, status: string): (r: seq<Request>)
    ensures |r| == |requests|
    ensures forall k :: 0 <= k < |requests| ==>
      r[k] == if requests[k].id == id then requests[k].(status := status) else requests[k]
  {
    seq(|requests|, k requires 0 <= k < |requests| =>
      if requests[k].id == id then requests[k].(status := status) else requests[k])
  }

  /** An id that no request has changes nothing. */
  lemma SetStatusUnknownId(requests: seq<Request>, id: JsVal, status: string)
    requires forall k :: 0 <= k < |requests| ==> requests[k].id != id
    ensures SetStatus(requests, id, status) == requests
  {
  }

  /** The Cancel button. */
  predicate CancelOffered(r: Request) { r.status == "pending" }

  /** The Withdraw and View Data buttons. */
  predicate WithdrawOffered(r: Request) { r.status == "approved" }

  /** No request offers both Cancel and Withdraw. */
  lemma ButtonsExclusive(r: Request)
    ensures !(CancelOffered(r) && WithdrawOffered(r))
  {
  }

  /** A cancelled or withdrawn request offers neither button any more. */
  lemma NoActionAfterCancelOrWithdraw(requests: seq<Request>, id: JsVal, status: string, k: nat)
    requires status == "cancelled" || status == "withdrawn"
    requires k < |requests| && requests[k].id == id
    ensures !CancelOffered(SetStatus(requests, id, status)[k]) && !WithdrawOffered(SetStatus(requests, id, status)[k])
  {
  }

  /** `getStatusText`. */
  function StatusText(status: string): (t: string)
    ensures status !in {"approved", "pending", "declined", "cancelled", "withdrawn"} ==> t == status
  {
    match status
    case "approved" => "Approved"
    case "pending" => "Pending Review"
    case "declined" => "Declined"
    case "cancelled" => "Cancelled"
    case "withdrawn" => "Access Withdrawn"
    case _ => status
  }

  /** The five known statuses get five distinct labels. */
  lemma KnownLabelsDistinct()
    ensures |{StatusText("approved"), StatusText("pending"), StatusText("declined"),
              StatusText("cancelled"), StatusText("withdrawn")}| == 5
  {
  }

  /** `getStatusColor`. */
  function StatusColor(status: string): (c: string)
    ensures status !in {"approved", "pending", "declined", "withdrawn"} ==> c == "bg-gray-500"
  {
    match status
    case "approved" => "bg-green-500"
    case "pending" => "bg-yellow-500"
    case "declined" => "bg-red-500"
    case "cancelled" => "bg-gray-500"
    case "withdrawn" => "bg-purple-500"
    case _ => "bg-gray-500"
  }

  /** What the list fetch came back with. `FetchFailed` is a network error or a body that is
      not JSON, with its message. */
  datatype FetchOutcome = FetchFailed(message: string) | NotOk | Fetched(success: bool, rows: seq<BackendRequest>)

  /** What a cancel or withdraw POST came back with. `Unusable` is a network error or a body
      that is not JSON. */
  datatype ActionOutcome = Unusable | Answered(ok: bool, success: bool)

  class ResearcherConsentPage {
    var consentRequests: seq<Request>
    var loading: bool
    var error: Option<string>
    var filter: string

    constructor ()
      ensures consentRequests == [] && loading && error == None && filter == "all"
    {
      consentRequests := [];
      loading := true;
      error := None;
      filter := "all";
    }

    /** `fetchConsentRequests`. */
    method FetchConsentRequests(outcome: FetchOutcome)
      modifies this
      ensures !loading && filter == old(filter)
      ensures outcome.Fetched? && outcome.success ==>
        consentRequests == TransformAll(outcome.rows) && error == old(error)
      ensures outcome.Fetched? && !outcome.success ==> consentRequests == old(consentRequests) && error == old(error)
      ensures outcome.FetchFailed? ==> consentRequests == old(consentRequests) && error == Some(outcome.message)
      ensures outcome.NotOk? ==> consentRequests == old(consentRequests) && error == Some("Failed to fetch consent requests")
    {
      match outcome {
        case FetchFailed(message) =>
          error := Some(message);
        case NotOk =>
          error := Some("Failed to fetch consent requests");
        case Fetched(success, rows) =>
          if success {
            consentRequests := TransformAll(rows);
          }
      }
      loading := false;
    }

    /** The filter buttons. */
    method SetFilter(f: string)
      modifies this`filter
      ensures filter == f
    {
      filter := f;
    }

    /** `handleCancel`. */
    method HandleCancel(request: Request, outcome: ActionOutcome)
      modifies this`consentRequests
      ensures consentRequests == if outcome == Answered(true, true) then SetStatus(old(consentRequests), request.id, "cancelled")
                                 else old(consentRequests)
    {
      if outcome.Unusable? || !outcome.ok {
        return;
      }
      if outcome.success {
        consentRequests := SetStatus(consentRequests, request.id, "cancelled");
      }
    }

    /** `handleWithdraw`. */
    method HandleWithdraw(request: Request, outcome: ActionOutcome)
      modifies this`consentRequests
      ensures consentRequests == if outcome == Answered(true, true) then SetStatus(old(consentRequests), request.id, "withdrawn")
                                 else old(consentRequests)
    {
      if outcome.Unusable? || !outcome.ok {
        return;
      }
      if outcome.success {
        consentRequests := SetStatus(consentRequests, request.id, "withdrawn");
      }
    }

    /** The list the page renders. */
    function VisibleRequests(): seq<Request>
      reads this
    {
      Filtered(consentRequests, filter)
    }
  }
}
