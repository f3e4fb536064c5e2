/**
 * The consent-gated data controller (backend/controller/data.controller.js).
 *
 * The two tables it uses, `records` and `consent_requests`, are sequences of rows held by
 * class `DataStore`; each handler is a method that takes the request's fields and returns
 * the reply it sends. Every call into the chain goes through the `Adapter` the store holds.
 * SHA-256 in hex is a function the store is constructed with; the clock is a parameter.
 */
module DataController {
  import opened Wrappers
  import opened JsValues
  import opened Blockchain

  /** A row of `records`. */
  datatype RecordRow = RecordRow(userId: string, dataHash: string, dataValue: string,
                                 blockchainTxn: string, blockchainOwner: Address)

  /** A row of `consent_requests`; `id` is its serial key. */
  datatype ConsentRow = ConsentRow(id: nat, requesterId: string, ownerId: string, dataHash: string,
                                   status: string, requestedAt: int, grantedAt: Option<int>)

  /** A row of the pending-requests query: the request and the joined record's data value. */
  datatype PendingRow = PendingRow(request: ConsentRow, dataValue: string)

  /** Why a handler answered 500. */
  datatype Failure =
    | Chain(error: ChainError)   // the adapter threw
    | DataNotText                // `createHash(...).update(data)` refuses a non-string
    | NoSuchAccount              // `accounts.accounts[i]` was undefined
    | Database(message: string)  // a `pool.query` rejected

  /** How a `pool.query` statement ends for the database at hand. */
  datatype DbOutcome = QueryOk | QueryFails(message: string)

  datatype Body =
    | ErrorText(error: string)
    | Message(message: string)
    | ServerError(failure: Failure)
    | Stored(txnHash: string, dataHash: string, owner: Address, userAccount: string)
    | RequestSent(requesterId: JsVal, ownerId: JsVal, requestedHash: JsVal)
    | Granted(requestId: JsVal, grantingOwner: JsVal, grantedTo: string, txnHash: string, consentVerified: Option<bool>)
    | PendingList(pendingRequests: seq<PendingRow>, total: nat)
    | AccessDenied(dataOwner: string, requester: JsVal)
    | Disclosed(data: string, dataOwner: string, dataHash: string)

  datatype Reply = Reply(status: nat, body: Body)

  /** `generateHash`: "0x" and the hex SHA-256 digest. */
  function GenerateHash(sha256Hex: string -> string, data: string): (h: string)
    ensures |h| == |sha256Hex(data)| + 2 && h[..2] == "0x" && h[2..] == sha256Hex(data)
  {
    "0x" + sha256Hex(data)
  }

  /** A generated hash is bytes32 text whenever the digest has its 64 hex digits. */
  lemma GeneratedHashIsBytes32(sha256Hex: string -> string, data: string)
    requires |sha256Hex(data)| == 64
    ensures IsBytes32Text(GenerateHash(sha256Hex, data))
  {
  }

  /** Two data values share a hash exactly when their digests agree. */
  lemma GenerateHashInjective(sha256Hex: string -> string, a: string, b: string)
    ensures GenerateHash(sha256Hex, a) == GenerateHash(sha256Hex, b) <==> sha256Hex(a) == sha256Hex(b)
  {
    if GenerateHash(sha256Hex, a) == GenerateHash(sha256Hex, b) {
      assert GenerateHash(sha256Hex, a)[2..] == GenerateHash(sha256Hex, b)[2..];
    }
  }

  /** The text of a JavaScript number in a template literal. */
  function NumberText(n: Number): string {
    match n
    case NaN => "NaN"
    case Int(i) => IntToString(i)
  }

  // ---------------------------------------------------------------- queries

  /** `user_id=$1 AND data_hash=$2`, or `data_hash=$1` alone when `owner` is `None`. */
  predicate RecordMatches(row: RecordRow, owner: Option<JsVal>, hash: JsVal) {
    (owner.None? || SqlEquals(row.userId, owner.value)) && SqlEquals(row.dataHash, hash)
  }

  /** `rows[0]` of a SELECT on `records`, searching from `from`. */
  function MatchingRecord(records: seq<RecordRow>, owner: Option<JsVal>, hash: JsVal, from: nat := 0): (r: Option<nat>)
    requires from <= |records|
    ensures r.Some? ==> from <= r.value < |records| && RecordMatches(records[r.value], owner, hash)
    ensures r.Some? ==> forall j :: from <= j < r.value ==> !RecordMatches(records[j], owner, hash)
    ensures r.None? ==> forall j :: from <= j < |records| ==> !RecordMatches(records[j], owner, hash)
    decreases |records| - from
  {
    if from == |records| then None
    else if RecordMatches(records[from], owner, hash) then Some(from)
    else MatchingRecord(records, owner, hash, from + 1)
  }

  /** `id=$1 AND owner_id=$2 AND status='pending'`. */
  predicate IsPendingRequest(row: ConsentRow, requestId: JsVal, ownerId: JsVal) {
    SqlEquals(NatToString(row.id), requestId) && SqlEquals(row.ownerId, ownerId) && row.status == "pending"
  }

  /** `requestResult.rows[0]`, searching from `from`. */
  function PendingRequest(rows: seq<ConsentRow>, requestId: JsVal, ownerId: JsVal, from: nat := 0): (r: Option<nat>)
    requires from <= |rows|
    ensures r.Some? ==> from <= r.value < |rows| && IsPendingRequest(rows[r.value], requestId, ownerId)
    ensures r.None? ==> forall j :: from <= j < |rows| ==> !IsPendingRequest(rows[j], requestId, ownerId)
    decreases |rows| - from
  {
    if from == |rows| then None
    else if IsPendingRequest(rows[from], requestId, ownerId) then Some(from)
    else PendingRequest(rows, requestId, ownerId, from + 1)
  }

  /** A request row once the owner's grant went through. */
  function Approved(row: ConsentRow, now: int): ConsentRow {
    row.(status := "approved", grantedAt := Some(now))
  }

  /** `UPDATE consent_requests SET status='approved', granted_at=$1 WHERE id=$2`. */
  function ApproveById(rows: seq<ConsentRow>, requestId: JsVal, now: int): (r: seq<ConsentRow>)
    ensures |r| == |rows|
    ensures forall k :: 0 <= k < |rows| ==>
      r[k] == if SqlEquals(NatToString(rows[k].id), requestId) then Approved(rows[k], now) else rows[k]
  {
    if rows == [] then []
    else
      var head := if SqlEquals(NatToString(rows[0].id), requestId) then Approved(rows[0], now) else rows[0];
      [head] + ApproveById(rows[1..], requestId, now)
  }

  predicate UniqueIds(rows: seq<ConsentRow>) {
    forall j, k :: 0 <= j < k < |rows| ==> rows[j].id != rows[k].id
  }

  /** With serial keys the UPDATE touches exactly the one row the SELECT found. */
  lemma ApproveOneRow(rows: seq<ConsentRow>, requestId: JsVal, ownerId: JsVal, now: int)
    requires UniqueIds(rows)
    requires PendingRequest(rows, requestId, ownerId).Some?
    ensures var k := PendingRequest(rows, requestId, ownerId).value;
      ApproveById(rows, requestId, now) == rows[k := Approved(rows[k], now)]
  {
    var k := PendingRequest(rows, requestId, ownerId).value;
    var r := ApproveById(rows, requestId, now);
    forall j | 0 <= j < |rows| && j != k
      ensures r[j] == rows[j]
    {
      NatToStringInjective(rows[j].id, rows[k].id);
    }
  }

  /** `JOIN records r ON cr.data_hash = r.data_hash WHERE cr.owner_id=$1 AND cr.status='pending'`. */
  predicate JoinMatches(request: ConsentRow, ownerId: string) {
    request.ownerId == ownerId && request.status == "pending"
  }

  /** The records whose hash is the request's, each paired with the request. */
  function JoinRecords(request: ConsentRow, records: seq<RecordRow>): (r: seq<PendingRow>)
    ensures forall x :: x in r ==> x.request == request
  {
    if records == [] then []
    else (if records[0].dataHash == request.dataHash then [PendingRow(request, records[0].dataValue)] else [])
         + JoinRecords(request, records[1..])
  }

  function Join(requests: seq<ConsentRow>, records: seq<RecordRow>, ownerId: string): (r: seq<PendingRow>)
    ensures forall x :: x in r ==> JoinMatches(x.request, ownerId) && x.request in requests
  {
    if requests == [] then []
    else (if JoinMatches(requests[0], ownerId) then JoinRecords(requests[0], records) else [])
         + Join(requests[1..], records, ownerId)
  }

  /** A row pairs a request with a record exactly when their hashes agree. */
  lemma {:induction false} JoinRecordsComplete(request: ConsentRow, records: seq<RecordRow>, k: nat)
    requires k < |records| && records[k].dataHash == request.dataHash
    ensures PendingRow(request, records[k].dataValue) in JoinRecords(request, records)
  {
    if k > 0 {
      JoinRecordsComplete(request, records[1..], k - 1);
    }
  }

  /** Every pending request of the owner appears once for each record with its hash. */
  lemma {:induction false} JoinComplete(requests: seq<ConsentRow>, records: seq<RecordRow>, ownerId: string, j: nat, k: nat)
    requires j < |requests| && k < |records|
    requires JoinMatches(requests[j], ownerId) && records[k].dataHash == requests[j].dataHash
    ensures PendingRow(requests[j], records[k].dataValue) in Join(requests, records, ownerId)
  {
    if j == 0 {
      JoinRecordsComplete(requests[0], records, k);
    } else {
      JoinComplete(requests[1..], records, ownerId, j - 1, k);
    }
  }

  /** `ORDER BY cr.requested_at DESC`. */
  predicate NewestFirst(rows: seq<PendingRow>) {
    forall i, j :: 0 <= i < j < |rows| ==> rows[i].request.requestedAt >= rows[j].request.requestedAt
  }

  /** A row no older than the head of a newest-first list can go in front of it. */
  lemma ConsNewestFirst(x: PendingRow, rows: seq<PendingRow>)
    requires NewestFirst(rows)
    requires rows != [] ==> x.request.requestedAt >= rows[0].request.requestedAt
    ensures NewestFirst([x] + rows)
  {
    var r := [x] + rows;
    forall i, j | 0 <= i < j < |r|
      ensures r[i].request.requestedAt >= r[j].request.requestedAt
    {
      if i == 0 && j > 1 {
        assert r[j] == rows[j - 1];
      }
    }
  }

  lemma DropNewestFirst(rows: seq<PendingRow>)
    requires NewestFirst(rows) && rows != []
    ensures NewestFirst(rows[1..])
  {
    var tail := rows[1..];
    forall i, j | 0 <= i < j < |tail|
      ensures tail[i].request.requestedAt >= tail[j].request.requestedAt
    {
      assert tail[i] == rows[i + 1] && tail[j] == rows[j + 1];
    }
  }

  /** One step of the insertion sort: `x` goes before the first row older than it. */
  function InsertNewestFirst(x: PendingRow, rows: seq<PendingRow>): (r: seq<PendingRow>)
    ensures |r| == |rows| + 1
    ensures r[0] == if rows != [] && x.request.requestedAt < rows[0].request.requestedAt then rows[0] else x
  {
    if rows == [] || x.request.requestedAt >= rows[0].request.requestedAt then [x] + rows
    else [rows[0]] + InsertNewestFirst(x, rows[1..])
  }

  /** Inserting into a newest-first list keeps it newest-first. */
  lemma {:induction false} InsertKeepsNewestFirst(x: PendingRow, rows: seq<PendingRow>)
    requires NewestFirst(rows)
    ensures NewestFirst(InsertNewestFirst(x, rows))
  {
    if rows == [] || x.request.requestedAt >= rows[0].request.requestedAt {
      ConsNewestFirst(x, rows);
    } else {
      DropNewestFirst(rows);
      InsertKeepsNewestFirst(x, rows[1..]);
      ConsNewestFirst(rows[0], InsertNewestFirst(x, rows[1..]));
    }
  }

  /** Inserting adds exactly the new row. */
  lemma {:induction false} InsertAddsRow(x: PendingRow, rows: seq<PendingRow>)
    ensures multiset(InsertNewestFirst(x, rows)) == multiset(rows) + multiset{x}
  {
    if rows != [] && x.request.requestedAt < rows[0].request.requestedAt {
      InsertAddsRow(x, rows[1..]);
      assert rows == [rows[0]] + rows[1..];
    }
  }

  lemma SplitFirst(rows: seq<PendingRow>)
    requires rows != []
    ensures multiset(rows) == multiset(rows[1..]) + multiset{rows[0]}
  {
    assert rows == [rows[0]] + rows[1..];
  }

  /** One ordering the database may return: a stable insertion sort. */
  function SortNewestFirst(rows: seq<PendingRow>): (r: seq<PendingRow>)
    ensures NewestFirst(r) && multiset(r) == multiset(rows)
  {
    if rows == [] then []
    else
      var sorted := SortNewestFirst(rows[1..]);
      InsertKeepsNewestFirst(rows[0], sorted);
      InsertAddsRow(rows[0], sorted);
      SplitFirst(rows);
      InsertNewestFirst(rows[0], sorted)
  }

  /** The rows of `getPendingRequests`: the owner's pending requests joined with their
      records, newest first, every joined row present as often as the join yields it. */
  function PendingRequests(requests: seq<ConsentRow>, records: seq<RecordRow>, ownerId: string): (r: seq<PendingRow>)
    ensures NewestFirst(r)
    ensures multiset(r) == multiset(Join(requests, records, ownerId))
    ensures forall x :: x in r ==> JoinMatches(x.request, ownerId) && x.request in requests
  {
    var rows := SortNewestFirst(Join(requests, records, ownerId));
    assert forall x :: x in rows ==> x in multiset(Join(requests, records, ownerId));
    rows
  }

  /** The request rows a handler may write keep `granted_at` in step with the status. */
  predicate StatusConsistent(row: ConsentRow) {
    (row.status == "pending" && row.grantedAt.None?) || (row.status == "approved" && row.grantedAt.Some?)
  }

  /** Serial ids below the sequence's next value, and statuses the handlers write. */
  predicate ConsentRowsOk(rows: seq<ConsentRow>, nextId: nat) {
    (forall k :: 0 <= k < |rows| ==> rows[k].id < nextId) &&
    UniqueIds(rows) &&
    (forall k :: 0 <= k < |rows| ==> StatusConsistent(rows[k]))
  }

  lemma ApproveKeepsRowsOk(rows: seq<ConsentRow>, k: nat, now: int, nextId: nat)
    requires ConsentRowsOk(rows, nextId) && k < |rows|
    ensures ConsentRowsOk(rows[k := Approved(rows[k], now)], nextId)
  {
  }

  /** The effect of a successful grant on `consent_requests`: the one pending row it found is approved. */
  predicate GrantApplied(before: seq<ConsentRow>, after: seq<ConsentRow>, requestId: JsVal, ownerId: JsVal, now: int) {
    PendingRequest(before, requestId, ownerId).Some? &&
    var k := PendingRequest(before, requestId, ownerId).value;
    after == before[k := Approved(before[k], now)]
  }

  /** The chain holds consent for the owner's record of the request's hash, for the address of
      the requester's account (`accounts[requester_id - 1]`), as the grant rule resolves it. */
  predicate ConsentOnChain(records: seq<RecordRow>, row: ConsentRow, ownerId: JsVal, cache: AccountCache,
                           consents: map<(Hash32, Address), bool>, keccak: string -> Hash32)
  {
    MatchingRecord(records, Some(ownerId), Str(row.dataHash)).Some? &&
    ConsentForRecord(records[MatchingRecord(records, Some(ownerId), Str(row.dataHash)).value], row, ownerId,
                     cache, consents, keccak)
  }

  /** The state a failed UPDATE of `grantConsent` leaves behind: the table still shows the
      request as pending and not granted (a retry finds it again), while the chain already
      holds the consent. */
  predicate ChainAheadOfTable(rows: seq<ConsentRow>, requestId: JsVal, ownerId: JsVal, records: seq<RecordRow>,
                              cache: AccountCache, consents: map<(Hash32, Address), bool>, keccak: string -> Hash32)
  {
    PendingRequest(rows, requestId, ownerId).Some? &&
    var row := rows[PendingRequest(rows, requestId, ownerId).value];
    row.status == "pending" && row.grantedAt.None? &&
    ConsentOnChain(records, row, ownerId, cache, consents, keccak)
  }

  /** Why steps 3 and 4 of `grantConsent` fail for the request `row`, or `None` when the grant is
      mined. `loaded` is what `getAccountInfo` loads; `contractOk` says whether `getContract` finds
      the contract deployed. An undefined `accounts[i]` throws before the chain is asked. */
  function GrantFailure(loaded: Result<seq<Address>, ChainError>, contractOk: bool, row: ConsentRow, ownerId: JsVal,
                        tx: TxOutcome): (f: Option<Failure>)
    ensures f.None? <==>
      loaded.Ok? && contractOk && tx.Mined? &&
      Pred(ParseInt(ownerId)).Int? && 0 <= Pred(ParseInt(ownerId)).i < |loaded.value| &&
      Pred(ParseIntText(row.requesterId)).Int? && 0 <= Pred(ParseIntText(row.requesterId)).i < |loaded.value|
    ensures loaded.Err? ==> f == Some(Chain(loaded.error))
    ensures f.Some? && loaded.Ok? && contractOk && tx.Mined? ==> f == Some(NoSuchAccount)
    ensures f.Some? ==> !f.value.Database?
  {
    match loaded
    case Err(e) => Some(Chain(e))
    case Ok(accounts) =>
      var ownerIndex := Pred(ParseInt(ownerId));
      var requesterIndex := Pred(ParseIntText(row.requesterId));
      if !(ownerIndex.Int? && 0 <= ownerIndex.i < |accounts|) then Some(NoSuchAccount)
      else if !(requesterIndex.Int? && 0 <= requesterIndex.i < |accounts|) then Some(NoSuchAccount)
      else if !contractOk then Some(Chain(ClassifyGrantError(ContractNotDeployed)))
      else match tx
        case Reverted(reason, message) => Some(Chain(ClassifyGrantError(TxReverted(reason, message))))
        case Mined(_) => None
  }

  /** The error reply of steps 2 to 5 of `grantConsent` once the pending row `row` is found, or
      `None` when the record is found, the grant is mined and the UPDATE goes through. */
  function GrantError(records: seq<RecordRow>, row: ConsentRow, ownerId: JsVal, loaded: Result<seq<Address>, ChainError>,
                      contractOk: bool, tx: TxOutcome, update: DbOutcome): (e: Option<Reply>)
    ensures e.None? <==>
      MatchingRecord(records, Some(ownerId), Str(row.dataHash)).Some? &&
      GrantFailure(loaded, contractOk, row, ownerId, tx).None? && update.QueryOk?
    ensures MatchingRecord(records, Some(ownerId), Str(row.dataHash)).None? ==>
      e == Some(Reply(404, Message("Data not found")))
    ensures MatchingRecord(records, Some(ownerId), Str(row.dataHash)).Some? &&
            GrantFailure(loaded, contractOk, row, ownerId, tx).Some? ==>
      e == Some(Reply(500, ServerError(GrantFailure(loaded, contractOk, row, ownerId, tx).value)))
    ensures MatchingRecord(records, Some(ownerId), Str(row.dataHash)).Some? &&
            GrantFailure(loaded, contractOk, row, ownerId, tx).None? && update.QueryFails? ==>
      e == Some(Reply(500, ServerError(Database(update.message))))
    ensures e.Some? ==> e.value.status == 404 || e.value.status == 500
  {
    if MatchingRecord(records, Some(ownerId), Str(row.dataHash)).None? then Some(Reply(404, Message("Data not found")))
    else match GrantFailure(loaded, contractOk, row, ownerId, tx)
      case Some(f) => Some(Reply(500, ServerError(f)))
      case None => if update.QueryFails? then Some(Reply(500, ServerError(Database(update.message)))) else None
  }

  predicate ConsentForRecord(record: RecordRow, row: ConsentRow, ownerId: JsVal, cache: AccountCache,
                             consents: map<(Hash32, Address), bool>, keccak: string -> Hash32)
  {
    cache.Some? &&
    var accounts := cache.value;
    var requesterIndex := Pred(ParseIntText(row.requesterId));
    var ownerIndex := Pred(ParseInt(ownerId));
    requesterIndex.Int? && 0 <= requesterIndex.i < |accounts| &&
    ownerIndex.Int? && 0 <= ownerIndex.i < |accounts| &&
    Lookup(consents, (keccak(record.dataValue), Grantee(Some(accounts[requesterIndex.i]), accounts, ownerIndex.i)))
  }

  /** `getData`'s consent rule: the requester's account is `accounts[requester_id - 1]`, and the
      chain holds consent for the address the grant rule resolves with signer 0. */
  predicate RequesterConsent(accounts: seq<Address>, requesterId: JsVal, data: string,
                             consents: map<(Hash32, Address), bool>, keccak: string -> Hash32)
  {
    var requesterIndex := Pred(ParseInt(requesterId));
    requesterIndex.Int? && 0 <= requesterIndex.i < |accounts| &&
    Lookup(consents, (keccak(data), Grantee(Some(accounts[requesterIndex.i]), accounts, 0)))
  }

  /** Steps 2 to 4 of `getData` for a found record: the account lookup (`loaded`), the consent
      check, which swallows a failed deployment check or read, and the reply. */
  function DisclosureReply(record: RecordRow, requesterId: JsVal, loaded: Result<seq<Address>, ChainError>,
                           contractOk: bool, read: ReadOutcome,
                           consents: map<(Hash32, Address), bool>, keccak: string -> Hash32): (r: Reply)
    ensures loaded.Err? ==> r == Reply(500, ServerError(Chain(loaded.error)))
    ensures r.status == 200 <==>
      loaded.Ok? && contractOk && read.ReadOk? && RequesterConsent(loaded.value, requesterId, record.dataValue, consents, keccak)
    ensures r.status == 200 ==> r.body == Disclosed(record.dataValue, record.userId, record.dataHash)
    ensures r.status == 403 <==>
      loaded.Ok? && Pred(ParseInt(requesterId)).Int? && 0 <= Pred(ParseInt(requesterId)).i < |loaded.value| &&
      !(contractOk && read.ReadOk? && RequesterConsent(loaded.value, requesterId, record.dataValue, consents, keccak))
    ensures r.status == 403 ==> r.body == AccessDenied(record.userId, requesterId)
    ensures r.status in {200, 403, 500}
  {
    match loaded
    case Err(e) => Reply(500, ServerError(Chain(e)))
    case Ok(accounts) =>
      var requesterIndex := Pred(ParseInt(requesterId));
      if !(requesterIndex.Int? && 0 <= requesterIndex.i < |accounts|) then Reply(500, ServerError(NoSuchAccount))
      else if contractOk && read.ReadOk? && RequesterConsent(accounts, requesterId, record.dataValue, consents, keccak) then
        Reply(200, Disclosed(record.dataValue, record.userId, record.dataHash))
      else Reply(403, AccessDenied(record.userId, requesterId))
  }

  // ---------------------------------------------------------------- the handlers

  class DataStore {
    var records: seq<RecordRow>
    var consentRequests: seq<ConsentRow>
    /** The next value of the `consent_requests.id` sequence. */
    var nextRequestId: nat
    const sha256Hex: string -> string
    const chain: Adapter

    ghost predicate Valid()
      reads this, chain
    {
      chain.Valid() &&
      (forall k :: 0 <= k < |records| ==> records[k].dataHash == GenerateHash(sha256Hex, records[k].dataValue)) &&
      ConsentRowsOk(consentRequests, nextRequestId)
    }

    constructor (sha256Hex: string -> string, chain: Adapter)
      requires chain.Valid()
      ensures Valid() && this.sha256Hex == sha256Hex && this.chain == chain
      ensures records == [] && consentRequests == [] && nextRequestId == 1
    {
      this.sha256Hex := sha256Hex;
      this.chain := chain;
      records := [];
      consentRequests := [];
      nextRequestId := 1;
    }

    /** `storeData`: the record is inserted only after the chain stored its hash. */
    method StoreData(userId: JsVal, data: JsVal, node: Node, tx: TxOutcome) returns (reply: Reply)
      requires Valid()
      modifies this, chain
      ensures Valid()
      ensures consentRequests == old(consentRequests) && nextRequestId == old(nextRequestId)
      ensures chain.consents == old(chain.consents)
      ensures !Truthy(userId) || !Truthy(data) ==>
        reply == Reply(400, ErrorText("userId and data are required")) && records == old(records) &&
        unchanged(chain)
      ensures Truthy(userId) && Truthy(data) && !data.Str? ==>
        reply == Reply(500, ServerError(DataNotText)) && records == old(records) && unchanged(chain)
      ensures var signer := ContractSigner(old(chain.isContractVerified), old(chain.cachedAccounts),
                                           Pred(ParseInt(userId)), node);
        reply.status == 200 <==> Truthy(userId) && data.Str? && data.s != "" && signer.Ok? && tx.Mined?
      ensures var signer := ContractSigner(old(chain.isContractVerified), old(chain.cachedAccounts),
                                           Pred(ParseInt(userId)), node);
        reply.status == 200 ==>
          data.Str? && signer.Ok? && tx.Mined? &&
          reply.body == Stored(tx.receiptHash, GenerateHash(sha256Hex, data.s), signer.value,
                               "Account " + NumberText(Pred(ParseInt(userId)))) &&
          records == old(records) + [RecordRow(ToText(userId), GenerateHash(sha256Hex, data.s), data.s,
                                               tx.receiptHash, signer.value)] &&
          chain.owners == old(chain.owners)[chain.keccak(data.s) := signer.value]
      ensures reply.status != 200 ==> records == old(records)
    {
      if !Truthy(userId) || !Truthy(data) {
        return Reply(400, ErrorText("userId and data are required"));
      }
      if !data.Str? {
        return Reply(500, ServerError(DataNotText));
      }
      var hash := GenerateHash(sha256Hex, data.s);
      var accountIndex := Pred(ParseInt(userId));
      var stored := chain.StoreDataOnBlockchain(data.s, accountIndex, node, tx);
      if stored.Err? {
        return Reply(500, ServerError(Chain(stored.error)));
      }
      records := records + [RecordRow(ToText(userId), hash, data.s, stored.value.transactionHash, stored.value.owner)];
      reply := Reply(200, Stored(stored.value.transactionHash, hash, stored.value.owner, "Account " + NumberText(accountIndex)));
    }

    /** `requestConsent`: a pending request is recorded only for data the owner holds. */
    method RequestConsent(requesterId: JsVal, ownerId: JsVal, dataHash: JsVal, now: int) returns (reply: Reply)
      requires Valid()
      modifies this
      ensures Valid()
      ensures records == old(records)
      ensures !Truthy(requesterId) || !Truthy(ownerId) || !Truthy(dataHash) ==>
        reply == Reply(400, ErrorText("requesterId, ownerId, and dataHash are required"))
      ensures Truthy(requesterId) && Truthy(ownerId) && Truthy(dataHash) && requesterId == ownerId ==>
        reply == Reply(400, ErrorText("You cannot request access to your own data"))
      ensures Truthy(requesterId) && Truthy(ownerId) && Truthy(dataHash) && requesterId != ownerId &&
              MatchingRecord(records, Some(ownerId), dataHash).None? ==>
        reply == Reply(404, Message("Data not found or you don't have permission"))
      ensures reply.status == 200 <==>
        Truthy(requesterId) && Truthy(ownerId) && Truthy(dataHash) && requesterId != ownerId &&
        MatchingRecord(records, Some(ownerId), dataHash).Some?
      ensures reply.status == 200 ==>
        reply.body == RequestSent(requesterId, ownerId, dataHash) &&
        nextRequestId == old(nextRequestId) + 1 &&
        consentRequests == old(consentRequests) + [ConsentRow(old(nextRequestId), ToText(requesterId), ToText(ownerId),
                                                              ToText(dataHash), "pending", now, None)]
      ensures reply.status != 200 ==> consentRequests == old(consentRequests) && nextRequestId == old(nextRequestId)
    {
      if !Truthy(requesterId) || !Truthy(ownerId) || !Truthy(dataHash) {
        return Reply(400, ErrorText("requesterId, ownerId, and dataHash are required"));
      }
      if requesterId == ownerId {
        return Reply(400, ErrorText("You cannot request access to your own data"));
      }
      var found := MatchingRecord(records, Some(ownerId), dataHash);
      if found.None? {
        return Reply(404, Message("Data not found or you don't have permission"));
      }
      var row := ConsentRow(nextRequestId, ToText(requesterId), ToText(ownerId), ToText(dataHash), "pending", now, None);
      consentRequests := consentRequests + [row];
      nextRequestId := nextRequestId + 1;
      reply := Reply(200, RequestSent(requesterId, ownerId, dataHash));
    }

    /** `grantConsent`: the request becomes approved only after the on-chain grant went through,
        and the consent flag is then set for the requester's address. */
    method GrantConsent(ownerId: JsVal, requestId: JsVal, now: int, node: Node, tx: TxOutcome, read: ReadOutcome,
                        update: DbOutcome)
      returns (reply: Reply)
      requires Valid()
      modifies this`consentRequests, chain
      ensures Valid()
      ensures records == old(records) && nextRequestId == old(nextRequestId) && chain.owners == old(chain.owners)
      ensures !Truthy(ownerId) || !Truthy(requestId) ==>
        reply == Reply(400, ErrorText("ownerId and requestId are required")) && unchanged(chain)
      ensures Truthy(ownerId) && Truthy(requestId) && PendingRequest(old(consentRequests), requestId, ownerId).None? ==>
        reply == Reply(404, Message("Consent request not found or already processed")) && unchanged(chain)
      ensures reply.status != 200 ==> consentRequests == old(consentRequests)
      ensures reply.status == 200 ==>
        GrantApplied(old(consentRequests), consentRequests, requestId, ownerId, now) &&
        var row := old(consentRequests)[PendingRequest(old(consentRequests), requestId, ownerId).value];
        ConsentOnChain(records, row, ownerId, chain.cachedAccounts, chain.consents, chain.keccak) &&
        reply.body.Granted? && reply.body.requestId == requestId && reply.body.grantingOwner == ownerId &&
        reply.body.grantedTo == row.requesterId
      ensures update.QueryFails? ==> reply.status != 200
      ensures reply.body.ServerError? && reply.body.failure.Database? ==>
        update.QueryFails? && reply == Reply(500, ServerError(Database(update.message))) &&
        ChainAheadOfTable(consentRequests, requestId, ownerId, records, chain.cachedAccounts, chain.consents, chain.keccak)
      ensures update.QueryFails? && reply != Reply(500, ServerError(Database(update.message))) ==>
        chain.consents == old(chain.consents)
      ensures Truthy(ownerId) && Truthy(requestId) && PendingRequest(old(consentRequests), requestId, ownerId).Some? ==>
        var e := GrantError(records, old(consentRequests)[PendingRequest(old(consentRequests), requestId, ownerId).value],
                            ownerId, Loaded(old(chain.cachedAccounts), node.accounts),
                            old(chain.isContractVerified) || Deployed(node.code), tx, update);
        (reply.status == 200 <==> e.None?) && (e.Some? ==> reply == e.value)
    {
      if !Truthy(ownerId) || !Truthy(requestId) {
        return Reply(400, ErrorText("ownerId and requestId are required"));
      }
      var pending := PendingRequest(consentRequests, requestId, ownerId);
      if pending.None? {
        return Reply(404, Message("Consent request not found or already processed"));
      }
      reply := GrantPending(requestId, ownerId, pending.value, now, node, tx, read, update);
    }

    /** Steps 2 to 5 of `grantConsent` once the SELECT found the pending row `k`. */
    method GrantPending(requestId: JsVal, ownerId: JsVal, k: nat, now: int, node: Node, tx: TxOutcome, read: ReadOutcome,
                        update: DbOutcome)
      returns (reply: Reply)
      requires Valid() && PendingRequest(consentRequests, requestId, ownerId) == Some(k)
      modifies this`consentRequests, chain
      ensures Valid() && chain.owners == old(chain.owners)
      ensures reply.status != 200 ==> consentRequests == old(consentRequests)
      ensures reply.status == 200 ==>
        GrantApplied(old(consentRequests), consentRequests, requestId, ownerId, now) &&
        ConsentOnChain(records, old(consentRequests)[k], ownerId, chain.cachedAccounts, chain.consents, chain.keccak) &&
        reply.body.Granted? && reply.body.requestId == requestId && reply.body.grantingOwner == ownerId &&
        reply.body.grantedTo == old(consentRequests)[k].requesterId
      ensures update.QueryFails? ==> reply.status != 200
      ensures reply.body.ServerError? && reply.body.failure.Database? ==>
        update.QueryFails? && reply == Reply(500, ServerError(Database(update.message))) &&
        ChainAheadOfTable(consentRequests, requestId, ownerId, records, chain.cachedAccounts, chain.consents, chain.keccak)
      ensures update.QueryFails? && reply != Reply(500, ServerError(Database(update.message))) ==>
        chain.consents == old(chain.consents)
      ensures var e := GrantError(records, old(consentRequests)[k], ownerId, Loaded(old(chain.cachedAccounts), node.accounts),
                                  old(chain.isContractVerified) || Deployed(node.code), tx, update);
        (reply.status == 200 <==> e.None?) && (e.Some? ==> reply == e.value)
      ensures MatchingRecord(records, Some(ownerId), Str(old(consentRequests)[k].dataHash)).None? ==> unchanged(chain)
    {
      var request := consentRequests[k];
      var found := MatchingRecord(records, Some(ownerId), Str(request.dataHash));
      if found.None? {
        return Reply(404, Message("Data not found"));
      }
      var record := records[found.value];
      var granted := GrantForRecord(record, request, ownerId, node, tx, read);
      if granted.Err? {
        return Reply(500, ServerError(granted.error));
      }
      if update.QueryFails? {
        // the grant is mined but the UPDATE rejected: the catch block answers 500
        return Reply(500, ServerError(Database(update.message)));
      }
      ApproveRequest(requestId, ownerId, now);
      reply := Reply(200, Granted(requestId, ownerId, request.requesterId, granted.value.transactionHash,
                                  granted.value.consentVerified));
    }

    /** The UPDATE of `grantConsent`: exactly the pending row the SELECT found is approved. */
    method ApproveRequest(requestId: JsVal, ownerId: JsVal, now: int)
      requires Valid() && PendingRequest(consentRequests, requestId, ownerId).Some?
      modifies this`consentRequests
      ensures Valid() && GrantApplied(old(consentRequests), consentRequests, requestId, ownerId, now)
    {
      ApproveOneRow(consentRequests, requestId, ownerId, now);
      ApproveKeepsRowsOk(consentRequests, PendingRequest(consentRequests, requestId, ownerId).value, now, nextRequestId);
      consentRequests := ApproveById(consentRequests, requestId, now);
    }

    /** Steps 3 and 4 of `grantConsent`: the two account lookups and the on-chain grant. */
    method GrantForRecord(record: RecordRow, request: ConsentRow, ownerId: JsVal, node: Node, tx: TxOutcome, read: ReadOutcome)
      returns (r: Result<GrantReceipt, Failure>)
      requires chain.Valid()
      modifies chain
      ensures chain.Valid() && chain.owners == old(chain.owners)
      ensures r.Ok? ==> ConsentForRecord(record, request, ownerId, chain.cachedAccounts, chain.consents, chain.keccak)
      ensures r.Err? ==> chain.consents == old(chain.consents) && !r.error.Database?
      ensures var f := GrantFailure(Loaded(old(chain.cachedAccounts), node.accounts),
                                    old(chain.isContractVerified) || Deployed(node.code), request, ownerId, tx);
        (r.Ok? <==> f.None?) && (r.Err? ==> r == Err(f.value))
    {
      var ownerIndex := Pred(ParseInt(ownerId));
      var info := chain.GetAccountInfo(node.accounts);
      if info.Err? {
        return Err(Chain(info.error));
      }
      var accounts := info.value.accounts;
      ghost var cached := chain.cachedAccounts.value;
      if !(ownerIndex.Int? && 0 <= ownerIndex.i < |accounts|) {
        return Err(NoSuchAccount);
      }
      var requesterIndex := Pred(ParseIntText(request.requesterId));
      if !(requesterIndex.Int? && 0 <= requesterIndex.i < |accounts|) {
        return Err(NoSuchAccount);
      }
      var requesterAddress := accounts[requesterIndex.i].address;
      assert requesterAddress == cached[requesterIndex.i];
      var granted := chain.GrantConsentOnBlockchain(record.dataValue, Some(requesterAddress), ownerIndex, node, tx, read);
      if granted.Err? {
        return Err(Chain(granted.error));
      }
      assert chain.cachedAccounts == Some(cached);
      r := Ok(granted.value);
    }

    /** `getPendingRequests`. */
    method GetPendingRequests(ownerId: string) returns (reply: Reply)
      ensures reply.status == 200 && reply.body.PendingList?
      ensures reply.body.pendingRequests == PendingRequests(consentRequests, records, ownerId)
      ensures reply.body.total == |reply.body.pendingRequests|
    {
      var rows := PendingRequests(consentRequests, records, ownerId);
      reply := Reply(200, PendingList(rows, |rows|));
    }

    /** `getData`: the data value is disclosed exactly when the chain reports consent for the
        requester's address. */
    method GetData(dataHash: string, requesterId: JsVal, node: Node, read: ReadOutcome) returns (reply: Reply)
      requires Valid()
      modifies chain
      ensures Valid()
      ensures chain.consents == old(chain.consents) && chain.owners == old(chain.owners)
      ensures !Truthy(requesterId) ==> reply == Reply(400, ErrorText("requesterId is required")) && unchanged(chain)
      ensures Truthy(requesterId) && MatchingRecord(records, None, Str(dataHash)).None? ==>
        reply == Reply(404, Message("Data not found")) && unchanged(chain)
      ensures Truthy(requesterId) && MatchingRecord(records, None, Str(dataHash)).Some? ==>
        reply == DisclosureReply(records[MatchingRecord(records, None, Str(dataHash)).value], requesterId,
                                 Loaded(old(chain.cachedAccounts), node.accounts),
                                 old(chain.isContractVerified) || Deployed(node.code), read,
                                 chain.consents, chain.keccak)
      ensures reply.status == 200 ==>
        chain.cachedAccounts.Some? &&
        RequesterConsent(chain.cachedAccounts.value, requesterId,
                         records[MatchingRecord(records, None, Str(dataHash)).value].dataValue, chain.consents, chain.keccak)
    {
      if !Truthy(requesterId) {
        return Reply(400, ErrorText("requesterId is required"));
      }
      var found := MatchingRecord(records, None, Str(dataHash));
      if found.None? {
        return Reply(404, Message("Data not found"));
      }
      reply := DiscloseRecord(records[found.value], requesterId, node, read);
    }

    /** Steps 2 to 4 of `getData` once the record is found: the account lookup, the consent
        check on the chain and the reply. */
    method DiscloseRecord(record: RecordRow, requesterId: JsVal, node: Node, read: ReadOutcome) returns (reply: Reply)
      requires chain.Valid()
      modifies chain
      ensures chain.Valid()
      ensures chain.consents == old(chain.consents) && chain.owners == old(chain.owners)
      ensures reply == DisclosureReply(record, requesterId, Loaded(old(chain.cachedAccounts), node.accounts),
                                       old(chain.isContractVerified) || Deployed(node.code), read,
                                       chain.consents, chain.keccak)
      ensures reply.status == 200 ==>
        chain.cachedAccounts.Some? &&
        RequesterConsent(chain.cachedAccounts.value, requesterId, record.dataValue, chain.consents, chain.keccak)
    {
      var info := chain.GetAccountInfo(node.accounts);
      if info.Err? {
        return Reply(500, ServerError(Chain(info.error)));
      }
      var accounts := info.value.accounts;
      ghost var cached := chain.cachedAccounts.value;
      var requesterIndex := Pred(ParseInt(requesterId));
      if !(requesterIndex.Int? && 0 <= requesterIndex.i < |accounts|) {
        return Reply(500, ServerError(NoSuchAccount));
      }
      var requesterAddress := accounts[requesterIndex.i].address;
      assert Loaded(old(chain.cachedAccounts), node.accounts) == Ok(cached);
      assert requesterAddress == cached[requesterIndex.i];
      var check := chain.CheckConsent(record.dataValue, Some(requesterAddress), Int(0), node, read);
      assert chain.cachedAccounts == Some(cached);
      assert (old(chain.isContractVerified) || Deployed(node.code)) ==>
        check.hasConsent == (read.ReadOk? && RequesterConsent(cached, requesterId, record.dataValue, chain.consents, chain.keccak));
      if !check.hasConsent {
        return Reply(403, AccessDenied(record.userId, requesterId));
      }
      reply := Reply(200, Disclosed(record.dataValue, record.userId, record.dataHash));
    }
  }
}
