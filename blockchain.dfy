/**
 * The adapter between the backend and the consent contract (backend/blockchain.js).
 *
 * The Ethereum node is reached through `provider`; what it answers is an input here:
 * a `Node` value carries the answers to `getCode` and `listAccounts`, a `TxOutcome`
 * the fate of a submitted transaction, a `ReadOutcome` that of a view call. The
 * contract itself is abstract state: `consents` maps (bytes32 hash, address) to the
 * flag `checkConsent` reads, `owners` records which address stored a hash. keccak256
 * is a function the adapter is constructed with.
 *
 * The module-level variables `cachedAccounts` and `isContractVerified` are the fields
 * of class `Adapter`; every exported function of the source file is one of its methods.
 */
module Blockchain {
  import opened Wrappers
  import opened JsValues

  type Address = string
  type Hash32 = string

  predicate IsHexDigit(c: char) { '0' <= c <= '9' || 'a' <= c <= 'f' || 'A' <= c <= 'F' }

  /** Forty hex digits, from position `from` to the end. */
  predicate HexBody(s: string, from: nat) {
    |s| == from + 40 && forall k :: from <= k < |s| ==> IsHexDigit(s[k])
  }

  predicate IsBase36(c: char) { '0' <= c <= '9' || 'a' <= c <= 'z' || 'A' <= c <= 'Z' }

  /** The shape of an ICAP address: "XE", two check digits and 30 or 31 base-36 characters. */
  predicate IcapShaped(s: string) {
    (|s| == 34 || |s| == 35) && s[0] == 'X' && s[1] == 'E' && '0' <= s[2] <= '9' && '0' <= s[3] <= '9' &&
    forall k :: 4 <= k < |s| ==> IsBase36(s[k])
  }

  /** `ethers.isAddress` (v6 `getAddress` not throwing): 40 hex digits with or without a lower-case
      "0x" in front, or an ICAP address. Neither checksum is modelled. */
  predicate IsAddress(s: string) {
    HexBody(s, 0) || (|s| >= 2 && s[0] == '0' && s[1] == 'x' && HexBody(s, 2)) || IcapShaped(s)
  }

  /** The "0x" prefix is optional, but only in lower case. */
  lemma AddressPrefixOptional(h: string)
    requires HexBody(h, 0)
    ensures IsAddress(h) && IsAddress("0x" + h)
    ensures !IsAddress("0X" + h)
  {
    var u := "0X" + h;
    assert |u| == 42 && u[1] == 'X';
  }

  /** One element of what `provider.listAccounts()` yields. */
  datatype RawAccount =
    | TextAccount(text: string)                    // typeof account === 'string'
    | ObjectAccount(address: string, text: string) // an object; `address` is "" when absent, `text` is String(account)
    | OtherAccount(text: string)                   // anything else, by its String() form

  /** The mapping applied to each listed account; `None` is the `null` that the filter drops. */
  function Normalise(a: RawAccount): (r: Option<Address>)
    ensures r.Some? ==> r.value != ""
    ensures !a.ObjectAccount? ==> (r.Some? <==> IsAddress(a.text)) && (r.Some? ==> r.value == a.text)
    ensures a.ObjectAccount? && a.address != "" ==> r == Some(a.address)
  {
    match a
    case TextAccount(t) => if IsAddress(t) then Some(t) else None
    case ObjectAccount(addr, t) => if addr != "" then Some(addr) else if IsAddress(t) then Some(t) else None
    case OtherAccount(t) => if IsAddress(t) then Some(t) else None
  }

  /** `accounts.map(...).filter(account => account !== null)`. */
  function ValidAccounts(listed: seq<RawAccount>): (r: seq<Address>)
    ensures |r| <= |listed|
    ensures forall k :: 0 <= k < |r| ==> r[k] != ""
  {
    if listed == [] then []
    else (match Normalise(listed[0]) case Some(a) => [a] case None => []) + ValidAccounts(listed[1..])
  }

  /** The filter keeps the listing's order: it distributes over concatenation. */
  lemma {:induction false} ValidAccountsAppend(x: seq<RawAccount>, y: seq<RawAccount>)
    ensures ValidAccounts(x + y) == ValidAccounts(x) + ValidAccounts(y)
  {
    if x == [] {
      assert x + y == y;
    } else {
      assert (x + y)[0] == x[0];
      assert (x + y)[1..] == x[1..] + y;
      ValidAccountsAppend(x[1..], y);
    }
  }

  /** An address is kept exactly when some listed account normalises to it. */
  lemma {:induction false} ValidAccountsMembership(listed: seq<RawAccount>, a: Address)
    ensures a in ValidAccounts(listed) <==> exists k :: 0 <= k < |listed| && Normalise(listed[k]) == Some(a)
  {
    if listed != [] {
      ValidAccountsMembership(listed[1..], a);
      if a in ValidAccounts(listed[1..]) {
        var k :| 0 <= k < |listed[1..]| && Normalise(listed[1..][k]) == Some(a);
        assert Normalise(listed[k + 1]) == Some(a);
      }
      if exists k :: 0 <= k < |listed| && Normalise(listed[k]) == Some(a) {
        var k :| 0 <= k < |listed| && Normalise(listed[k]) == Some(a);
        if k > 0 {
          assert Normalise(listed[1..][k - 1]) == Some(a);
        }
      }
    }
  }

  /** The failures the adapter raises; the backend's 500 replies carry them. */
  datatype ChainError =
    | ProviderFailure(message: string)             // a provider RPC threw
    | NoValidAccounts                              // "No valid Ethereum accounts found from provider"
    | InvalidSignerIndex                           // "Invalid signer index: ... Must be a number."
    | IndexNotAvailable(index: int, available: nat)
    | ContractNotDeployed                          // "Contract not deployed at ..."
    | AlreadyExists(dataHash: Hash32)              // "Data already exists on blockchain. Hash: ..."
    | OnlyOwnerCanGrant(message: string)           // "Permission denied: Only the data owner can grant consent. ..."
    | NotDataOwner(message: string)                // "Permission denied: You are not the data owner. ..."
    | TxReverted(reason: string, message: string)  // a transaction error passed on unchanged
    | InvalidHashFormat                            // "Invalid hash format. ..."

  /** What the node answers to `getCode(CONTRACT_ADDRESS)` and `listAccounts()`. */
  datatype Node = Node(code: Result<string, string>, accounts: Result<seq<RawAccount>, string>)

  /** The fate of `contract.f(...)` followed by `tx.wait()`; `reason` is "" when the error has none. */
  datatype TxOutcome = Mined(receiptHash: string) | Reverted(reason: string, message: string)

  /** The fate of a view call: it answers from the contract's state, or it throws. */
  datatype ReadOutcome = ReadOk | ReadFails(message: string)

  // ---------------------------------------------------------------- the account cache

  type AccountCache = Option<seq<Address>>

  /** The cache never holds an empty list. */
  predicate CacheOk(cache: AccountCache) {
    cache.Some? ==> |cache.value| > 0
  }

  /**
   * One call of `getAccounts`: the new cache and the result. A filled cache is returned
   * without asking the node; otherwise the listing is normalised, and an empty result
   * is an error that leaves the cache empty (see Findings in README: the source assigns
   * the cache before that check).
   */
  function AccountsStep(cache: AccountCache, listed: Result<seq<RawAccount>, string>)
    : (out: (AccountCache, Result<seq<Address>, ChainError>))
    ensures out.1.Ok? ==> out.0 == Some(out.1.value)
  {
    if cache.Some? then (cache, Ok(cache.value))
    else match listed
      case Err(m) => (None, Err(ProviderFailure(m)))
      case Ok(raw) =>
        var accounts := ValidAccounts(raw);
        if |accounts| == 0 then (None, Err(NoValidAccounts)) else (Some(accounts), Ok(accounts))
  }

  /** `getAccounts` exactly as written: the filtered list is stored before the emptiness check. */
  function AccountsStepAsWritten(cache: AccountCache, listed: Result<seq<RawAccount>, string>)
    : (out: (AccountCache, Result<seq<Address>, ChainError>))
    ensures cache.Some? ==> out == (cache, Ok(cache.value))
  {
    if cache.Some? then (cache, Ok(cache.value))
    else match listed
      case Err(m) => (None, Err(ProviderFailure(m)))
      case Ok(raw) =>
        var accounts := ValidAccounts(raw);
        if |accounts| == 0 then (Some(accounts), Err(NoValidAccounts)) else (Some(accounts), Ok(accounts))
  }

  /** What `getAccounts` returns. */
  function Loaded(cache: AccountCache, listed: Result<seq<RawAccount>, string>): Result<seq<Address>, ChainError> {
    AccountsStep(cache, listed).1
  }

  /** A successful load is the normalised listing, never empty, and is what gets cached. */
  lemma LoadedAccounts(listed: Result<seq<RawAccount>, string>)
    ensures var out := AccountsStep(None, listed);
      out.1.Ok? <==> listed.Ok? && |ValidAccounts(listed.value)| > 0
    ensures var out := AccountsStep(None, listed);
      out.1.Ok? ==> out.1.value == ValidAccounts(listed.value) && out.0 == Some(out.1.value)
    ensures var out := AccountsStep(None, listed);
      out.1.Err? ==> out.0 == None
  {
  }

  /** The cache invariant is kept, so every list `getAccounts` returns is non-empty. */
  lemma AccountsStepKeepsCacheOk(cache: AccountCache, listed: Result<seq<RawAccount>, string>)
    requires CacheOk(cache)
    ensures CacheOk(AccountsStep(cache, listed).0)
    ensures AccountsStep(cache, listed).1.Ok? ==> |AccountsStep(cache, listed).1.value| > 0
  {
  }

  /** Once a load succeeded, later calls return the same list whatever the node would now
      say, and the cache stays as it is: nothing is reloaded. */
  lemma AccountsAreCached(cache: AccountCache, first: Result<seq<RawAccount>, string>,
                          later: Result<seq<RawAccount>, string>)
    requires AccountsStep(cache, first).1.Ok?
    ensures var (c1, r1) := AccountsStep(cache, first);
      AccountsStep(c1, later) == (c1, r1)
  {
  }

  /** As written, a listing with no valid address is cached as `[]`; since `[]` is truthy,
      the next call returns `[]` without error and without reloading. */
  lemma EmptyListingStaysCachedAsWritten(later: Result<seq<RawAccount>, string>)
    ensures AccountsStepAsWritten(None, Ok([TextAccount("not-an-address")])) == (Some([]), Err(NoValidAccounts))
    ensures AccountsStepAsWritten(Some([]), later) == (Some([]), Ok([]))
  {
    assert !IsAddress("not-an-address");
    assert ValidAccounts([TextAccount("not-an-address")]) == [];
  }

  /** Corrected: the same listing is an error, the cache stays empty, and the next call asks
      the node again. */
  lemma EmptyListingIsRetried(later: Result<seq<RawAccount>, string>)
    ensures AccountsStep(None, Ok([TextAccount("not-an-address")])) == (None, Err(NoValidAccounts))
    ensures later.Ok? && |ValidAccounts(later.value)| > 0 ==>
      AccountsStep(AccountsStep(None, Ok([TextAccount("not-an-address")])).0, later).1 == Ok(ValidAccounts(later.value))
  {
    assert !IsAddress("not-an-address");
    assert ValidAccounts([TextAccount("not-an-address")]) == [];
  }

  // ---------------------------------------------------------------- signer, contract

  /** The index checks of `getSigner`. */
  function CheckSignerIndex(index: Number, available: nat): (r: Result<nat, ChainError>)
    ensures r.Ok? <==> index.Int? && 0 <= index.i < available
    ensures r.Ok? ==> r.value == index.i
    ensures index.NaN? || (index.Int? && index.i < 0) ==> r == Err(InvalidSignerIndex)
    ensures index.Int? && index.i >= available ==> r == Err(IndexNotAvailable(index.i, available))
  {
    match index
    case NaN => Err(InvalidSignerIndex)
    case Int(i) =>
      if i < 0 then Err(InvalidSignerIndex)
      else if i >= available then Err(IndexNotAvailable(i, available))
      else Ok(i)
  }

  /** The address `getSigner(index)` signs with, given what `getAccounts` returned. */
  function SignerOf(loaded: Result<seq<Address>, ChainError>, index: Number): (r: Result<Address, ChainError>)
    ensures loaded.Err? ==> r == Err(loaded.error)
    ensures loaded.Ok? ==> (r.Ok? <==> index.Int? && 0 <= index.i < |loaded.value|)
    ensures loaded.Ok? && r.Ok? ==> r.value == loaded.value[index.i]
  {
    match loaded
    case Err(e) => Err(e)
    case Ok(accounts) =>
      match CheckSignerIndex(index, |accounts|)
      case Err(e) => Err(e)
      case Ok(i) => Ok(accounts[i])
  }

  /** `code === '0x'` means no contract. A failed `getCode` counts as not deployed. */
  predicate Deployed(code: Result<string, string>) {
    code.Ok? && code.value != "0x"
  }

  /** The signer the contract returned by `getContract(index)` is bound to. */
  function ContractSigner(verified: bool, cache: AccountCache, index: Number, node: Node): Result<Address, ChainError> {
    if !verified && !Deployed(node.code) then Err(ContractNotDeployed)
    else SignerOf(Loaded(cache, node.accounts), index)
  }

  /** The cache after `getContract`: accounts are only loaded once the deployment check passed. */
  function CacheAfterContract(verified: bool, cache: AccountCache, node: Node): AccountCache {
    if !verified && !Deployed(node.code) then cache
    else AccountsStep(cache, node.accounts).0
  }

  /** Once verified, `getContract`'s outcome no longer depends on what `getCode` would say. */
  lemma VerifiedContractSkipsCheck(cache: AccountCache, index: Number, node: Node, code: Result<string, string>)
    ensures ContractSigner(true, cache, index, node) == ContractSigner(true, cache, index, node.(code := code))
    ensures ContractSigner(false, cache, index, node.(code := Ok("0x"))) == Err(ContractNotDeployed)
  {
  }

  /** A successful `getContract` signs with `accounts[index]` of the cached list. */
  lemma ContractSignerIsCachedAccount(verified: bool, cache: AccountCache, index: Number, node: Node)
    requires CacheOk(cache)
    requires ContractSigner(verified, cache, index, node).Ok?
    ensures var c := CacheAfterContract(verified, cache, node);
      c.Some? && index.Int? && 0 <= index.i < |c.value| &&
      ContractSigner(verified, cache, index, node).value == c.value[index.i]
  {
  }

  // ---------------------------------------------------------------- the requester rule

  /** `accounts.find((account, index) => index !== signerIndex)`, searching from `from`. */
  function FindOther(accounts: seq<Address>, signerIndex: int, from: nat): (r: Option<Address>)
    ensures r.Some? ==> exists k :: from <= k < |accounts| && k != signerIndex && r.value == accounts[k]
    decreases |accounts| - from
  {
    if from >= |accounts| then None
    else if from != signerIndex then Some(accounts[from])
    else FindOther(accounts, signerIndex, from + 1)
  }

  /** `accounts.find(...) || accounts[0]`: the first account whose index is not the signer's. */
  function DefaultRequester(accounts: seq<Address>, signerIndex: int): (r: Address)
    requires |accounts| > 0
    ensures r in accounts
  {
    match FindOther(accounts, signerIndex, 0)
    case Some(a) => if a != "" then a else accounts[0]
    case None => accounts[0]
  }

  /** The search stops at index 0 unless that is the signer's, and then at index 1. */
  lemma DefaultRequesterClosedForm(accounts: seq<Address>, signerIndex: int)
    requires |accounts| > 0
    ensures signerIndex != 0 ==> DefaultRequester(accounts, signerIndex) == accounts[0]
    ensures signerIndex == 0 && |accounts| == 1 ==> DefaultRequester(accounts, signerIndex) == accounts[0]
    ensures signerIndex == 0 && |accounts| > 1 ==>
      DefaultRequester(accounts, signerIndex) == if accounts[1] != "" then accounts[1] else accounts[0]
  {
    if signerIndex == 0 {
      assert FindOther(accounts, 0, 0) == FindOther(accounts, 0, 1);
      if |accounts| > 1 {
        assert FindOther(accounts, 0, 1) == Some(accounts[1]);
      } else {
        assert FindOther(accounts, 0, 1) == None;
      }
    }
  }

  /** With two or more non-empty accounts, the default requester is never the signer's slot. */
  lemma DefaultRequesterIsAnotherAccount(accounts: seq<Address>, signerIndex: nat)
    requires |accounts| > 1 && signerIndex < |accounts|
    requires forall k :: 0 <= k < |accounts| ==> accounts[k] != ""
    ensures var k := if signerIndex == 0 then 1 else 0;
      k != signerIndex && DefaultRequester(accounts, signerIndex) == accounts[k]
  {
    DefaultRequesterClosedForm(accounts, signerIndex);
  }

  /** The grantee of a grant or check: the given address when it is a valid one, else the default. */
  function Grantee(requested: Option<string>, accounts: seq<Address>, signerIndex: int): (r: Address)
    requires |accounts| > 0
    ensures requested.Some? && IsAddress(requested.value) ==> r == requested.value
    ensures !(requested.Some? && IsAddress(requested.value)) ==> r == DefaultRequester(accounts, signerIndex)
  {
    if requested.Some? && requested.value != "" && IsAddress(requested.value) then requested.value
    else DefaultRequester(accounts, signerIndex)
  }

  // ---------------------------------------------------------------- results

  datatype StoreReceipt = StoreReceipt(transactionHash: string, data: string, dataHash: Hash32, owner: Address, storedBy: Address)

  datatype GrantReceipt = GrantReceipt(transactionHash: string, data: string, dataHash: Hash32, owner: Address,
                                       grantedTo: Address, consentVerified: Option<bool>)

  /** What `checkConsent` resolves to; it never rejects. */
  datatype ConsentCheck = ConsentCheck(hasConsent: bool, requester: Option<Address>, entryExists: bool, error: Option<ChainError>)

  datatype AccountEntry = AccountEntry(index: nat, address: Address, isValid: bool)
  datatype AccountInfo = AccountInfo(totalAccounts: nat, accounts: seq<AccountEntry>)

  /** The outcome of `contract.storeData(dataHash)` in `storeDataOnBlockchain`. */
  function StoreOutcome(dataHash: Hash32, data: string, signer: Address, tx: TxOutcome): (r: Result<StoreReceipt, ChainError>)
    ensures r.Ok? <==> tx.Mined?
    ensures r.Ok? ==> r.value.owner == signer && r.value.storedBy == signer && r.value.dataHash == dataHash
    ensures tx.Reverted? && (Includes(tx.reason, "already exists") || Includes(tx.reason, "already stored"))
      ==> r == Err(AlreadyExists(dataHash))
  {
    match tx
    case Mined(h) => Ok(StoreReceipt(h, data, dataHash, signer, signer))
    case Reverted(reason, message) =>
      if Includes(reason, "already exists") || Includes(reason, "already stored") then Err(AlreadyExists(dataHash))
      else Err(TxReverted(reason, message))
  }

  /** The outer catch of `grantConsentOnBlockchain`: a revert reason or an error message naming
      the owner rule becomes a permission error, every other error passes through. Only reverts
      carry a `reason`; every error carries a `message`. */
  function ClassifyGrantError(e: ChainError): (r: ChainError)
    ensures e.TxReverted? && (Includes(e.reason, "Only owner can grant") || Includes(e.message, "not the data owner")) ==>
      r == OnlyOwnerCanGrant(e.message)
    ensures e.TxReverted? && !Includes(e.reason, "Only owner can grant") && !Includes(e.message, "not the data owner") ==>
      r == if Includes(e.reason, "Not the data owner") then NotDataOwner(e.message) else e
    ensures e.ProviderFailure? ==> r == if Includes(e.message, "not the data owner") then OnlyOwnerCanGrant(e.message) else e
    ensures !e.TxReverted? && !e.ProviderFailure? ==> r == e
    ensures r == e || r.OnlyOwnerCanGrant? || r.NotDataOwner?
  {
    match e
    case TxReverted(reason, message) =>
      if Includes(reason, "Only owner can grant") || Includes(message, "not the data owner") then OnlyOwnerCanGrant(message)
      else if Includes(reason, "Not the data owner") then NotDataOwner(message)
      else e
    case ProviderFailure(message) =>
      if Includes(message, "not the data owner") then OnlyOwnerCanGrant(message) else e
    case _ => e
  }

  /** `hash.startsWith('0x') && hash.length === 66`: the only format check `storeExistingHash` makes. */
  predicate IsBytes32Text(hash: string) {
    |hash| >= 2 && hash[..2] == "0x" && |hash| == 66
  }

  /** The format check accepts exactly the 66-character strings that start with "0x". */
  lemma Bytes32TextChars(hash: string)
    ensures IsBytes32Text(hash) <==> |hash| == 66 && hash[0] == '0' && hash[1] == 'x'
  {
    if |hash| >= 2 {
      assert hash[..2] == [hash[0], hash[1]];
    }
  }

  /** The account list `getAccountInfo` reports. */
  function Describe(accounts: seq<Address>): (info: AccountInfo)
    ensures info.totalAccounts == |accounts| == |info.accounts|
    ensures forall k :: 0 <= k < |accounts| ==>
      info.accounts[k].index == k && info.accounts[k].address == accounts[k] && info.accounts[k].isValid == IsAddress(accounts[k])
  {
    AccountInfo(|accounts|, seq(|accounts|, k requires 0 <= k < |accounts| => AccountEntry(k, accounts[k], IsAddress(accounts[k]))))
  }

  /** A missing (hash, address) pair reads as `false`. */
  function Lookup(consents: map<(Hash32, Address), bool>, key: (Hash32, Address)): bool {
    key in consents && consents[key]
  }

  // ---------------------------------------------------------------- the adapter

  class Adapter {
    var cachedAccounts: AccountCache
    var isContractVerified: bool
    /** The contract's consent table, read by `checkConsent`. */
    var consents: map<(Hash32, Address), bool>
    /** The address that stored each hash. */
    var owners: map<Hash32, Address>
    /** `stringToBytes32`: keccak256 of the UTF-8 bytes. */
    const keccak: string -> Hash32

    ghost predicate Valid()
      reads this
    {
      CacheOk(cachedAccounts)
    }

    /** Module load, including the deployment check run at start-up. */
    constructor (keccak: string -> Hash32, startupCode: Result<string, string>)
      ensures Valid() && this.keccak == keccak
      ensures cachedAccounts == None && isContractVerified == Deployed(startupCode)
      ensures consents == map[] && owners == map[]
    {
      this.keccak := keccak;
      cachedAccounts := None;
      consents := map[];
      owners := map[];
      isContractVerified := Deployed(startupCode);
    }

    /** `verifyContractDeployment` (and `getDeploymentStatus`). */
    method VerifyContractDeployment(code: Result<string, string>) returns (deployed: bool)
      modifies this`isContractVerified
      ensures deployed == Deployed(code)
      ensures isContractVerified == (old(isContractVerified) || deployed)
    {
      match code {
        case Err(_) =>
          deployed := false;
        case Ok(c) =>
          if c == "0x" {
            deployed := false;
          } else {
            isContractVerified := true;
            deployed := true;
          }
      }
    }

    /** `getAccounts`. */
    method GetAccounts(listed: Result<seq<RawAccount>, string>) returns (r: Result<seq<Address>, ChainError>)
      requires Valid()
      modifies this`cachedAccounts
      ensures Valid()
      ensures (cachedAccounts, r) == AccountsStep(old(cachedAccounts), listed)
    {
      if cachedAccounts.None? {
        match listed {
          case Err(m) =>
            return Err(ProviderFailure(m));
          case Ok(raw) =>
            var accounts := ValidAccounts(raw);
            if |accounts| == 0 {
              return Err(NoValidAccounts);
            }
            cachedAccounts := Some(accounts);
        }
      }
      r := Ok(cachedAccounts.value);
    }

    /** `getSigner(index)`: the signer is identified by its address. */
    method GetSigner(index: Number, listed: Result<seq<RawAccount>, string>) returns (r: Result<Address, ChainError>)
      requires Valid()
      modifies this`cachedAccounts
      ensures Valid() && consents == old(consents) && owners == old(owners)
      ensures cachedAccounts == AccountsStep(old(cachedAccounts), listed).0
      ensures r == SignerOf(Loaded(old(cachedAccounts), listed), index)
    {
      var accounts := GetAccounts(listed);
      if accounts.Err? {
        return Err(accounts.error);
      }
      var i := CheckSignerIndex(index, |accounts.value|);
      if i.Err? {
        return Err(i.error);
      }
      r := Ok(accounts.value[i.value]);
    }

    /** `getContract(signerIndex)`: the contract bound to the signer's address. */
    method GetContract(signerIndex: Number, node: Node) returns (r: Result<Address, ChainError>)
      requires Valid()
      modifies this`cachedAccounts, this`isContractVerified
      ensures Valid()
      ensures isContractVerified == (old(isContractVerified) || Deployed(node.code))
      ensures cachedAccounts == CacheAfterContract(old(isContractVerified), old(cachedAccounts), node)
      ensures r == ContractSigner(old(isContractVerified), old(cachedAccounts), signerIndex, node)
    {
      if !isContractVerified {
        var deployed := VerifyContractDeployment(node.code);
        if !deployed {
          return Err(ContractNotDeployed);
        }
      }
      r := GetSigner(signerIndex, node.accounts);
    }

    /** `storeDataOnBlockchain(data, signerIndex)`. */
    method StoreDataOnBlockchain(data: string, signerIndex: Number, node: Node, tx: TxOutcome)
      returns (r: Result<StoreReceipt, ChainError>)
      requires Valid()
      modifies this
      ensures Valid() && consents == old(consents)
      ensures isContractVerified == (old(isContractVerified) || Deployed(node.code))
      ensures cachedAccounts == CacheAfterContract(old(isContractVerified), old(cachedAccounts), node)
      ensures var signer := ContractSigner(old(isContractVerified), old(cachedAccounts), signerIndex, node);
        signer.Err? ==> r == Err(signer.error) && owners == old(owners)
      ensures var signer := ContractSigner(old(isContractVerified), old(cachedAccounts), signerIndex, node);
        signer.Ok? ==> (r == StoreOutcome(keccak(data), data, signer.value, tx) &&
                        owners == if tx.Mined? then old(owners)[keccak(data) := signer.value] else old(owners))
    {
      var contract := GetContract(signerIndex, node);
      if contract.Err? {
        return Err(contract.error);
      }
      var accounts := GetAccounts(node.accounts);
      var signerAddress := accounts.value[signerIndex.i];
      var dataHash := keccak(data);
      match tx {
        case Mined(h) =>
          owners := owners[dataHash := signerAddress];
          r := Ok(StoreReceipt(h, data, dataHash, signerAddress, signerAddress));
        case Reverted(reason, message) =>
          if Includes(reason, "already exists") || Includes(reason, "already stored") {
            r := Err(AlreadyExists(dataHash));
          } else {
            r := Err(TxReverted(reason, message));
          }
      }
    }

    /** `grantConsentOnBlockchain(data, requesterAddress, ownerSignerIndex)`. A mined grant sets
        the consent flag; a failed verification read still returns the receipt, with
        `consentVerified` null. */
    method GrantConsentOnBlockchain(data: string, requesterAddress: Option<string>, ownerSignerIndex: Number,
                                    node: Node, tx: TxOutcome, read: ReadOutcome)
      returns (r: Result<GrantReceipt, ChainError>)
      requires Valid()
      modifies this
      ensures Valid() && owners == old(owners)
      ensures isContractVerified == (old(isContractVerified) || Deployed(node.code))
      ensures cachedAccounts == CacheAfterContract(old(isContractVerified), old(cachedAccounts), node)
      ensures var signer := ContractSigner(old(isContractVerified), old(cachedAccounts), ownerSignerIndex, node);
        signer.Err? ==> r == Err(ClassifyGrantError(signer.error)) && consents == old(consents)
      ensures var signer := ContractSigner(old(isContractVerified), old(cachedAccounts), ownerSignerIndex, node);
        signer.Ok? && tx.Reverted? ==> r == Err(ClassifyGrantError(TxReverted(tx.reason, tx.message))) && consents == old(consents)
      ensures var signer := ContractSigner(old(isContractVerified), old(cachedAccounts), ownerSignerIndex, node);
        signer.Ok? && tx.Mined? ==>
          cachedAccounts.Some? && ownerSignerIndex.Int? && 0 <= ownerSignerIndex.i < |cachedAccounts.value| &&
          var grantee := Grantee(requesterAddress, cachedAccounts.value, ownerSignerIndex.i);
          consents == old(consents)[(keccak(data), grantee) := true] &&
          r == Ok(GrantReceipt(tx.receiptHash, data, keccak(data), signer.value, grantee,
                               if read.ReadOk? then Some(true) else None))
      ensures old(cachedAccounts).Some? ==> cachedAccounts == old(cachedAccounts)
      ensures r.Ok? ==>
        cachedAccounts.Some? && ownerSignerIndex.Int? && 0 <= ownerSignerIndex.i < |cachedAccounts.value| &&
        consents == old(consents)[(keccak(data), Grantee(requesterAddress, cachedAccounts.value, ownerSignerIndex.i)) := true]
      ensures r.Err? ==> consents == old(consents)
    {
      ghost var cache0, verified0 := cachedAccounts, isContractVerified;
      var contract := GetContract(ownerSignerIndex, node);
      if contract.Err? {
        return Err(ClassifyGrantError(contract.error));
      }
      ContractSignerIsCachedAccount(verified0, cache0, ownerSignerIndex, node);
      var accounts := GetAccounts(node.accounts);
      var index := ownerSignerIndex.i;
      var ownerAddress := accounts.value[index];
      var requester := Grantee(requesterAddress, accounts.value, index);
      var dataHash := keccak(data);
      match tx {
        case Reverted(reason, message) =>
          return Err(ClassifyGrantError(TxReverted(reason, message)));
        case Mined(h) =>
          consents := consents[(dataHash, requester) := true];
          var verified := match read case ReadOk => Some(Lookup(consents, (dataHash, requester))) case ReadFails(_) => None;
          r := Ok(GrantReceipt(h, data, dataHash, ownerAddress, requester, verified));
      }
    }

    /** `checkConsent(data, requesterAddress, signerIndex)`: fails closed. Any error, whether of
        the contract lookup or of the read, yields `hasConsent: false`. */
    method CheckConsent(data: string, requesterAddress: Option<string>, signerIndex: Number, node: Node, read: ReadOutcome)
      returns (c: ConsentCheck)
      requires Valid()
      modifies this`cachedAccounts, this`isContractVerified
      ensures Valid() && consents == old(consents) && owners == old(owners)
      ensures isContractVerified == (old(isContractVerified) || Deployed(node.code))
      ensures cachedAccounts == CacheAfterContract(old(isContractVerified), old(cachedAccounts), node)
      ensures var signer := ContractSigner(old(isContractVerified), old(cachedAccounts), signerIndex, node);
        signer.Err? ==> c == ConsentCheck(false, None, false, Some(signer.error))
      ensures var signer := ContractSigner(old(isContractVerified), old(cachedAccounts), signerIndex, node);
        signer.Ok? ==>
          cachedAccounts.Some? && signerIndex.Int? &&
          var grantee := Grantee(requesterAddress, cachedAccounts.value, signerIndex.i);
          c == ConsentCheck(read.ReadOk? && Lookup(consents, (keccak(data), grantee)), Some(grantee), read.ReadOk?, None)
      ensures c.hasConsent ==> read.ReadOk? && c.requester.Some? && Lookup(consents, (keccak(data), c.requester.value))
      ensures old(cachedAccounts).Some? ==> cachedAccounts == old(cachedAccounts)
      ensures old(cachedAccounts).Some? && (old(isContractVerified) || Deployed(node.code)) &&
              signerIndex.Int? && 0 <= signerIndex.i < |old(cachedAccounts).value| ==>
        c.hasConsent == (read.ReadOk? &&
                         Lookup(consents, (keccak(data), Grantee(requesterAddress, old(cachedAccounts).value, signerIndex.i))))
    {
      ghost var cache0, verified0 := cachedAccounts, isContractVerified;
      var contract := GetContract(signerIndex, node);
      if contract.Err? {
        return ConsentCheck(false, None, false, Some(contract.error));
      }
      ContractSignerIsCachedAccount(verified0, cache0, signerIndex, node);
      var accounts := GetAccounts(node.accounts);
      var requester := Grantee(requesterAddress, accounts.value, signerIndex.i);
      var dataHash := keccak(data);
      match read {
        case ReadOk =>
          c := ConsentCheck(Lookup(consents, (dataHash, requester)), Some(requester), true, None);
        case ReadFails(_) =>
          c := ConsentCheck(false, Some(requester), false, None);
      }
    }

    /** `storeExistingHash(hash, signerIndex)`: the format check comes before any contract call. */
    method StoreExistingHash(hash: string, signerIndex: Number, node: Node, tx: TxOutcome)
      returns (r: Result<StoreReceipt, ChainError>)
      requires Valid()
      modifies this
      ensures Valid() && consents == old(consents)
      ensures !IsBytes32Text(hash) ==>
        r == Err(InvalidHashFormat) && cachedAccounts == old(cachedAccounts) &&
        isContractVerified == old(isContractVerified) && owners == old(owners)
      ensures IsBytes32Text(hash) ==>
        isContractVerified == (old(isContractVerified) || Deployed(node.code)) &&
        cachedAccounts == CacheAfterContract(old(isContractVerified), old(cachedAccounts), node)
      ensures var signer := ContractSigner(old(isContractVerified), old(cachedAccounts), signerIndex, node);
        IsBytes32Text(hash) && signer.Err? ==> r == Err(signer.error) && owners == old(owners)
      ensures var signer := ContractSigner(old(isContractVerified), old(cachedAccounts), signerIndex, node);
        IsBytes32Text(hash) && signer.Ok? ==>
          match tx
          case Mined(h) => r == Ok(StoreReceipt(h, hash, hash, signer.value, signer.value)) && owners == old(owners)[hash := signer.value]
          case Reverted(reason, message) => r == Err(TxReverted(reason, message)) && owners == old(owners)
    {
      if !(|hash| >= 2 && hash[..2] == "0x") || |hash| != 66 {
        return Err(InvalidHashFormat);
      }
      var contract := GetContract(signerIndex, node);
      if contract.Err? {
        return Err(contract.error);
      }
      var accounts := GetAccounts(node.accounts);
      var signerAddress := accounts.value[signerIndex.i];
      match tx {
        case Mined(h) =>
          owners := owners[hash := signerAddress];
          r := Ok(StoreReceipt(h, hash, hash, signerAddress, signerAddress));
        case Reverted(reason, message) =>
          r := Err(TxReverted(reason, message));
      }
    }

    /** `getAccountInfo()`. */
    method GetAccountInfo(listed: Result<seq<RawAccount>, string>) returns (r: Result<AccountInfo, ChainError>)
      requires Valid()
      modifies this`cachedAccounts
      ensures Valid() && consents == old(consents) && owners == old(owners)
      ensures cachedAccounts == AccountsStep(old(cachedAccounts), listed).0
      ensures var loaded := Loaded(old(cachedAccounts), listed);
        r == if loaded.Ok? then Ok(Describe(loaded.value)) else Err(loaded.error)
      ensures r.Ok? ==> cachedAccounts.Some? && r.value == Describe(cachedAccounts.value)
    {
      var accounts := GetAccounts(listed);
      if accounts.Err? {
        return Err(accounts.error);
      }
      r := Ok(Describe(accounts.value));
    }
  }
}
