/** The earlier certificate ledger (`NonFungibleToken` of soroban/src). Its
    split is the one of the current ledger without recipients; it differs
    in how state is stored and queried:
    - `write_owner` and `write_approval` store the `Option` itself, so a
      burnt certificate keeps a key holding `None`, and reading it as an
      address aborts (`ConversionFailed` here);
    - the disabled flag reads as false when absent;
    - expiry and payment are cached flags that only `check_expired` and
      `check_paid` set; `split` and `redeem` read the cached flags only. */
module EarlyLedger {
  import opened Types
  import opened Certificates
  import Token

  /** `WriteType` of `write_balance`. */
  datatype WriteType = Add | Remove

  datatype Sweep = Sweep(expired: bool, owners: map<int, Option<Address>>)

  /** `read_owner` on a given owner map: `NotFound` for a missing key,
      `ConversionFailed` for a stored `None`. */
  function OwnerIn(owners: map<int, Option<Address>>, id: int): (r: Result<Address>)
    ensures r.Ok? <==> id in owners && owners[id].Some?
    ensures r.Ok? ==> owners[id] == Some(r.value)
    ensures r.Err? ==> r.error == (if id in owners then ConversionFailed else NotFound)
  {
    if id !in owners then Err(NotFound)
    else if owners[id].None? then Err(ConversionFailed)
    else Ok(owners[id].value)
  }

  /** The error of the first id in `lo..hi` whose owner cannot be read. */
  function FirstReadError(owners: map<int, Option<Address>>, lo: int, hi: int): Option<Error>
    decreases hi - lo
  {
    if lo >= hi then None
    else if OwnerIn(owners, lo).Err? then Some(OwnerIn(owners, lo).error)
    else FirstReadError(owners, lo + 1, hi)
  }

  /** `FirstReadError` finds nothing exactly when every owner in the range
      is readable, and what it finds is a read error. */
  lemma {:induction false} FirstReadErrorNone(owners: map<int, Option<Address>>, lo: int, hi: int)
    ensures FirstReadError(owners, lo, hi).None? <==> forall i :: lo <= i < hi ==> OwnerIn(owners, i).Ok?
    ensures FirstReadError(owners, lo, hi).Some? ==>
      FirstReadError(owners, lo, hi).value == NotFound || FirstReadError(owners, lo, hi).value == ConversionFailed
    decreases hi - lo
  {
    if lo < hi {
      FirstReadErrorNone(owners, lo + 1, hi);
    }
  }

  class CertLedger {
    /** The ledger's own address; certificates it owns are in escrow. */
    const contractAddress: Address
    /** The order information: the invoice value and its maturity. */
    const totalAmount: U32
    const endTime: nat
    /** The external token provider contract. */
    const tokenProvider: Address

    var admin: Option<Address>
    var supply: int
    var owners: map<int, Option<Address>>
    var subNfts: map<int, SubNft>
    var disabled: map<int, bool>
    var recipients: map<int, Address>
    var approvals: map<int, Option<Address>>
    /** approve-all flags keyed by (owner, operator) */
    var approvalAll: map<(Address, Address), bool>
    var balances: map<Address, int>
    var minted: map<Address, bool>
    var name: Option<string>
    var symbol: Option<string>
    var uris: map<int, string>
    var expired: bool
    var paid: bool

    /** Ids are allocated from `supply`, so every record and every flag
        lies below it. */
    ghost predicate Valid()
      reads this`supply, this`subNfts, this`disabled
    {
      0 <= supply && (forall k :: k in subNfts ==> 0 <= k < supply) && (forall k :: k in disabled ==> 0 <= k < supply)
    }

    constructor (contractAddress: Address, totalAmount: U32, endTime: nat, tokenProvider: Address)
      ensures Valid()
      ensures this.contractAddress == contractAddress && this.totalAmount == totalAmount
      ensures this.endTime == endTime && this.tokenProvider == tokenProvider
      ensures admin == None && supply == 0 && owners == map[] && subNfts == map[] && disabled == map[]
      ensures recipients == map[] && approvals == map[] && approvalAll == map[] && balances == map[]
      ensures minted == map[] && name == None && symbol == None && uris == map[] && !expired && !paid
    {
      this.contractAddress := contractAddress;
      this.totalAmount := totalAmount;
      this.endTime := endTime;
      this.tokenProvider := tokenProvider;
      admin := None;
      supply := 0;
      owners, subNfts, disabled, recipients := map[], map[], map[], map[];
      approvals, approvalAll, balances, minted := map[], map[], map[], map[];
      name, symbol, uris := None, None, map[];
      expired, paid := false, false;
    }

    // ---------------------------------------------------------------
    // owner.rs
    // ---------------------------------------------------------------

    /** `read_owner`: the stored address; `NotFound` when the key is absent,
        and `ConversionFailed` when it holds the `None` a burn leaves. */
    function ReadOwner(id: int): (r: Result<Address>)
      reads this
      ensures r.Ok? <==> id in owners && owners[id].Some?
      ensures r.Ok? ==> owners[id] == Some(r.value)
      ensures r.Err? && id !in owners ==> r.error == NotFound
      ensures r.Err? && id in owners ==> r.error == ConversionFailed
    {
      OwnerIn(owners, id)
    }

    /** `write_owner` stores the `Option` as given: even `None` keeps the key. */
    method WriteOwner(id: int, owner: Option<Address>)
      modifies this`owners
      ensures owners == old(owners)[id := owner]
      ensures id in owners
      ensures ReadOwner(id) == if owner.Some? then Ok(owner.value) else Err(ConversionFailed)
    {
      owners := owners[id := owner];
    }

    /** `check_owner`: passes exactly when `auth` is the stored owner. */
    function CheckOwner(auth: Address, id: int): (r: Result<()>)
      reads this
      ensures r.Ok? <==> ReadOwner(id) == Ok(auth)
      ensures r.Err? ==> r.error == (if ReadOwner(id).Err? then ReadOwner(id).error else NotOwned)
    {
      var owner :- ReadOwner(id);
      if auth != owner then Err(NotOwned) else Ok(())
    }

    function ReadRecipient(id: int): (r: Result<Address>)
      reads this
      ensures r.Ok? <==> id in recipients
      ensures r.Ok? ==> r.value == recipients[id]
      ensures r.Err? ==> r.error == NotFound
    {
      if id in recipients then Ok(recipients[id]) else Err(NotFound)
    }

    method WriteRecipient(id: int, recipient: Address)
      modifies this`recipients
      ensures recipients == old(recipients)[id := recipient]
      ensures ReadRecipient(id) == Ok(recipient)
    {
      recipients := recipients[id := recipient];
    }

    /** `read_all_owned`: the ids below `supply` owned by `address` and not
        disabled, ascending; it aborts on the first owner it cannot read. */
    method ReadAllOwned(address: Address) returns (r: Result<seq<int>>)
      ensures r.Ok? <==> forall n :: 0 <= n < supply ==> ReadOwner(n).Ok?
      ensures r.Err? ==> Some(r.error) == FirstReadError(owners, 0, supply)
      ensures r.Ok? ==> Ascending(r.value)
      ensures r.Ok? ==> forall n :: n in r.value <==>
        (0 <= n < supply && ReadOwner(n) == Ok(address) && !ReadDisabled(n))
    {
      FirstReadErrorNone(owners, 0, supply);
      var ids: seq<int> := [];
      if supply > 0 {
        var n := 0;
        while n < supply
          invariant 0 <= n <= supply
          invariant forall m :: 0 <= m < n ==> ReadOwner(m).Ok?
          invariant FirstReadError(owners, 0, supply) == FirstReadError(owners, n, supply)
          invariant Ascending(ids)
          invariant forall k :: 0 <= k < |ids| ==> ids[k] < n
          invariant forall m :: m in ids <==> (0 <= m < n && ReadOwner(m) == Ok(address) && !ReadDisabled(m))
        {
          var owner := ReadOwner(n);
          if owner.Err? {
            return Err(owner.error);
          }
          if owner.value == address && !ReadDisabled(n) {
            ids := ids + [n];
          }
          n := n + 1;
        }
      }
      return Ok(ids);
    }

    // ---------------------------------------------------------------
    // sub_nft.rs
    // ---------------------------------------------------------------

    function ReadSubNft(id: int): (r: Result<SubNft>)
      reads this
      ensures r.Ok? <==> id in subNfts
      ensures r.Ok? ==> r.value == subNfts[id]
      ensures r.Err? ==> r.error == NotFound
    {
      if id in subNfts then Ok(subNfts[id]) else Err(NotFound)
    }

    /** `write_sub_nft` is write-once. */
    method WriteSubNft(id: int, root: int, amount: U32) returns (r: Result<()>)
      modifies this`subNfts
      ensures r.Ok? <==> id !in old(subNfts)
      ensures r.Err? ==> r.error == NotEmpty && subNfts == old(subNfts)
      ensures r.Ok? ==> subNfts == old(subNfts)[id := SubNft(root, amount)]
      ensures r.Ok? ==> ReadSubNft(id) == Ok(SubNft(root, amount))
    {
      if id in subNfts {
        return Err(NotEmpty);
      }
      subNfts := subNfts[id := SubNft(root, amount)];
      return Ok(());
    }

    /** `read_sub_nft_disabled`: false when the flag was never written. */
    function ReadDisabled(id: int): (r: bool)
      reads this
      ensures id !in disabled ==> !r
      ensures id in disabled ==> r == disabled[id]
    {
      id in disabled && disabled[id]
    }

    method WriteDisabled(id: int, value: bool)
      modifies this`disabled
      ensures disabled == old(disabled)[id := value]
      ensures ReadDisabled(id) == value
    {
      disabled := disabled[id := value];
    }

    // ---------------------------------------------------------------
    // approval.rs
    // ---------------------------------------------------------------

    /** `read_approval`: `NotFound` when absent, and a cleared approval
        (a stored `None`) does not read as an address. */
    function ReadApproval(id: int): (r: Result<Address>)
      reads this
      ensures r.Ok? <==> id in approvals && approvals[id].Some?
      ensures r.Ok? ==> approvals[id] == Some(r.value)
      ensures r.Err? ==> r.error == (if id in approvals then ConversionFailed else NotFound)
    {
      if id !in approvals then Err(NotFound)
      else if approvals[id].None? then Err(ConversionFailed)
      else Ok(approvals[id].value)
    }

    function ReadApprovalAll(owner: Address, operator: Address): (r: bool)
      reads this
      ensures (owner, operator) !in approvalAll ==> !r
      ensures (owner, operator) in approvalAll ==> r == approvalAll[(owner, operator)]
    {
      (owner, operator) in approvalAll && approvalAll[(owner, operator)]
    }

    /** `write_approval` stores the `Option` operator. */
    method WriteApproval(id: int, operator: Option<Address>)
      modifies this`approvals
      ensures approvals == old(approvals)[id := operator]
      ensures ReadApproval(id) == if operator.Some? then Ok(operator.value) else Err(ConversionFailed)
    {
      approvals := approvals[id := operator];
    }

    method WriteApprovalAll(owner: Address, operator: Address, approved: bool)
      modifies this`approvalAll
      ensures approvalAll == old(approvalAll)[(owner, operator) := approved]
      ensures ReadApprovalAll(owner, operator) == approved
      ensures forall o: Address, p: Address :: (o, p) != (owner, operator) ==>
        ReadApprovalAll(o, p) == old(ReadApprovalAll(o, p))
    {
      approvalAll := approvalAll[(owner, operator) := approved];
    }

    // ---------------------------------------------------------------
    // balance.rs
    // ---------------------------------------------------------------

    /** `read_balance`: 0 for an owner never written. */
    function ReadBalance(owner: Address): (r: int)
      reads this
      ensures owner !in balances ==> r == 0
      ensures owner in balances ==> r == balances[owner]
    {
      if owner in balances then balances[owner] else 0
    }

    /** `write_balance`: one up or one down, aborting outside i128. */
    method WriteBalance(owner: Address, writeType: WriteType) returns (r: Result<()>)
      modifies this`balances
      ensures var next := old(ReadBalance(owner)) + (if writeType == Add then 1 else -1);
        r.Ok? <==> I128_MIN <= next <= I128_MAX
      ensures r.Err? ==> r.error == Overflow && balances == old(balances)
      ensures r.Ok? ==>
        ReadBalance(owner) == old(ReadBalance(owner)) + (if writeType == Add then 1 else -1)
      ensures r.Ok? ==> balances == old(balances)[owner := ReadBalance(owner)]
      ensures forall o :: o != owner ==> ReadBalance(o) == old(ReadBalance(o))
    {
      var balance := ReadBalance(owner);
      var next := if writeType == Add then balance + 1 else balance - 1;
      if next > I128_MAX || next < I128_MIN {
        return Err(Overflow);
      }
      balances := balances[owner := next];
      return Ok(());
    }

    /** `increment_supply` aborts instead of wrapping at `i128::MAX`. */
    method IncrementSupply() returns (r: Result<()>)
      modifies this`supply
      ensures r.Ok? <==> old(supply) < I128_MAX
      ensures r.Ok? ==> supply == old(supply) + 1
      ensures r.Err? ==> r.error == Overflow && supply == old(supply)
    {
      if supply >= I128_MAX {
        return Err(Overflow);
      }
      supply := supply + 1;
      return Ok(());
    }

    function ReadMinted(owner: Address): (r: bool)
      reads this
      ensures r <==> owner in minted && minted[owner]
      ensures owner !in minted ==> !r
    {
      owner in minted && minted[owner]
    }

    method WriteMinted(owner: Address)
      modifies this`minted
      ensures minted == old(minted)[owner := true]
      ensures ReadMinted(owner) && CheckMinted(owner) == Err(AlreadyMinted)
    {
      minted := minted[owner := true];
    }

    /** `check_minted`: fails exactly for an owner already marked minted. */
    function CheckMinted(owner: Address): (r: Result<()>)
      reads this
      ensures r.Ok? <==> !(owner in minted && minted[owner])
      ensures r.Err? ==> r.error == AlreadyMinted
    {
      if ReadMinted(owner) then Err(AlreadyMinted) else Ok(())
    }

    // ---------------------------------------------------------------
    // metadata.rs
    // ---------------------------------------------------------------

    function ReadName(): (r: Result<string>)
      reads this
      ensures r.Ok? <==> name.Some?
      ensures r.Ok? ==> name == Some(r.value)
      ensures r.Err? ==> r.error == NotFound
    {
      if name.Some? then Ok(name.value) else Err(NotFound)
    }

    method WriteName(n: string)
      modifies this`name
      ensures name == Some(n) && ReadName() == Ok(n)
    {
      name := Some(n);
    }

    function ReadSymbol(): (r: Result<string>)
      reads this
      ensures r.Ok? <==> symbol.Some?
      ensures r.Ok? ==> symbol == Some(r.value)
      ensures r.Err? ==> r.error == NotFound
    {
      if symbol.Some? then Ok(symbol.value) else Err(NotFound)
    }

    method WriteSymbol(s: string)
      modifies this`symbol
      ensures symbol == Some(s) && ReadSymbol() == Ok(s)
    {
      symbol := Some(s);
    }

    function ReadTokenUri(id: int): (r: Result<string>)
      reads this
      ensures r.Ok? <==> id in uris
      ensures r.Ok? ==> r.value == uris[id]
      ensures r.Err? ==> r.error == NotFound
    {
      if id in uris then Ok(uris[id]) else Err(NotFound)
    }

    method WriteTokenUri(id: int, uri: string)
      modifies this`uris
      ensures uris == old(uris)[id := uri] && ReadTokenUri(id) == Ok(uri)
    {
      uris := uris[id := uri];
    }

    /** `write_expired` and `write_paid` overwrite the cached flags. */
    method WriteExpired(value: bool)
      modifies this`expired
      ensures expired == value
    {
      expired := value;
    }

    method WritePaid(value: bool)
      modifies this`paid
      ensures paid == value
    {
      paid := value;
    }

    // ---------------------------------------------------------------
    // contract.rs
    // ---------------------------------------------------------------

    /** `read_administrator` unwraps, so an unset admin aborts the call. */
    function ReadAdministrator(): (r: Result<Address>)
      reads this
      ensures r.Ok? <==> admin.Some?
      ensures r.Ok? ==> admin == Some(r.value)
      ensures r.Err? ==> r.error == Uninitialized
    {
      if admin.Some? then Ok(admin.value) else Err(Uninitialized)
    }

    method Initialize(newAdmin: Address) returns (r: Result<()>)
      modifies this`admin
      ensures r.Ok? <==> old(admin).None?
      ensures r.Err? ==> r.error == AlreadyInitialized && admin == old(admin)
      ensures r.Ok? ==> admin == Some(newAdmin)
    {
      if admin.Some? {
        return Err(AlreadyInitialized);
      }
      admin := Some(newAdmin);
      return Ok(());
    }

    method SetAdmin(newAdmin: Address, auth: set<Address>) returns (r: Result<()>)
      modifies this`admin
      ensures r.Ok? <==> old(admin).Some? && old(admin).value in auth
      ensures r.Err? ==> admin == old(admin) && r.error == (if old(admin).None? then Uninitialized else AuthFailed)
      ensures r.Ok? ==> admin == Some(newAdmin)
    {
      var current :- ReadAdministrator();
      if current !in auth {
        return Err(AuthFailed);
      }
      admin := Some(newAdmin);
      return Ok(());
    }

    method Appr(owner: Address, operator: Address, id: int, auth: set<Address>) returns (r: Result<()>)
      modifies this`approvals
      ensures r.Ok? <==> owner in auth && old(ReadOwner(id)) == Ok(owner)
      ensures r.Err? ==> approvals == old(approvals)
      ensures r.Err? ==> r.error == (if owner !in auth then AuthFailed else old(CheckOwner(owner, id)).error)
      ensures r.Ok? ==> approvals == old(approvals)[id := Some(operator)]
    {
      if owner !in auth {
        return Err(AuthFailed);
      }
      var c := CheckOwner(owner, id);
      if c.Err? {
        return Err(c.error);
      }
      WriteApproval(id, Some(operator));
      return Ok(());
    }

    method ApprAll(owner: Address, operator: Address, approved: bool, auth: set<Address>) returns (r: Result<()>)
      modifies this`approvalAll
      ensures r.Ok? <==> owner in auth
      ensures r.Err? ==> r.error == AuthFailed && approvalAll == old(approvalAll)
      ensures r.Ok? ==> approvalAll == old(approvalAll)[(owner, operator) := approved]
    {
      if owner !in auth {
        return Err(AuthFailed);
      }
      WriteApprovalAll(owner, operator, approved);
      return Ok(());
    }

    /** `transfer`: no sweep here; `from` must own `id` and sign. */
    method Transfer(from: Address, to: Address, id: int, auth: set<Address>) returns (r: Result<()>)
      modifies this`owners
      ensures r.Ok? <==> old(ReadOwner(id)) == Ok(from) && from in auth
      ensures r.Err? ==> owners == old(owners)
      ensures r.Err? ==> r.error == (if old(CheckOwner(from, id)).Err? then old(CheckOwner(from, id)).error else AuthFailed)
      ensures r.Ok? ==> owners == old(owners)[id := Some(to)]
    {
      var _ :- CheckOwner(from, id);
      if from !in auth {
        return Err(AuthFailed);
      }
      WriteOwner(id, Some(to));
      return Ok(());
    }

    /** `transfer_from`: approve-all, or else the per-id approval, which
        is read (and may abort) only when approve-all is not set. */
    method TransferFrom(spender: Address, from: Address, to: Address, id: int, auth: set<Address>)
      returns (r: Result<()>)
      modifies this`owners, this`approvals
      ensures r.Ok? <==> (old(ReadOwner(id)) == Ok(from) && spender in auth &&
        (old(ReadApprovalAll(from, spender)) || old(ReadApproval(id)) == Ok(spender)))
      ensures r.Err? ==> owners == old(owners) && approvals == old(approvals)
      ensures r.Err? ==>
        r.error == (if old(CheckOwner(from, id)).Err? then old(CheckOwner(from, id)).error
        else if spender !in auth then AuthFailed
        else if old(ReadApproval(id)).Err? then old(ReadApproval(id)).error
        else NotAuthorized)
      ensures r.Ok? ==> owners == old(owners)[id := Some(to)] && approvals == old(approvals)[id := None]
    {
      var _ :- CheckOwner(from, id);
      if spender !in auth {
        return Err(AuthFailed);
      }
      if !ReadApprovalAll(from, spender) {
        var approved :- ReadApproval(id);
        if spender != approved {
          return Err(NotAuthorized);
        }
      }
      WriteApproval(id, None);
      WriteOwner(id, Some(to));
      return Ok(());
    }

    /** One new certificate at id `supply`, which is then allocated. */
    method MintChild(parent: int, amount: U32, owner: Address) returns (newId: int)
      requires Valid() && supply < I128_MAX
      modifies this`subNfts, this`disabled, this`owners, this`supply
      ensures Valid()
      ensures newId == old(supply) && supply == old(supply) + 1
      ensures subNfts == old(subNfts)[newId := SubNft(parent, amount)]
      ensures disabled == old(disabled)[newId := false]
      ensures owners == old(owners)[newId := Some(owner)]
    {
      newId := supply;
      var w := WriteSubNft(newId, parent, amount);
      assert w.Ok?;
      WriteDisabled(newId, false);
      WriteOwner(newId, Some(owner));
      var inc := IncrementSupply();
      assert inc.Ok?;
    }

    method MintOriginal(to: Address, auth: set<Address>) returns (r: Result<()>)
      requires Valid()
      modifies this`subNfts, this`disabled, this`owners, this`supply
      ensures Valid()
      ensures r.Ok? <==> old(admin).Some? && old(admin).value in auth && old(supply) == 0
      ensures r.Err? ==>
        r.error == (if old(admin).None? then Uninitialized else if old(admin).value !in auth then AuthFailed else NotEmpty)
      ensures r.Err? ==> (supply == old(supply) && owners == old(owners) && subNfts == old(subNfts) &&
        disabled == old(disabled))
      ensures OnlyRises(old(disabled), disabled)
      ensures r.Ok? ==> supply == 1 && owners == old(owners)[0 := Some(to)] && disabled == old(disabled)[0 := false]
      ensures r.Ok? ==> subNfts == map[0 := SubNft(0, totalAmount)]
    {
      var a :- ReadAdministrator();
      if a !in auth {
        return Err(AuthFailed);
      }
      if supply != 0 {
        return Err(NotEmpty);
      }
      assert subNfts == map[] by {
        assert forall k :: k !in subNfts;
      }
      var id := MintChild(0, totalAmount, to);
      return Ok(());
    }

    /** `burn`: the admin clears the owner of `id` (the key stays, holding
        `None`). */
    method Burn(id: int, auth: set<Address>) returns (r: Result<()>)
      modifies this`owners
      ensures r.Ok? <==> old(admin).Some? && old(admin).value in auth && old(ReadOwner(id)).Ok?
      ensures r.Err? ==> owners == old(owners)
      ensures r.Err? ==>
        r.error == (if old(admin).None? then Uninitialized
        else if old(admin).value !in auth then AuthFailed
        else old(ReadOwner(id)).error)
      ensures r.Ok? ==> owners == old(owners)[id := None]
    {
      var a :- ReadAdministrator();
      if a !in auth {
        return Err(AuthFailed);
      }
      var _ :- ReadOwner(id);
      WriteOwner(id, None);
      return Ok(());
    }

    /** The error `split` aborts with, in the order its checks run. */
    ghost function SplitRejection(id: int, amounts: seq<U32>, auth: set<Address>): Option<Error>
      reads this
    {
      if ReadDisabled(id) then Some(NotPermitted)
      else if |amounts| == 0 then Some(InvalidArgs)
      else if expired then Some(NotPermitted)
      else if ReadOwner(id).Err? then Some(ReadOwner(id).error)
      else if ReadOwner(id).value !in auth then Some(AuthFailed)
      else if id !in subNfts then Some(NotFound)
      else if Sum(amounts) > U32_MAX then Some(Overflow)
      else if Sum(amounts) > subNfts[id].amount then Some(AmountTooMuch)
      else if supply + |ChildAmounts(amounts, subNfts[id].amount)| > I128_MAX then Some(Overflow)
      else None
    }

    /** `split`'s loop: one escrowed child per amount, counting down what
        remains of the parent's amount. */
    method MintRequested(id: int, amounts: seq<U32>, parentAmount: U32) returns (remaining: U32)
      requires Valid() && supply + |amounts| <= I128_MAX
      requires Sum(amounts) <= parentAmount
      modifies this`subNfts, this`disabled, this`owners, this`supply
      ensures Valid() && supply == old(supply) + |amounts|
      ensures remaining == parentAmount - Sum(amounts)
      ensures subNfts == Stored(old(subNfts), old(supply), ChildRecords(id, amounts))
      ensures disabled == Stored(old(disabled), old(supply), Repeat(|amounts|, false))
      ensures owners == Stored(old(owners), old(supply), Repeat(|amounts|, Some(contractAddress)))
    {
      ghost var s0, sub0, dis0, own0 := supply, subNfts, disabled, owners;
      ghost var recs, flags, escrow := ChildRecords(id, amounts), Repeat(|amounts|, false),
        Repeat(|amounts|, Some(contractAddress));
      remaining := parentAmount;
      var k := 0;
      while k < |amounts|
        invariant 0 <= k <= |amounts|
        invariant Valid() && supply == s0 + k
        invariant remaining == parentAmount - Sum(amounts[..k])
        invariant subNfts == StoredFirst(sub0, s0, recs, k)
        invariant disabled == StoredFirst(dis0, s0, flags, k)
        invariant owners == StoredFirst(own0, s0, escrow, k)
      {
        SumPrefixStep(amounts, k);
        SumPrefixLe(amounts, k + 1);
        var _ := MintChild(id, amounts[k], contractAddress);
        remaining := remaining - amounts[k];
        k := k + 1;
      }
      assert amounts[..|amounts|] == amounts;
      assert |recs| == |flags| == |escrow| == |amounts|;
    }

    /** `split`'s remainder child: when value is left over, one more
        child with that amount, kept by the splitting owner. */
    method MintRemainder(id: int, rest: U32, holder: Address)
      requires Valid() && supply + |Remainder(rest)| <= I128_MAX
      modifies this`subNfts, this`disabled, this`owners, this`supply
      ensures Valid() && supply == old(supply) + |Remainder(rest)|
      ensures subNfts == Stored(old(subNfts), old(supply), ChildRecords(id, Remainder(rest)))
      ensures disabled == Stored(old(disabled), old(supply), Repeat(|Remainder(rest)|, false))
      ensures owners == Stored(old(owners), old(supply), Repeat(|Remainder(rest)|, Some(holder)))
    {
      StoredShort(subNfts, supply, SubNft(id, rest));
      StoredShort(disabled, supply, false);
      StoredShort(owners, supply, Some(holder));
      if rest > 0 {
        assert ChildRecords(id, [rest]) == [SubNft(id, rest)];
        assert Repeat(1, false) == [false] && Repeat(1, Some(holder)) == [Some(holder)];
        var _ := MintChild(id, rest, holder);
      }
    }

    /** The writing half of `split`: the escrowed children, the remainder
        child, and the disabled parent. */
    method CreateChildren(id: int, amounts: seq<U32>, holder: Address, parentAmount: U32)
      requires Valid() && id in subNfts
      requires Sum(amounts) <= parentAmount
      requires supply + |ChildAmounts(amounts, parentAmount)| <= I128_MAX
      modifies this`subNfts, this`disabled, this`owners, this`supply
      ensures Valid()
      ensures supply == old(supply) + |ChildAmounts(amounts, parentAmount)|
      ensures subNfts == Stored(old(subNfts), old(supply), ChildRecords(id, ChildAmounts(amounts, parentAmount)))
      ensures OnlyRises(old(disabled), disabled)
      ensures disabled ==
        (Stored(old(disabled), old(supply), Repeat(|ChildAmounts(amounts, parentAmount)|, false)))[id := true]
      ensures owners == Stored(old(owners), old(supply),
        ChildOwners(|amounts|, Some(contractAddress), Some(holder), Sum(amounts) < parentAmount))
    {
      ghost var s0, sub0, dis0, own0 := supply, subNfts, disabled, owners;
      var remaining := MintRequested(id, amounts, parentAmount);
      MintRemainder(id, remaining, holder);
      ChildRecordsStored(sub0, s0, id, amounts, parentAmount);
      ChildrenStored(dis0, own0, s0, amounts, parentAmount, Some(contractAddress), Some(holder));
      StoredRaiseOnlyRises(dis0, s0, Repeat(|ChildAmounts(amounts, parentAmount)|, false), id);
      WriteDisabled(id, true);
    }

    /** `split` over a list of amounts: children owned by the ledger, then
        the remainder kept by the owner; the parent is disabled. */
    method Split(id: int, amounts: seq<U32>, auth: set<Address>) returns (r: Result<()>)
      requires Valid()
      modifies this`subNfts, this`disabled, this`owners, this`supply
      ensures Valid()
      ensures r.Err? <==> old(SplitRejection(id, amounts, auth)).Some?
      ensures r.Err? ==> r.error == old(SplitRejection(id, amounts, auth)).value
      ensures r.Err? ==> (supply == old(supply) && owners == old(owners) && subNfts == old(subNfts) &&
        disabled == old(disabled))
      ensures OnlyRises(old(disabled), disabled)
      ensures r.Ok? ==> Sum(ChildAmounts(amounts, old(subNfts[id].amount))) == old(subNfts[id].amount)
      ensures r.Ok? ==> supply == old(supply) + |ChildAmounts(amounts, old(subNfts[id].amount))|
      ensures r.Ok? ==>
        subNfts == Stored(old(subNfts), old(supply), ChildRecords(id, ChildAmounts(amounts, old(subNfts[id].amount))))
      ensures r.Ok? ==>
        disabled == (Stored(old(disabled), old(supply), Repeat(|ChildAmounts(amounts, old(subNfts[id].amount))|, false)))[id := true]
      ensures r.Ok? ==> owners == Stored(old(owners), old(supply),
        ChildOwners(|amounts|, Some(contractAddress), Some(old(ReadOwner(id)).value), Sum(amounts) < old(subNfts[id].amount)))
    {
      if ReadDisabled(id) {
        return Err(NotPermitted);
      }
      if |amounts| == 0 {
        return Err(InvalidArgs);
      }
      if expired {
        return Err(NotPermitted);
      }
      var holder :- ReadOwner(id);
      if holder !in auth {
        return Err(AuthFailed);
      }
      var root :- ReadSubNft(id);
      if Sum(amounts) > U32_MAX {
        return Err(Overflow);
      }
      if Sum(amounts) > root.amount {
        return Err(AmountTooMuch);
      }
      SplitConservesAmount(amounts, root.amount);
      if supply + |ChildAmounts(amounts, root.amount)| > I128_MAX {
        return Err(Overflow);
      }
      CreateChildren(id, amounts, holder, root.amount);
      return Ok(());
    }

    /** The error `redeem` aborts with, in the order its checks run. */
    ghost function RedeemRejection(id: int, auth: set<Address>, token: Token.TokenContract): Option<Error>
      reads this, token
    {
      if !expired || !paid then Some(NotPermitted)
      else if ReadOwner(id).Err? then Some(ReadOwner(id).error)
      else if ReadOwner(id).value !in auth then Some(AuthFailed)
      else if id !in subNfts then Some(NotFound)
      else if !token.CanTransfer(contractAddress, subNfts[id].amount) then Some(TransferFailed)
      else None
    }

    /** `redeem`: gated on the cached flags only; pays the certificate's
        amount unscaled and stores `None` as its owner. */
    method Redeem(id: int, auth: set<Address>, token: Token.TokenContract) returns (r: Result<()>)
      requires token.address == tokenProvider
      modifies this`owners, token`balances
      ensures r.Err? <==> old(RedeemRejection(id, auth, token)).Some?
      ensures r.Err? ==> (r.error == old(RedeemRejection(id, auth, token)).value &&
        owners == old(owners) && token.balances == old(token.balances))
      ensures r.Ok? ==> (owners == old(owners)[id := None] &&
        token.balances == old(token.AfterTransfer(contractAddress, ReadOwner(id).value, subNfts[id].amount)))
    {
      if !expired || !paid {
        return Err(NotPermitted);
      }
      var holder :- ReadOwner(id);
      if holder !in auth {
        return Err(AuthFailed);
      }
      var sub :- ReadSubNft(id);
      var t := token.Transfer(contractAddress, holder, sub.amount);
      if t.Err? {
        return Err(TransferFailed);
      }
      WriteOwner(id, None);
      return Ok(());
    }

    /** `check_paid`: the cached flag, or else whether the ledger's token
        balance covers `total_amount` (unscaled), cached once true. */
    method CheckPaid(token: Token.TokenContract) returns (r: bool)
      requires token.address == tokenProvider
      modifies this`paid
      ensures r == (old(paid) || token.Balance(contractAddress) >= totalAmount)
      ensures paid == r
      ensures old(paid) ==> paid
    {
      if paid {
        return true;
      }
      r := token.Balance(contractAddress) >= totalAmount;
      if r {
        WritePaid(true);
      }
    }

    /** The flag `check_expired` returns at time `now`, or the error of the
        first owner the first expiry cannot read (id 0, then `1..supply`). */
    ghost function ExpiryFlag(now: nat): Result<bool>
      reads this
    {
      if expired then Ok(true)
      else if now < endTime then Ok(false)
      else if FirstReadError(owners, 0, supply).Some? then Err(FirstReadError(owners, 0, supply).value)
      else Ok(true)
    }

    /** The owner map the sweep leaves: on first expiry every escrowed id in
        `1..supply` goes to the owner of certificate 0. */
    ghost function OwnersAfterSweep(now: nat): map<int, Option<Address>>
      reads this
      requires ExpiryFlag(now).Ok?
    {
      if expired || now < endTime || supply <= 0 then owners
      else Reclaim(owners, supply, Some(contractAddress), owners[0])
    }

    /** The reads and the loop of `check_expired`, without its writes. */
    method ComputeSweep(now: nat) returns (r: Result<Sweep>)
      ensures r.Ok? <==> ExpiryFlag(now).Ok?
      ensures r.Err? ==> r.error == ExpiryFlag(now).error
      ensures r.Ok? ==> r.value == Sweep(ExpiryFlag(now).value, OwnersAfterSweep(now))
    {
      if expired {
        return Ok(Sweep(true, owners));
      }
      if now < endTime {
        return Ok(Sweep(false, owners));
      }
      if supply <= 0 {
        return Ok(Sweep(true, owners));
      }
      var root := ReadOwner(0);
      if root.Err? {
        return Err(root.error);
      }
      var to := Some(root.value);
      var swept := owners;
      ReclaimEmptyRange(owners, 1, Some(contractAddress), to);
      var i := 1;
      while i < supply
        invariant 1 <= i <= supply
        invariant FirstReadError(owners, 0, supply) == FirstReadError(owners, i, supply)
        invariant swept == Reclaim(owners, i, Some(contractAddress), to)
      {
        var owner := ReadOwner(i);
        if owner.Err? {
          return Err(owner.error);
        }
        ReclaimStep(owners, i, Some(contractAddress), to);
        if owner.value == contractAddress {
          swept := swept[i := to];
        }
        i := i + 1;
      }
      return Ok(Sweep(true, swept));
    }

    /** `check_expired`: the lazy sweep, writing the flag and the owners. */
    method CheckExpired(now: nat) returns (r: Result<bool>)
      modifies this`owners, this`expired
      ensures r.Ok? <==> old(ExpiryFlag(now)).Ok?
      ensures r.Err? ==> (r.error == old(ExpiryFlag(now)).error && owners == old(owners) && expired == old(expired))
      ensures r.Ok? ==> r.value == expired && owners == old(OwnersAfterSweep(now))
      ensures old(expired) ==> r == Ok(true) && owners == old(owners)
      ensures !old(expired) ==> (r.Ok? ==> r.value == (now >= endTime))
      ensures !old(expired) && now < endTime ==> r == Ok(false) && owners == old(owners) && !expired
      ensures old(expired) ==> expired
      ensures r == Ok(true) && !old(expired) && 0 < old(supply) && old(owners)[0] != Some(contractAddress) ==>
        forall i :: 1 <= i < old(supply) && i in owners ==> owners[i] != Some(contractAddress)
    {
      var sweep :- ComputeSweep(now);
      if sweep.expired && !expired && 0 < supply && owners[0] != Some(contractAddress) {
        ReclaimLeavesNoEscrow(owners, supply, Some(contractAddress), owners[0]);
      }
      owners, expired := sweep.owners, sweep.expired;
      return Ok(sweep.expired);
    }
  }
}
