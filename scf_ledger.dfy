/** The current certificate ledger (`NonFungibleToken` of scf_soroban).
    An invoice of `totalAmount` is minted as certificate 0; a certificate
    can be split into children held in escrow by the ledger itself until
    their recipient signs off; once the invoice matures the first call that
    notices it hands every unclaimed child to the owner of certificate 0.
    Each contract storage key is a field of the class, and each entry point
    is one atomic transition: on `Err` nothing has changed. */
module ScfLedger {
  import opened Types
  import opened Certificates
  import Token

  /** The loan-aware certificate record kept by the sub_tc helpers. */
  datatype SubTc = SubTc(parent: int, depth: U32, amount: U32)

  /** One requested part of a split: its value and who may claim it. */
  datatype SplitRequest = SplitRequest(amount: U32, to: Address)

  /** The payment token and its number of decimals. */
  datatype ExternalToken = ExternalToken(contractAddr: Address, decimals: U32)

  /** What the expiry sweep computes: the flag it returns and the owner map
      it leaves. */
  datatype Sweep = Sweep(expired: bool, owners: map<int, Address>)

  /** Limits on the verifiable-credential list of a certificate. */
  const VC_MAX_LEN: nat := 2048
  const VC_MAX_COUNT: nat := 10

  function Amounts(splits: seq<SplitRequest>): seq<U32>
  {
    seq(|splits|, k requires 0 <= k < |splits| => splits[k].amount)
  }

  function Recipients(splits: seq<SplitRequest>): seq<Address>
  {
    seq(|splits|, k requires 0 <= k < |splits| => splits[k].to)
  }

  /** `split`'s first loop: the u32 sum of the requested amounts, which
      aborts with `Overflow` as soon as a partial sum leaves the u32 range. */
  method SumAmounts(splits: seq<SplitRequest>) returns (r: Result<U32>)
    ensures r.Ok? <==> Sum(Amounts(splits)) <= U32_MAX
    ensures r.Ok? ==> r.value == Sum(Amounts(splits))
    ensures r.Err? ==> r.error == Overflow
  {
    var amts := Amounts(splits);
    var sum: U32 := 0;
    var k := 0;
    while k < |splits|
      invariant 0 <= k <= |splits|
      invariant sum == Sum(amts[..k])
    {
      SumPrefixStep(amts, k);
      if sum + splits[k].amount > U32_MAX {
        SumPrefixLe(amts, k + 1);
        return Err(Overflow);
      }
      sum := sum + splits[k].amount;
      k := k + 1;
    }
    assert amts[..|splits|] == amts;
    return Ok(sum);
  }

  /** `read_all_owned` finds an owner for every id in `0..supply` and a
      disabled flag for every id that `address` owns. */
  ghost predicate AllOwnedReadable(owners: map<int, Address>, disabled: map<int, bool>, supply: int, address: Address)
  {
    forall n :: 0 <= n < supply ==> n in owners && (owners[n] == address ==> n in disabled)
  }

  /** Id `n` is one `read_all_owned` lists for `address`. */
  ghost predicate Listed(owners: map<int, Address>, disabled: map<int, bool>, supply: int, address: Address, n: int)
  {
    0 <= n < supply && n in owners && owners[n] == address && n in disabled && !disabled[n]
  }

  class CertLedger {
    /** The ledger's own address; certificates it owns are in escrow. */
    const contractAddress: Address
    /** The order information: invoice value and maturity timestamp. */
    const totalAmount: U32
    const endTime: nat
    /** The token in which the invoice is paid and redeemed. */
    const extToken: ExternalToken

    var admin: Option<Address>
    var supply: int
    var owners: map<int, Address>
    var subNfts: map<int, SubNft>
    var disabled: map<int, bool>
    var recipients: map<int, Address>
    var approvals: map<int, Address>
    /** approve-all flags keyed by (owner, operator) */
    var approvalAll: map<(Address, Address), bool>
    var minted: map<Address, bool>
    /** The cached `Expired` and `Paid` flags; an absent key reads as false. */
    var expired: bool
    var paid: bool
    var vcs: map<int, seq<string>>
    var subTcs: map<int, SubTc>
    var loanStatus: map<int, U32>
    var loanContract: Option<Address>

    /** Ids are allocated from `supply`, so every record and every flag
        lies below it. */
    ghost predicate Valid()
      reads this`supply, this`subNfts, this`disabled
    {
      0 <= supply && (forall k :: k in subNfts ==> 0 <= k < supply) && (forall k :: k in disabled ==> 0 <= k < supply)
    }

    /** A freshly deployed ledger for one order: empty storage. */
    constructor (contractAddress: Address, totalAmount: U32, endTime: nat, extToken: ExternalToken)
      ensures Valid()
      ensures this.contractAddress == contractAddress && this.totalAmount == totalAmount
      ensures this.endTime == endTime && this.extToken == extToken
      ensures admin == None && supply == 0 && owners == map[] && subNfts == map[]
      ensures disabled == map[] && recipients == map[] && approvals == map[] && approvalAll == map[]
      ensures minted == map[] && !expired && !paid && vcs == map[] && subTcs == map[]
      ensures loanStatus == map[] && loanContract == None
    {
      this.contractAddress := contractAddress;
      this.totalAmount := totalAmount;
      this.endTime := endTime;
      this.extToken := extToken;
      admin := None;
      supply := 0;
      owners, subNfts, disabled, recipients := map[], map[], map[], map[];
      approvals, approvalAll, minted := map[], map[], map[];
      expired, paid := false, false;
      vcs, subTcs, loanStatus, loanContract := map[], map[], map[], None;
    }

    // ---------------------------------------------------------------
    // owner.rs
    // ---------------------------------------------------------------

    /** `read_owner`: the stored owner, or `NotFound`. */
    function ReadOwner(id: int): (r: Result<Address>)
      reads this
      ensures r.Ok? <==> id in owners
      ensures r.Ok? ==> r.value == owners[id]
      ensures r.Err? ==> r.error == NotFound
    {
      if id in owners then Ok(owners[id]) else Err(NotFound)
    }

    /** `write_owner`: `Some` stores the owner, `None` removes the key. */
    method WriteOwner(id: int, owner: Option<Address>)
      modifies this`owners
      ensures owners == if owner.Some? then old(owners)[id := owner.value] else old(owners) - {id}
      ensures ReadOwner(id) == if owner.Some? then Ok(owner.value) else Err(NotFound)
      ensures forall j :: j != id ==> ReadOwner(j) == old(ReadOwner(j))
    {
      if owner.Some? {
        owners := owners[id := owner.value];
      } else {
        owners := owners - {id};
      }
    }

    /** `check_owner`: fails `NotOwned` exactly when `auth` is not the
        stored owner (and `NotFound` when there is none). */
    function CheckOwner(auth: Address, id: int): (r: Result<()>)
      reads this
      ensures r.Ok? <==> ReadOwner(id) == Ok(auth)
      ensures r.Err? ==> r.error == (if id in owners then NotOwned else NotFound)
    {
      var owner :- ReadOwner(id);
      if auth != owner then Err(NotOwned) else Ok(())
    }

    function ReadRecipient(id: int): (r: Result<Address>)
      reads this
      ensures r.Ok? <==> id in recipients
      ensures r.Ok? ==> r.value == recipients[id]
      ensures r.Err? ==> r.error == NotFound
    {
      if id in recipients then Ok(recipients[id]) else Err(NotFound)
    }

    method WriteRecipient(id: int, recipient: Address)
      modifies this`recipients
      ensures recipients == old(recipients)[id := recipient]
      ensures ReadRecipient(id) == Ok(recipient)
    {
      recipients := recipients[id := recipient];
    }

    /** `read_all_owned`: the ids in `0..supply` owned by `address` and not
        disabled, in ascending order. Reading aborts with `NotFound` on an
        id without owner, or on an id owned by `address` without a disabled
        flag (the flag is only read for matching owners). */
    method ReadAllOwned(address: Address) returns (r: Result<seq<int>>)
      ensures r.Ok? <==> AllOwnedReadable(owners, disabled, supply, address)
      ensures r.Err? ==> r.error == NotFound
      ensures r.Ok? ==> Ascending(r.value)
      ensures r.Ok? ==> forall n :: n in r.value <==> Listed(owners, disabled, supply, address, n)
    {
      var ids: seq<int> := [];
      if supply > 0 {
        var n := 0;
        while n < supply
          invariant 0 <= n <= supply
          invariant forall m :: 0 <= m < n ==> m in owners && (owners[m] == address ==> m in disabled)
          invariant forall k, l :: 0 <= k < l < |ids| ==> ids[k] < ids[l]
          invariant forall k :: 0 <= k < |ids| ==> ids[k] < n
          invariant forall m :: m in ids <==>
            0 <= m < n && m in owners && owners[m] == address && m in disabled && !disabled[m]
        {
          if n !in owners {
            return Err(NotFound);
          }
          if owners[n] == address {
            if n !in disabled {
              return Err(NotFound);
            }
            if !disabled[n] {
              ids := ids + [n];
            }
          }
          n := n + 1;
        }
      }
      return Ok(ids);
    }

    method WriteVc(id: int, vc: seq<string>)
      modifies this`vcs
      ensures vcs == old(vcs)[id := vc]
      ensures ReadVc(id) == Ok(vc)
    {
      vcs := vcs[id := vc];
    }

    /** `add_vc`: appends one credential string to the certificate's list. */
    method AddVc(id: int, vc: string) returns (r: Result<()>)
      modifies this`vcs
      ensures |vc| > VC_MAX_LEN ==> r == Err(VCStringTooLong)
      ensures |vc| <= VC_MAX_LEN && id in old(vcs) && |old(vcs)[id]| >= VC_MAX_COUNT ==>
        r == Err(VCListCapacityReached)
      ensures r.Ok? <==> |vc| <= VC_MAX_LEN && (id in old(vcs) ==> |old(vcs)[id]| < VC_MAX_COUNT)
      ensures r.Err? ==> vcs == old(vcs)
      ensures r.Ok? && id in old(vcs) ==> vcs == old(vcs)[id := old(vcs)[id] + [vc]]
      ensures r.Ok? && id !in old(vcs) ==> vcs == old(vcs)[id := [vc]]
      ensures id in vcs && (id in old(vcs) ==> |old(vcs)[id]| <= VC_MAX_COUNT) ==> |vcs[id]| <= VC_MAX_COUNT
    {
      if |vc| > VC_MAX_LEN {
        return Err(VCStringTooLong);
      }
      if id in vcs {
        var list := vcs[id];
        if |list| >= VC_MAX_COUNT {
          return Err(VCListCapacityReached);
        }
        vcs := vcs[id := list + [vc]];
      } else {
        vcs := vcs[id := [vc]];
      }
      return Ok(());
    }

    function ReadVc(id: int): (r: Result<seq<string>>)
      reads this
      ensures r.Ok? <==> id in vcs
      ensures r.Ok? ==> r.value == vcs[id]
      ensures r.Err? ==> r.error == NotFound
    {
      if id in vcs then Ok(vcs[id]) else Err(NotFound)
    }

    // ---------------------------------------------------------------
    // sub_nft.rs (and the disabled flag, which sub_tc.rs reads and
    // writes under the same key)
    // ---------------------------------------------------------------

    function ReadSubNft(id: int): (r: Result<SubNft>)
      reads this
      ensures r.Ok? <==> id in subNfts
      ensures r.Ok? ==> r.value == subNfts[id]
      ensures r.Err? ==> r.error == NotFound
    {
      if id in subNfts then Ok(subNfts[id]) else Err(NotFound)
    }

    /** `write_sub_nft` is write-once: an existing record is never replaced. */
    method WriteSubNft(id: int, root: int, amount: U32) returns (r: Result<()>)
      modifies this`subNfts
      ensures r.Ok? <==> id !in old(subNfts)
      ensures r.Err? ==> r.error == NotEmpty && subNfts == old(subNfts)
      ensures r.Ok? ==> subNfts == old(subNfts)[id := SubNft(root, amount)]
      ensures r.Ok? ==> ReadSubNft(id) == Ok(SubNft(root, amount))
    {
      if id in subNfts {
        return Err(NotEmpty);
      }
      subNfts := subNfts[id := SubNft(root, amount)];
      return Ok(());
    }

    /** `read_sub_nft_disabled` / `read_sub_tc_disabled`: `NotFound` when the
        flag was never written. */
    function ReadDisabled(id: int): (r: Result<bool>)
      reads this
      ensures r.Ok? <==> id in disabled
      ensures r.Ok? ==> r.value == disabled[id]
      ensures r.Err? ==> r.error == NotFound
    {
      if id in disabled then Ok(disabled[id]) else Err(NotFound)
    }

    /** `write_sub_nft_disabled` / `write_sub_tc_disabled` overwrite. */
    method WriteDisabled(id: int, value: bool)
      modifies this`disabled
      ensures disabled == old(disabled)[id := value]
      ensures ReadDisabled(id) == Ok(value)
    {
      disabled := disabled[id := value];
    }

    // ---------------------------------------------------------------
    // sub_tc.rs and loan.rs
    // ---------------------------------------------------------------

    function ReadSubTc(id: int): (r: Result<SubTc>)
      reads this
      ensures r.Ok? <==> id in subTcs
      ensures r.Ok? ==> r.value == subTcs[id]
      ensures r.Err? ==> r.error == NotFound
    {
      if id in subTcs then Ok(subTcs[id]) else Err(NotFound)
    }

    /** `write_sub_tc` is write-once like `write_sub_nft`. */
    method WriteSubTc(id: int, parent: int, depth: U32, amount: U32) returns (r: Result<()>)
      modifies this`subTcs
      ensures r.Ok? <==> id !in old(subTcs)
      ensures r.Err? ==> r.error == NotEmpty && subTcs == old(subTcs)
      ensures r.Ok? ==> subTcs == old(subTcs)[id := SubTc(parent, depth, amount)]
      ensures r.Ok? ==> ReadSubTc(id) == Ok(SubTc(parent, depth, amount))
    {
      if id in subTcs {
        return Err(NotEmpty);
      }
      subTcs := subTcs[id := SubTc(parent, depth, amount)];
      return Ok(());
    }

    /** `read_loan_status` (identical in sub_tc.rs and loan.rs). */
    function ReadLoanStatus(id: int): (r: Result<U32>)
      reads this
      ensures r.Ok? <==> id in loanStatus
      ensures r.Ok? ==> r.value == loanStatus[id]
      ensures r.Err? ==> r.error == NotFound
    {
      if id in loanStatus then Ok(loanStatus[id]) else Err(NotFound)
    }

    method WriteLoanStatus(id: int, status: U32)
      modifies this`loanStatus
      ensures loanStatus == old(loanStatus)[id := status]
      ensures ReadLoanStatus(id) == Ok(status)
    {
      loanStatus := loanStatus[id := status];
    }

    function HasLoanContract(): (r: bool)
      reads this
      ensures r <==> ReadLoanContract().Ok?
    {
      loanContract.Some?
    }

    /** `read_loan_contract`: `InvalidContract` while none is registered. */
    function ReadLoanContract(): (r: Result<Address>)
      reads this
      ensures r.Ok? <==> loanContract.Some?
      ensures r.Ok? ==> loanContract == Some(r.value)
      ensures r.Err? ==> r.error == InvalidContract
    {
      if loanContract.Some? then Ok(loanContract.value) else Err(InvalidContract)
    }

    method WriteLoanContract(addr: Address)
      modifies this`loanContract
      ensures loanContract == Some(addr)
      ensures HasLoanContract() && ReadLoanContract() == Ok(addr)
    {
      loanContract := Some(addr);
    }

    // ---------------------------------------------------------------
    // balance.rs
    // ---------------------------------------------------------------

    /** `increment_supply`: the i128 counter goes up by exactly one; at
        `i128::MAX` Rust's overflow check aborts instead. */
    method IncrementSupply() returns (r: Result<()>)
      modifies this`supply
      ensures r.Ok? <==> old(supply) < I128_MAX
      ensures r.Ok? ==> supply == old(supply) + 1
      ensures r.Err? ==> r.error == Overflow && supply == old(supply)
    {
      if supply >= I128_MAX {
        return Err(Overflow);
      }
      supply := supply + 1;
      return Ok(());
    }

    /** `read_minted`: false for an owner never written. */
    function ReadMinted(owner: Address): (r: bool)
      reads this
      ensures r <==> owner in minted && minted[owner]
      ensures owner !in minted ==> !r
    {
      owner in minted && minted[owner]
    }

    method WriteMinted(owner: Address)
      modifies this`minted
      ensures minted == old(minted)[owner := true]
      ensures ReadMinted(owner) && CheckMinted(owner) == Err(AlreadyMinted)
    {
      minted := minted[owner := true];
    }

    /** `check_minted`: the "already minted" assertion. */
    function CheckMinted(owner: Address): (r: Result<()>)
      reads this
      ensures r.Ok? <==> !ReadMinted(owner)
      ensures r.Err? ==> r.error == AlreadyMinted
    {
      if ReadMinted(owner) then Err(AlreadyMinted) else Ok(())
    }

    // ---------------------------------------------------------------
    // approval.rs
    // ---------------------------------------------------------------

    /** `read_approval`: `NotAuthorized` when no per-id approval exists. */
    function ReadApproval(id: int): (r: Result<Address>)
      reads this
      ensures r.Ok? <==> id in approvals
      ensures r.Ok? ==> r.value == approvals[id]
      ensures r.Err? ==> r.error == NotAuthorized
    {
      if id in approvals then Ok(approvals[id]) else Err(NotAuthorized)
    }

    /** `read_approval_all`: false unless written. */
    function ReadApprovalAll(owner: Address, operator: Address): (r: bool)
      reads this
      ensures (owner, operator) !in approvalAll ==> !r
      ensures (owner, operator) in approvalAll ==> r == approvalAll[(owner, operator)]
    {
      (owner, operator) in approvalAll && approvalAll[(owner, operator)]
    }

    /** `write_approval`: `Some` sets the approved operator, `None` removes it. */
    method WriteApproval(id: int, operator: Option<Address>)
      modifies this`approvals
      ensures approvals == if operator.Some? then old(approvals)[id := operator.value] else old(approvals) - {id}
      ensures ReadApproval(id) == if operator.Some? then Ok(operator.value) else Err(NotAuthorized)
    {
      if operator.Some? {
        approvals := approvals[id := operator.value];
      } else {
        approvals := approvals - {id};
      }
    }

    method WriteApprovalAll(owner: Address, operator: Address, approved: bool)
      modifies this`approvalAll
      ensures approvalAll == old(approvalAll)[(owner, operator) := approved]
      ensures ReadApprovalAll(owner, operator) == approved
      ensures forall o: Address, p: Address :: (o, p) != (owner, operator) ==> ReadApprovalAll(o, p) == old(ReadApprovalAll(o, p))
    {
      approvalAll := approvalAll[(owner, operator) := approved];
    }

    // ---------------------------------------------------------------
    // order_state.rs: the cached expiry sweep and the paid flag
    // ---------------------------------------------------------------

    /** Every id the sweep reads has an owner. */
    ghost predicate OwnersReadable()
      reads this
    {
      forall i :: 0 <= i < supply ==> i in owners
    }

    /** The flag `update_and_read_expired` returns at time `now`: the cached
        flag if set, otherwise `now >= endTime`; the first expiry aborts
        with `NotFound` when an id it must read has no owner. */
    ghost function ExpiryFlag(now: nat): Result<bool>
      reads this
    {
      if expired then Ok(true)
      else if now < endTime then Ok(false)
      else if OwnersReadable() then Ok(true)
      else Err(NotFound)
    }

    /** The owner map the sweep leaves: unchanged unless this is the first
        expiry, when every escrowed id in `1..supply` goes to the owner of
        certificate 0. */
    ghost function OwnersAfterSweep(now: nat): map<int, Address>
      reads this
      requires ExpiryFlag(now).Ok?
    {
      if expired || now < endTime || supply <= 0 then owners
      else Reclaim(owners, supply, contractAddress, owners[0])
    }

    /** The sweep's reads and its loop, without committing: the expired flag
        it returns and the owner map it would leave. */
    method ComputeSweep(now: nat) returns (r: Result<Sweep>)
      ensures r.Ok? <==> ExpiryFlag(now).Ok?
      ensures r.Err? ==> r.error == NotFound
      ensures r.Ok? ==> r.value == Sweep(ExpiryFlag(now).value, OwnersAfterSweep(now))
    {
      if expired {
        return Ok(Sweep(true, owners));
      }
      if now < endTime {
        return Ok(Sweep(false, owners));
      }
      if supply <= 0 {
        return Ok(Sweep(true, owners));
      }
      if 0 !in owners {
        return Err(NotFound);
      }
      var to := owners[0];
      var swept := owners;
      ReclaimEmptyRange(owners, 1, contractAddress, to);
      var i := 1;
      while i < supply
        invariant 1 <= i <= supply
        invariant forall j :: 0 <= j < i ==> j in owners
        invariant swept == Reclaim(owners, i, contractAddress, to)
      {
        if i !in owners {
          return Err(NotFound);
        }
        ReclaimStep(owners, i, contractAddress, to);
        if owners[i] == contractAddress {
          swept := swept[i := to];
        }
        i := i + 1;
      }
      return Ok(Sweep(true, swept));
    }

    /** `update_and_read_expired` (also the `check_expired` entry point). */
    method UpdateAndReadExpired(now: nat) returns (r: Result<bool>)
      modifies this`owners, this`expired
      ensures r.Ok? <==> old(ExpiryFlag(now)).Ok?
      ensures r.Err? ==> r.error == NotFound && owners == old(owners) && expired == old(expired)
      ensures r.Ok? ==> r.value == expired && owners == old(OwnersAfterSweep(now))
      ensures old(expired) ==> r == Ok(true) && owners == old(owners)
      ensures !old(expired) ==> (r.Ok? ==> r.value == (now >= endTime))
      ensures !old(expired) && now < endTime ==> r == Ok(false) && owners == old(owners) && !expired
      ensures old(expired) ==> expired
      ensures r == Ok(true) && !old(expired) && 0 < old(supply) && old(owners)[0] != contractAddress ==>
        forall i :: 1 <= i < old(supply) && i in owners ==> owners[i] != contractAddress
    {
      var sweep :- ComputeSweep(now);
      if sweep.expired && !expired && 0 < supply && owners[0] != contractAddress {
        ReclaimLeavesNoEscrow(owners, supply, contractAddress, owners[0]);
      }
      owners, expired := sweep.owners, sweep.expired;
      return Ok(sweep.expired);
    }

    method WritePaid(value: bool)
      modifies this`paid
      ensures paid == value
    {
      paid := value;
    }

    // ---------------------------------------------------------------
    // contract.rs: the entry points
    // ---------------------------------------------------------------

    /** `read_administrator`: the call aborts while no admin is stored. */
    function ReadAdministrator(): (r: Result<Address>)
      reads this
      ensures r.Ok? <==> admin.Some?
      ensures r.Ok? ==> admin == Some(r.value)
      ensures r.Err? ==> r.error == Uninitialized
    {
      if admin.Some? then Ok(admin.value) else Err(Uninitialized)
    }

    /** The owner `id` has once the sweep at `now` has run, or the error
        that the sweep or `read_owner` aborts with. */
    ghost function OwnerAfterSweep(now: nat, id: int): Result<Address>
      reads this
    {
      if ExpiryFlag(now).Err? then Err(NotFound)
      else if id in OwnersAfterSweep(now) then Ok(OwnersAfterSweep(now)[id])
      else Err(NotFound)
    }

    /** `initialize`: a second call finds the admin and aborts. */
    method Initialize(newAdmin: Address) returns (r: Result<()>)
      modifies this`admin
      ensures r.Ok? <==> old(admin).None?
      ensures r.Err? ==> r.error == AlreadyInitialized && admin == old(admin)
      ensures r.Ok? ==> admin == Some(newAdmin) && ReadAdministrator() == Ok(newAdmin)
    {
      if admin.Some? {
        return Err(AlreadyInitialized);
      }
      admin := Some(newAdmin);
      return Ok(());
    }

    /** `set_admin`: only the current admin may name its successor. */
    method SetAdmin(newAdmin: Address, auth: set<Address>) returns (r: Result<()>)
      modifies this`admin
      ensures r.Ok? <==> old(admin).Some? && old(admin).value in auth
      ensures r.Err? ==> admin == old(admin) && r.error == (if old(admin).None? then Uninitialized else AuthFailed)
      ensures r.Ok? ==> admin == Some(newAdmin)
    {
      var current :- ReadAdministrator();
      if current !in auth {
        return Err(AuthFailed);
      }
      admin := Some(newAdmin);
      return Ok(());
    }

    /** `appr`: the owner approves `operator` for one certificate. */
    method Appr(owner: Address, operator: Address, id: int, auth: set<Address>) returns (r: Result<()>)
      modifies this`approvals
      ensures r.Ok? <==> owner in auth && old(ReadOwner(id)) == Ok(owner)
      ensures r.Err? ==> approvals == old(approvals)
      ensures r.Err? ==> r.error == (if owner !in auth then AuthFailed else old(CheckOwner(owner, id)).error)
      ensures r.Ok? ==> approvals == old(approvals)[id := operator]
    {
      if owner !in auth {
        return Err(AuthFailed);
      }
      var c := CheckOwner(owner, id);
      if c.Err? {
        return Err(c.error);
      }
      WriteApproval(id, Some(operator));
      return Ok(());
    }

    /** `appr_all`: the owner (dis)approves `operator` for all it holds. */
    method ApprAll(owner: Address, operator: Address, approved: bool, auth: set<Address>) returns (r: Result<()>)
      modifies this`approvalAll
      ensures r.Ok? <==> owner in auth
      ensures r.Err? ==> r.error == AuthFailed && approvalAll == old(approvalAll)
      ensures r.Ok? ==> approvalAll == old(approvalAll)[(owner, operator) := approved]
    {
      if owner !in auth {
        return Err(AuthFailed);
      }
      WriteApprovalAll(owner, operator, approved);
      return Ok(());
    }

    /** `owner`: runs the sweep, then reads the owner; when the read aborts
        the sweep's writes are rolled back with it. */
    method Owner(id: int, now: nat) returns (r: Result<Address>)
      modifies this`owners, this`expired
      ensures r == old(OwnerAfterSweep(now, id))
      ensures r.Err? ==> r.error == NotFound && owners == old(owners) && expired == old(expired)
      ensures r.Ok? ==> owners == old(OwnersAfterSweep(now)) && expired == old(ExpiryFlag(now)).value
    {
      var owners0, expired0 := owners, expired;
      var _ :- UpdateAndReadExpired(now);
      r := ReadOwner(id);
      if r.Err? {
        owners, expired := owners0, expired0;
      }
    }

    /** `get_all_owned`: runs the sweep, then `read_all_owned` on the swept
        owners. */
    method GetAllOwned(address: Address, now: nat) returns (r: Result<seq<int>>)
      modifies this`owners, this`expired
      ensures r.Ok? <==> old(ExpiryFlag(now)).Ok? && AllOwnedReadable(old(OwnersAfterSweep(now)), disabled, supply, address)
      ensures r.Err? ==> r.error == NotFound && owners == old(owners) && expired == old(expired)
      ensures r.Ok? ==> owners == old(OwnersAfterSweep(now)) && expired == old(ExpiryFlag(now)).value
      ensures r.Ok? ==> Ascending(r.value)
      ensures r.Ok? ==> forall n :: n in r.value <==> Listed(owners, disabled, supply, address, n)
    {
      var owners0, expired0 := owners, expired;
      var _ :- UpdateAndReadExpired(now);
      r := ReadAllOwned(address);
      if r.Err? {
        owners, expired := owners0, expired0;
      }
    }

    /** The error `transfer` aborts with, in the order its checks run. */
    ghost function TransferRejection(from: Address, id: int, now: nat, auth: set<Address>): Option<Error>
      reads this
    {
      if OwnerAfterSweep(now, id).Err? then Some(NotFound)
      else if OwnerAfterSweep(now, id) != Ok(from) then Some(NotOwned)
      else if from !in auth then Some(AuthFailed)
      else None
    }

    /** `transfer`: after the sweep, the owner `from` hands `id` to `to`. */
    method Transfer(from: Address, to: Address, id: int, now: nat, auth: set<Address>) returns (r: Result<()>)
      modifies this`owners, this`expired
      ensures r.Ok? <==> old(OwnerAfterSweep(now, id)) == Ok(from) && from in auth
      ensures r.Err? <==> old(TransferRejection(from, id, now, auth)).Some?
      ensures r.Err? ==> owners == old(owners) && expired == old(expired)
      ensures r.Err? ==> r.error == old(TransferRejection(from, id, now, auth)).value
      ensures r.Ok? ==> owners == old(OwnersAfterSweep(now))[id := to] && expired == old(ExpiryFlag(now)).value
    {
      var owners0, expired0 := owners, expired;
      var _ :- UpdateAndReadExpired(now);
      var c := CheckOwner(from, id);
      if c.Err? || from !in auth {
        owners, expired := owners0, expired0;
        return if c.Err? then Err(c.error) else Err(AuthFailed);
      }
      WriteOwner(id, Some(to));
      return Ok(());
    }

    /** `transfer_from`: `spender` moves `id` for `from`, approved either
        for all of `from`'s certificates or for this one; the per-id
        approval is spent. */
    method TransferFrom(spender: Address, from: Address, to: Address, id: int, now: nat, auth: set<Address>)
      returns (r: Result<()>)
      modifies this`owners, this`expired, this`approvals
      ensures r.Ok? <==> (old(OwnerAfterSweep(now, id)) == Ok(from) && spender in auth &&
        (old(ReadApprovalAll(from, spender)) || old(ReadApproval(id)) == Ok(spender)))
      ensures r.Err? ==> owners == old(owners) && expired == old(expired) && approvals == old(approvals)
      ensures r.Err? ==>
        r.error == (if old(OwnerAfterSweep(now, id)).Err? then NotFound
        else if old(OwnerAfterSweep(now, id)) != Ok(from) then NotOwned
        else if spender !in auth then AuthFailed
        else NotAuthorized)
      ensures r.Ok? ==> owners == old(OwnersAfterSweep(now))[id := to] && expired == old(ExpiryFlag(now)).value
      ensures r.Ok? ==> approvals == old(approvals) - {id} && ReadApproval(id) == Err(NotAuthorized)
    {
      var owners0, expired0 := owners, expired;
      var _ :- UpdateAndReadExpired(now);
      var c := CheckOwner(from, id);
      if c.Err? || spender !in auth {
        owners, expired := owners0, expired0;
        return if c.Err? then Err(c.error) else Err(AuthFailed);
      }
      if ReadApprovalAll(from, spender) || ReadApproval(id) == Ok(spender) {
        WriteApproval(id, None);
        WriteOwner(id, Some(to));
        return Ok(());
      }
      owners, expired := owners0, expired0;
      return Err(NotAuthorized);
    }

    /** One new certificate: the records the split and mint loops write for
        id `supply`, which is then allocated. */
    method MintChild(parent: int, amount: U32, owner: Address, recipient: Option<Address>) returns (newId: int)
      requires Valid() && supply < I128_MAX
      modifies this`subNfts, this`disabled, this`recipients, this`owners, this`supply
      ensures Valid()
      ensures newId == old(supply) && supply == old(supply) + 1
      ensures subNfts == old(subNfts)[newId := SubNft(parent, amount)]
      ensures disabled == old(disabled)[newId := false]
      ensures recipients == if recipient.Some? then old(recipients)[newId := recipient.value] else old(recipients)
      ensures owners == old(owners)[newId := owner]
    {
      newId := supply;
      var w := WriteSubNft(newId, parent, amount);
      assert w.Ok?;
      WriteDisabled(newId, false);
      if recipient.Some? {
        WriteRecipient(newId, recipient.value);
      }
      WriteOwner(newId, Some(owner));
      var inc := IncrementSupply();
      assert inc.Ok?;
    }

    /** `mint_original`: the admin mints certificate 0 for the whole invoice. */
    method MintOriginal(to: Address, auth: set<Address>) returns (r: Result<()>)
      requires Valid()
      modifies this`subNfts, this`disabled, this`recipients, this`owners, this`supply
      ensures Valid()
      ensures r.Ok? <==> old(admin).Some? && old(admin).value in auth && old(supply) == 0
      ensures r.Err? ==>
        r.error == (if old(admin).None? then Uninitialized else if old(admin).value !in auth then AuthFailed else NotEmpty)
      ensures r.Err? ==> (supply == old(supply) && owners == old(owners) && subNfts == old(subNfts) &&
        disabled == old(disabled) && recipients == old(recipients))
      ensures OnlyRises(old(disabled), disabled)
      ensures r.Ok? ==> supply == 1 && owners == old(owners)[0 := to] && disabled == old(disabled)[0 := false]
      ensures r.Ok? ==> subNfts == map[0 := SubNft(0, totalAmount)] && recipients == old(recipients)
    {
      var a :- ReadAdministrator();
      if a !in auth {
        return Err(AuthFailed);
      }
      if supply != 0 {
        return Err(NotEmpty);
      }
      assert subNfts == map[] by {
        assert forall k :: k !in subNfts;
      }
      var id := MintChild(0, totalAmount, to, None);
      return Ok(());
    }

    /** `burn`: the admin removes the owner of `id` (after the sweep). */
    method Burn(id: int, now: nat, auth: set<Address>) returns (r: Result<()>)
      modifies this`owners, this`expired
      ensures r.Ok? <==> old(admin).Some? && old(admin).value in auth && old(OwnerAfterSweep(now, id)).Ok?
      ensures r.Err? ==> owners == old(owners) && expired == old(expired)
      ensures r.Err? ==>
        r.error == (if old(admin).None? then Uninitialized else if old(admin).value !in auth then AuthFailed else NotFound)
      ensures r.Ok? ==> owners == old(OwnersAfterSweep(now)) - {id} && expired == old(ExpiryFlag(now)).value
    {
      var a :- ReadAdministrator();
      if a !in auth {
        return Err(AuthFailed);
      }
      var owners0, expired0 := owners, expired;
      var _ :- UpdateAndReadExpired(now);
      var from := ReadOwner(id);
      if from.Err? {
        owners, expired := owners0, expired0;
        return Err(NotFound);
      }
      WriteOwner(id, None);
      return Ok(());
    }

    /** `split`'s second loop: one escrowed child per request, with the
        requested amount and recipient, counting down what remains of the
        parent's amount. */
    method MintRequested(id: int, splits: seq<SplitRequest>, parentAmount: U32) returns (newIds: seq<int>, remaining: U32)
      requires Valid() && supply + |splits| <= I128_MAX
      requires Sum(Amounts(splits)) <= parentAmount
      modifies this`subNfts, this`disabled, this`recipients, this`owners, this`supply
      ensures Valid() && supply == old(supply) + |splits|
      ensures remaining == parentAmount - Sum(Amounts(splits))
      ensures newIds == Consecutive(old(supply), |splits|)
      ensures subNfts == Stored(old(subNfts), old(supply), ChildRecords(id, Amounts(splits)))
      ensures disabled == Stored(old(disabled), old(supply), Repeat(|splits|, false))
      ensures recipients == Stored(old(recipients), old(supply), Recipients(splits))
      ensures owners == Stored(old(owners), old(supply), Repeat(|splits|, contractAddress))
    {
      var amts := Amounts(splits);
      ghost var s0, sub0, dis0, rec0, own0 := supply, subNfts, disabled, recipients, owners;
      ghost var recs, flags, tos, escrow := ChildRecords(id, amts), Repeat(|splits|, false),
        Recipients(splits), Repeat(|splits|, contractAddress);
      remaining := parentAmount;
      newIds := [];
      var k := 0;
      while k < |splits|
        invariant 0 <= k <= |splits|
        invariant Valid() && supply == s0 + k
        invariant remaining == parentAmount - Sum(amts[..k])
        invariant newIds == Consecutive(s0, k)
        invariant subNfts == StoredFirst(sub0, s0, recs, k)
        invariant disabled == StoredFirst(dis0, s0, flags, k)
        invariant recipients == StoredFirst(rec0, s0, tos, k)
        invariant owners == StoredFirst(own0, s0, escrow, k)
      {
        SumPrefixStep(amts, k);
        SumPrefixLe(amts, k + 1);
        var newId := MintChild(id, splits[k].amount, contractAddress, Some(splits[k].to));
        newIds := newIds + [newId];
        remaining := remaining - splits[k].amount;
        k := k + 1;
      }
      assert amts[..|splits|] == amts;
      assert |recs| == |flags| == |tos| == |escrow| == |splits|;
    }

    /** `split`'s remainder child: when value is left over, one more
        child with that amount, kept by the splitting owner and with no
        recipient. */
    method MintRemainder(id: int, rest: U32, holder: Address) returns (newIds: seq<int>)
      requires Valid() && supply + |Remainder(rest)| <= I128_MAX
      modifies this`subNfts, this`disabled, this`recipients, this`owners, this`supply
      ensures Valid() && supply == old(supply) + |Remainder(rest)|
      ensures newIds == Consecutive(old(supply), |Remainder(rest)|)
      ensures subNfts == Stored(old(subNfts), old(supply), ChildRecords(id, Remainder(rest)))
      ensures disabled == Stored(old(disabled), old(supply), Repeat(|Remainder(rest)|, false))
      ensures recipients == old(recipients)
      ensures owners == Stored(old(owners), old(supply), Repeat(|Remainder(rest)|, holder))
    {
      newIds := [];
      StoredShort(subNfts, supply, SubNft(id, rest));
      StoredShort(disabled, supply, false);
      StoredShort(owners, supply, holder);
      if rest > 0 {
        assert ChildRecords(id, [rest]) == [SubNft(id, rest)];
        assert Repeat(1, false) == [false] && Repeat(1, holder) == [holder];
        assert Consecutive(supply, 1) == [supply];
        var newId := MintChild(id, rest, holder, None);
        newIds := [newId];
      }
    }

    /** The writing half of `split`, once every check has passed: the
        requested children, the remainder child, and the disabled parent. */
    method CreateChildren(id: int, splits: seq<SplitRequest>, holder: Address, parentAmount: U32) returns (newIds: seq<int>)
      requires Valid() && id in subNfts
      requires Sum(Amounts(splits)) <= parentAmount
      requires supply + |ChildAmounts(Amounts(splits), parentAmount)| <= I128_MAX
      modifies this`subNfts, this`disabled, this`recipients, this`owners, this`supply
      ensures Valid()
      ensures newIds == Consecutive(old(supply), |ChildAmounts(Amounts(splits), parentAmount)|)
      ensures supply == old(supply) + |ChildAmounts(Amounts(splits), parentAmount)|
      ensures subNfts == Stored(old(subNfts), old(supply), ChildRecords(id, ChildAmounts(Amounts(splits), parentAmount)))
      ensures OnlyRises(old(disabled), disabled)
      ensures disabled ==
        (Stored(old(disabled), old(supply), Repeat(|ChildAmounts(Amounts(splits), parentAmount)|, false)))[id := true]
      ensures recipients == Stored(old(recipients), old(supply), Recipients(splits))
      ensures owners == Stored(old(owners), old(supply),
        ChildOwners(|splits|, contractAddress, holder, Sum(Amounts(splits)) < parentAmount))
    {
      var amts := Amounts(splits);
      ghost var s0, sub0, dis0, own0 := supply, subNfts, disabled, owners;
      var requested, remaining := MintRequested(id, splits, parentAmount);
      var leftover := MintRemainder(id, remaining, holder);
      newIds := requested + leftover;
      assert |amts| == |splits|;
      ChildRecordsStored(sub0, s0, id, amts, parentAmount);
      ChildrenStored(dis0, own0, s0, amts, parentAmount, contractAddress, holder);
      StoredRaiseOnlyRises(dis0, s0, Repeat(|ChildAmounts(amts, parentAmount)|, false), id);
      WriteDisabled(id, true);
    }

    /** The error `split` aborts with, in the order the checks run, or
        `None` when the split goes through. */
    ghost function SplitRejection(id: int, splits: seq<SplitRequest>, now: nat, auth: set<Address>): Option<Error>
      reads this
    {
      if id !in disabled then Some(NotFound)
      else if disabled[id] then Some(NotPermitted)
      else if |splits| == 0 then Some(InvalidArgs)
      else if ExpiryFlag(now).Err? then Some(NotFound)
      else if ExpiryFlag(now).value then Some(NotPermitted)
      else if id !in owners then Some(NotFound)
      else if owners[id] !in auth then Some(AuthFailed)
      else if id !in subNfts then Some(NotFound)
      else if Sum(Amounts(splits)) > U32_MAX then Some(Overflow)
      else if Sum(Amounts(splits)) > subNfts[id].amount then Some(AmountTooMuch)
      else if supply + |ChildAmounts(Amounts(splits), subNfts[id].amount)| > I128_MAX then Some(Overflow)
      else None
    }

    /** The amounts of the children a successful split creates. */
    ghost function SplitChildren(id: int, splits: seq<SplitRequest>): seq<U32>
      reads this
      requires id in subNfts && Sum(Amounts(splits)) <= subNfts[id].amount
    {
      ChildAmounts(Amounts(splits), subNfts[id].amount)
    }

    /** `split`'s checks, in the order the entry point runs them. None of
        them writes: a sweep that finds the invoice matured aborts the
        split, and before maturity the sweep writes nothing, so the
        sweep's reads are all the checks need. */
    method SplitCheck(id: int, splits: seq<SplitRequest>, now: nat, auth: set<Address>) returns (rejection: Option<Error>)
      ensures rejection == SplitRejection(id, splits, now, auth)
    {
      var d := ReadDisabled(id);
      if d.Err? {
        return Some(NotFound);
      }
      if d.value {
        return Some(NotPermitted);
      }
      if |splits| == 0 {
        return Some(InvalidArgs);
      }
      var sweep := ComputeSweep(now);
      if sweep.Err? {
        return Some(NotFound);
      }
      if sweep.value.expired {
        return Some(NotPermitted);
      }
      var holder := ReadOwner(id);
      if holder.Err? {
        return Some(NotFound);
      }
      if holder.value !in auth {
        return Some(AuthFailed);
      }
      var root := ReadSubNft(id);
      if root.Err? {
        return Some(NotFound);
      }
      var sum := SumAmounts(splits);
      if sum.Err? {
        return Some(Overflow);
      }
      if sum.value > root.value.amount {
        return Some(AmountTooMuch);
      }
      if supply + |ChildAmounts(Amounts(splits), root.value.amount)| > I128_MAX {
        return Some(Overflow);
      }
      return None;
    }

    /** `split`: certificate `id` is replaced by one escrowed child per
        request (claimable by its `to`) and, when value is left over, a
        remainder child kept by the owner; the parent is disabled. */
    method Split(id: int, splits: seq<SplitRequest>, now: nat, auth: set<Address>) returns (r: Result<seq<int>>)
      requires Valid()
      modifies this`subNfts, this`disabled, this`recipients, this`owners, this`supply
      ensures Valid()
      ensures r.Err? <==> old(SplitRejection(id, splits, now, auth)).Some?
      ensures r.Err? ==> r.error == old(SplitRejection(id, splits, now, auth)).value
      ensures r.Err? ==> (supply == old(supply) && owners == old(owners) && subNfts == old(subNfts) &&
        disabled == old(disabled) && recipients == old(recipients))
      ensures OnlyRises(old(disabled), disabled)
      ensures r.Ok? ==> Sum(old(SplitChildren(id, splits))) == old(subNfts[id].amount)
      ensures r.Ok? ==>
        |old(SplitChildren(id, splits))| == |splits| + (if Sum(Amounts(splits)) < old(subNfts[id].amount) then 1 else 0)
      ensures r.Ok? ==> (r.value == Consecutive(old(supply), |old(SplitChildren(id, splits))|) &&
        supply == old(supply) + |old(SplitChildren(id, splits))|)
      ensures r.Ok? ==> subNfts == Stored(old(subNfts), old(supply), ChildRecords(id, old(SplitChildren(id, splits))))
      ensures r.Ok? ==>
        disabled == (Stored(old(disabled), old(supply), Repeat(|old(SplitChildren(id, splits))|, false)))[id := true]
      ensures r.Ok? ==> recipients == Stored(old(recipients), old(supply), Recipients(splits))
      ensures r.Ok? ==> owners == Stored(old(owners), old(supply),
        ChildOwners(|splits|, contractAddress, old(owners[id]), Sum(Amounts(splits)) < old(subNfts[id].amount)))
    {
      var rejection := SplitCheck(id, splits, now, auth);
      if rejection.Some? {
        return Err(rejection.value);
      }
      SplitConservesAmount(Amounts(splits), subNfts[id].amount);
      var newIds := CreateChildren(id, splits, owners[id], subNfts[id].amount);
      return Ok(newIds);
    }

    /** `sign_off`: the recipient of an escrowed child claims it, while the
        child is not disabled and the invoice has not matured. */
    method SignOff(id: int, now: nat, auth: set<Address>) returns (r: Result<()>)
      modifies this`owners, this`expired
      ensures r.Ok? <==> (old(ExpiryFlag(now)) == Ok(false) && id in old(owners) &&
        old(owners[id]) == contractAddress && old(ReadDisabled(id)) == Ok(false) &&
        id in old(recipients) && old(recipients[id]) in auth)
      ensures r.Err? ==> owners == old(owners) && expired == old(expired)
      ensures r.Err? ==>
        r.error == (if old(OwnerAfterSweep(now, id)).Err? then NotFound
        else if old(OwnerAfterSweep(now, id)) != Ok(contractAddress) then NotPermitted
        else if id !in old(disabled) then NotFound
        else if old(disabled[id]) || old(ExpiryFlag(now)) == Ok(true) then NotPermitted
        else if id !in old(recipients) then NotFound
        else AuthFailed)
      ensures r.Ok? ==> owners == old(owners)[id := old(recipients[id])] && expired == old(expired)
    {
      var owners0, expired0 := owners, expired;
      var isExpired :- UpdateAndReadExpired(now);
      var owner := ReadOwner(id);
      if owner.Err? {
        owners, expired := owners0, expired0;
        return Err(NotFound);
      }
      if owner.value != contractAddress {
        owners, expired := owners0, expired0;
        return Err(NotPermitted);
      }
      var d := ReadDisabled(id);
      if d.Err? {
        owners, expired := owners0, expired0;
        return Err(NotFound);
      }
      if d.value || isExpired {
        owners, expired := owners0, expired0;
        return Err(NotPermitted);
      }
      var recipient := ReadRecipient(id);
      if recipient.Err? {
        return Err(NotFound);
      }
      if recipient.value !in auth {
        return Err(AuthFailed);
      }
      WriteOwner(id, Some(recipient.value));
      return Ok(());
    }

    /** The error `redeem` aborts with, in the order its checks run. */
    ghost function RedeemRejection(id: int, now: nat, auth: set<Address>, token: Token.TokenContract): Option<Error>
      reads this, token
    {
      if ExpiryFlag(now).Err? then Some(NotFound)
      else if !ExpiryFlag(now).value || !paid then Some(NotPermitted)
      else if id !in disabled then Some(NotFound)
      else if disabled[id] then Some(NotPermitted)
      else if id !in OwnersAfterSweep(now) then Some(NotFound)
      else if OwnersAfterSweep(now)[id] !in auth then Some(AuthFailed)
      else if id !in subNfts then Some(NotFound)
      else if ScaleToToken(subNfts[id].amount, extToken.decimals).Err? then Some(Overflow)
      else if !token.CanTransfer(contractAddress, ScaleToToken(subNfts[id].amount, extToken.decimals).value)
      then Some(TransferFailed)
      else None
    }

    /** `redeem`: once the invoice has matured and been paid, the owner of
        an enabled certificate is paid its amount in token units and the
        certificate is burnt. */
    method Redeem(id: int, now: nat, auth: set<Address>, token: Token.TokenContract) returns (r: Result<()>)
      requires token.address == extToken.contractAddr
      modifies this`owners, this`expired, token`balances
      ensures r.Err? <==> old(RedeemRejection(id, now, auth, token)).Some?
      ensures r.Err? ==> (r.error == old(RedeemRejection(id, now, auth, token)).value &&
        owners == old(owners) && expired == old(expired) && token.balances == old(token.balances))
      ensures r.Ok? ==> (expired && paid && owners == old(OwnersAfterSweep(now)) - {id} &&
        token.balances == old(token.AfterTransfer(contractAddress, OwnersAfterSweep(now)[id],
          subNfts[id].amount * Pow10(extToken.decimals))))
    {
      var sweep :- ComputeSweep(now);
      if !sweep.expired || !paid {
        return Err(NotPermitted);
      }
      var d := ReadDisabled(id);
      if d.Err? {
        return Err(NotFound);
      }
      if d.value {
        return Err(NotPermitted);
      }
      if id !in sweep.owners {
        return Err(NotFound);
      }
      var holder := sweep.owners[id];
      if holder !in auth {
        return Err(AuthFailed);
      }
      var sub :- ReadSubNft(id);
      var amount :- ScaleToToken(sub.amount, extToken.decimals);
      var t := token.Transfer(contractAddress, holder, amount);
      if t.Err? {
        return Err(TransferFailed);
      }
      // the sweep's writes, then `write_owner(id, None)`
      owners, expired := sweep.owners - {id}, true;
      return Ok(());
    }

    /** `pay_off`: the buyer pays the invoice, `total_amount` in token
        units, once. */
    method PayOff(from: Address, auth: set<Address>, token: Token.TokenContract) returns (r: Result<()>)
      requires token.address == extToken.contractAddr
      modifies this`paid, token`balances
      ensures r.Ok? <==> (!old(paid) && ScaleToToken(totalAmount, extToken.decimals).Ok? && from in auth &&
        old(token.CanTransfer(from, ScaleToToken(totalAmount, extToken.decimals).value)))
      ensures r.Err? ==> paid == old(paid) && token.balances == old(token.balances)
      ensures r.Err? ==>
        r.error == (if old(paid) then NotEmpty
        else if ScaleToToken(totalAmount, extToken.decimals).Err? then Overflow
        else if from !in auth then AuthFailed
        else TransferFailed)
      ensures r.Ok? ==>
        paid && token.balances == old(token.AfterTransfer(from, contractAddress, totalAmount * Pow10(extToken.decimals)))
      ensures old(paid) ==> paid
    {
      if paid {
        return Err(NotEmpty);
      }
      var amount :- ScaleToToken(totalAmount, extToken.decimals);
      if from !in auth {
        return Err(AuthFailed);
      }
      var t := token.Transfer(from, contractAddress, amount);
      if t.Err? {
        return Err(TransferFailed);
      }
      WritePaid(true);
      return Ok(());
    }
  }
}
