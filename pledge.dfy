/** The pledge certificate: an admin-minted certificate whose value is
    paid in an external token. What exists of it is the initialisation
    guards, the admin handover, `mint`, and the stores for owners and
    per-certificate data. */
module Pledge {
  import opened Types

  /** The external token a certificate's value is paid in. */
  datatype ExtTokenInfo = ExtTokenInfo(address: Address, decimals: U32)

  /** The hashes of the purchase order, invoice and bill of lading. */
  datatype HashMetadata = HashMetadata(poHash: string, invoiceHash: string, bolHash: string)

  /** A 32-byte file hash (`BytesN<32>`). */
  type Hash32 = s: seq<bv8> | |s| == 32 witness seq(32, _ => 0)

  class PledgeCertificate {
    var admin: Option<Address>
    var extToken: Option<ExtTokenInfo>
    var owners: map<U64, Address>
    var amounts: map<U64, U64>
    var fileHashes: map<U64, seq<Hash32>>
    var redeemTimes: map<U64, U64>
    var metadata: map<U64, HashMetadata>

    constructor ()
      ensures admin == None && extToken == None
      ensures owners == map[] && amounts == map[] && fileHashes == map[] && redeemTimes == map[] && metadata == map[]
    {
      admin := None;
      extToken := None;
      owners := map[];
      amounts := map[];
      fileHashes := map[];
      redeemTimes := map[];
      metadata := map[];
    }

    // ----- owners -----

    /** `read_owner`: the stored owner, `NotFound` when there is none. */
    function ReadOwner(id: U64): (r: Result<Address>)
      reads this`owners
      ensures r.Ok? <==> id in owners
      ensures r.Ok? ==> r.value == owners[id]
      ensures r.Err? ==> r.error == NotFound
    {
      if id in owners then Ok(owners[id]) else Err(NotFound)
    }

    /** `write_owner`: `Some(a)` stores `a`, `None` removes the entry. */
    method WriteOwner(id: U64, owner: Option<Address>)
      modifies this`owners
      ensures owner.Some? ==> owners == old(owners)[id := owner.value]
      ensures owner.None? ==> owners == old(owners) - {id}
      ensures owner.Some? ==> ReadOwner(id) == Ok(owner.value)
      ensures owner.None? ==> ReadOwner(id) == Err(NotFound)
    {
      match owner
      case Some(a) => owners := owners[id := a];
      case None => owners := owners - {id};
    }

    /** `check_owner`: passes exactly when `auth` is the stored owner;
        a missing owner aborts `NotFound` first. */
    function CheckOwner(auth: Address, id: U64): (r: Result<()>)
      reads this`owners
      ensures r.Ok? <==> ReadOwner(id) == Ok(auth)
      ensures r.Err? ==> r.error == (if id in owners then NotOwned else NotFound)
    {
      var o :- ReadOwner(id);
      if o != auth then Err(NotOwned) else Ok(())
    }

    // ----- certificate data -----

    /** `read_amount`: 0 for a certificate never written. */
    function ReadAmount(id: U64): (r: U64)
      reads this`amounts
      ensures id !in amounts ==> r == 0
      ensures id in amounts ==> r == amounts[id]
    {
      if id in amounts then amounts[id] else 0
    }

    /** `write_amount`: overwrites the amount of `id`. */
    method WriteAmount(id: U64, amount: U64)
      modifies this`amounts
      ensures amounts == old(amounts)[id := amount]
      ensures ReadAmount(id) == amount
    {
      amounts := amounts[id := amount];
    }

    /** `read_file_hashes`: `NotFound` when absent. */
    function ReadFileHashes(id: U64): (r: Result<seq<Hash32>>)
      reads this`fileHashes
      ensures r.Ok? <==> id in fileHashes
      ensures r.Ok? ==> r.value == fileHashes[id]
      ensures r.Err? ==> r.error == NotFound
    {
      if id in fileHashes then Ok(fileHashes[id]) else Err(NotFound)
    }

    /** `write_file_hashes`: overwrites the list of `id`. */
    method WriteFileHashes(id: U64, hashes: seq<Hash32>)
      modifies this`fileHashes
      ensures fileHashes == old(fileHashes)[id := hashes]
      ensures ReadFileHashes(id) == Ok(hashes)
    {
      fileHashes := fileHashes[id := hashes];
    }

    /** `read_redeem_time`: `NotFound` when absent. */
    function ReadRedeemTime(id: U64): (r: Result<U64>)
      reads this`redeemTimes
      ensures r.Ok? <==> id in redeemTimes
      ensures r.Ok? ==> r.value == redeemTimes[id]
      ensures r.Err? ==> r.error == NotFound
    {
      if id in redeemTimes then Ok(redeemTimes[id]) else Err(NotFound)
    }

    /** `write_redeem_time`: overwrites the redeem time of `id`. */
    method WriteRedeemTime(id: U64, time: U64)
      modifies this`redeemTimes
      ensures redeemTimes == old(redeemTimes)[id := time]
      ensures ReadRedeemTime(id) == Ok(time)
    {
      redeemTimes := redeemTimes[id := time];
    }

    // ----- entry points -----

    /** The stored admin; reading it before `initialize` aborts. */
    function ReadAdmin(): (r: Result<Address>)
      reads this`admin
      ensures r.Ok? <==> admin.Some?
      ensures r.Ok? ==> r.value == admin.value
      ensures r.Err? ==> r.error == Uninitialized
    {
      if admin.Some? then Ok(admin.value) else Err(Uninitialized)
    }

    /** `initialize`: a second call aborts, and so does a decimals count
        that does not fit in a `u8`; either abort leaves nothing written
        (the admin written before the decimals check is rolled back). */
    method Initialize(newAdmin: Address, tokenAddress: Address, decimals: U32) returns (r: Result<()>)
      modifies this`admin, this`extToken
      ensures r.Ok? <==> old(admin).None? && decimals <= U8_MAX
      ensures r.Err? ==>
        r.error == (if old(admin).Some? then AlreadyInitialized else DecimalsTooLarge)
      ensures r.Err? ==> admin == old(admin) && extToken == old(extToken)
      ensures r.Ok? ==> admin == Some(newAdmin) && extToken == Some(ExtTokenInfo(tokenAddress, decimals))
    {
      if admin.Some? {
        return Err(AlreadyInitialized);
      }
      if decimals > U8_MAX {
        return Err(DecimalsTooLarge);
      }
      admin := Some(newAdmin);
      extToken := Some(ExtTokenInfo(tokenAddress, decimals));
      return Ok(());
    }

    /** `set_admin`: the current admin hands the role to `newAdmin`. */
    method SetAdmin(newAdmin: Address, auth: set<Address>) returns (r: Result<()>)
      modifies this`admin
      ensures r.Ok? <==> old(admin).Some? && old(admin).value in auth
      ensures r.Err? ==> r.error == (if old(admin).None? then Uninitialized else AuthFailed) && admin == old(admin)
      ensures r.Ok? ==> admin == Some(newAdmin)
    {
      var a :- ReadAdmin();
      if a !in auth {
        return Err(AuthFailed);
      }
      admin := Some(newAdmin);
      return Ok(());
    }

    /** `mint`: the admin records the value and the document hashes of
        certificate 0. */
    method Mint(amount: U32, poHash: string, invoiceHash: string, bolHash: string, auth: set<Address>)
      returns (r: Result<()>)
      modifies this`amounts, this`metadata
      ensures r.Ok? <==> old(admin).Some? && old(admin).value in auth
      ensures r.Err? ==> r.error == (if old(admin).None? then Uninitialized else AuthFailed)
      ensures r.Err? ==> amounts == old(amounts) && metadata == old(metadata)
      ensures r.Ok? ==> ReadAmount(0) == amount && amounts == old(amounts)[0 := amount]
      ensures r.Ok? ==> metadata == old(metadata)[0 := HashMetadata(poHash, invoiceHash, bolHash)]
    {
      var a :- ReadAdmin();
      if a !in auth {
        return Err(AuthFailed);
      }
      WriteAmount(0, amount);
      metadata := metadata[0 := HashMetadata(poHash, invoiceHash, bolHash)];
      return Ok(());
    }
  }
}
