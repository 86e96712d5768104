/** The offer pool: a buyer escrows tokens against a certificate of some
    ledger; the offer is then either expired (the tokens go back) or
    accepted by the certificate's holder (the certificate goes to the
    buyer, the tokens to the holder). An offer's status is 0 while it is
    pending, 1 once expired and 2 once accepted. */
module OfferPool {
  import opened Types
  import Token
  import ScfLedger

  const PENDING: int := 0
  const EXPIRED: int := 1
  const ACCEPTED: int := 2

  /** A stored offer: who escrowed `amount`, for which certificate. */
  datatype Offer = Offer(from: Address, amount: int, nftContract: Address, nftId: int, status: int)

  /** Statuses only leave `PENDING`, and only for `EXPIRED` or `ACCEPTED`;
      no offer ever disappears. */
  ghost predicate StatusStep(before: map<int, Offer>, after: map<int, Offer>)
  {
    forall i :: i in before ==>
      i in after &&
      (after[i].status == before[i].status ||
       (before[i].status == PENDING && (after[i].status == EXPIRED || after[i].status == ACCEPTED)))
  }

  class Pool {
    /** The pool's own address, which holds the escrowed tokens. */
    const poolAddress: Address
    var admin: Option<Address>
    /** The token every offer is paid in (`write_token`). */
    var token: Option<Address>
    var offers: map<int, Offer>
    /** The token whitelist; `None` until it is first written. */
    var extTokens: Option<map<Address, ()>>

    constructor (poolAddress: Address)
      ensures this.poolAddress == poolAddress
      ensures admin == None && token == None && offers == map[] && extTokens == None
    {
      this.poolAddress := poolAddress;
      admin := None;
      token := None;
      offers := map[];
      extTokens := None;
    }

    // ----- offer storage -----

    /** `read_offer`: the stored record, if any. */
    function ReadOffer(id: int): (r: Option<Offer>)
      reads this`offers
      ensures r.Some? <==> id in offers
      ensures r.Some? ==> r.value == offers[id]
    {
      if id in offers then Some(offers[id]) else None
    }

    /** `check_offer`: whether an offer is stored under `id`. */
    function CheckOffer(id: int): (r: bool)
      reads this`offers
      ensures r <==> ReadOffer(id).Some?
    {
      id in offers
    }

    /** `write_offer`: a new pending offer, replacing any earlier record. */
    method WriteOffer(id: int, from: Address, amount: int, nftContract: Address, nftId: int)
      modifies this`offers
      ensures offers == old(offers)[id := Offer(from, amount, nftContract, nftId, PENDING)]
      ensures ReadOffer(id) == Some(Offer(from, amount, nftContract, nftId, PENDING))
    {
      offers := offers[id := Offer(from, amount, nftContract, nftId, PENDING)];
    }

    /** `change_offer`: sets the status of a stored offer, keeping its
        other fields; reports `false` and writes nothing when there is none. */
    method ChangeOffer(id: int, status: int) returns (r: bool)
      modifies this`offers
      ensures r <==> old(CheckOffer(id))
      ensures !r ==> offers == old(offers)
      ensures r ==> offers == old(offers)[id := old(offers[id]).(status := status)]
      ensures r ==> (var o, n := old(offers[id]), offers[id];
        n.from == o.from && n.amount == o.amount && n.nftContract == o.nftContract && n.nftId == o.nftId &&
        n.status == status)
    {
      var o := ReadOffer(id);
      if o.None? {
        return false;
      }
      offers := offers[id := o.value.(status := status)];
      return true;
    }

    // ----- token whitelist -----

    /** `read_ext_tokens`: the whitelist, empty until first written. */
    function ReadExtTokens(): (r: map<Address, ()>)
      reads this`extTokens
      ensures extTokens.None? ==> r == map[]
      ensures extTokens.Some? ==> r == extTokens.value
    {
      if extTokens.Some? then extTokens.value else map[]
    }

    /** `write_ext_tokens`: replaces the whole whitelist. */
    method WriteExtTokens(whitelist: map<Address, ()>)
      modifies this`extTokens
      ensures extTokens == Some(whitelist)
      ensures ReadExtTokens() == whitelist
    {
      extTokens := Some(whitelist);
    }

    /** `has_ext_token`: membership in the whitelist, which holds each
        address at most once, being keyed by it. */
    function HasExtToken(addr: Address): (r: bool)
      reads this`extTokens
      ensures r <==> addr in ReadExtTokens().Keys
      ensures r ==> extTokens.Some?
    {
      addr in ReadExtTokens()
    }

    // ----- entry points -----

    /** `initialize`: stores the admin and the token once. */
    method Initialize(newAdmin: Address, newToken: Address) returns (r: Result<bool>)
      modifies this`admin, this`token
      ensures r.Err? <==> old(admin).Some?
      ensures r.Err? ==> r.error == AdminExist && admin == old(admin) && token == old(token)
      ensures r.Ok? ==> r.value && admin == Some(newAdmin) && token == Some(newToken)
    {
      if admin.Some? {
        return Err(AdminExist);
      }
      admin := Some(newAdmin);
      token := Some(newToken);
      return Ok(true);
    }

    /** The error `create_offer` aborts with, in the order its steps run. */
    ghost function CreateRejection(from: Address, id: int, amount: int, auth: set<Address>, tc: Token.TokenContract): Option<Error>
      reads this, tc
    {
      if CheckOffer(id) then Some(OfferExist)
      else if token.None? then Some(Uninitialized)
      else if from !in auth then Some(AuthFailed)
      else if !tc.CanTransfer(from, amount) then Some(TransferFailed)
      else None
    }

    /** `create_offer`: escrows `amount` from `from` in the pool and records
        a pending offer under the unused id `id`. */
    method CreateOffer(from: Address, id: int, amount: int, nftContract: Address, nftId: int,
                       auth: set<Address>, tc: Token.TokenContract) returns (r: Result<bool>)
      requires token.Some? ==> tc.address == token.value
      modifies this`offers, tc`balances
      ensures r.Err? <==> old(CreateRejection(from, id, amount, auth, tc)).Some?
      ensures r.Err? ==> (r.error == old(CreateRejection(from, id, amount, auth, tc)).value &&
        offers == old(offers) && tc.balances == old(tc.balances))
      ensures r.Ok? ==> (r.value && offers == old(offers)[id := Offer(from, amount, nftContract, nftId, PENDING)] &&
        tc.balances == old(tc.AfterTransfer(from, poolAddress, amount)))
      ensures StatusStep(old(offers), offers)
    {
      if CheckOffer(id) {
        return Err(OfferExist);
      }
      if token.None? {
        return Err(Uninitialized);
      }
      if from !in auth {
        return Err(AuthFailed);
      }
      var t := tc.Transfer(from, poolAddress, amount);
      if t.Err? {
        return Err(t.error);
      }
      WriteOffer(id, from, amount, nftContract, nftId);
      return Ok(true);
    }

    /** The error `expire_offer` aborts with, in the order its checks run. */
    ghost function ExpireRejection(id: int, tc: Token.TokenContract): Option<Error>
      reads this, tc
    {
      if id !in offers then Some(OfferEmpty)
      else if offers[id].status != PENDING then Some(OfferChanged)
      else if token.None? then Some(Uninitialized)
      else if !tc.CanTransfer(poolAddress, offers[id].amount) then Some(TransferFailed)
      else None
    }

    /** `expire_offer`: refunds a pending offer to its buyer and marks it
        expired. Anyone may call it. */
    method ExpireOffer(id: int, tc: Token.TokenContract) returns (r: Result<bool>)
      requires token.Some? ==> tc.address == token.value
      modifies this`offers, tc`balances
      ensures r.Err? <==> old(ExpireRejection(id, tc)).Some?
      ensures r.Err? ==> (r.error == old(ExpireRejection(id, tc)).value &&
        offers == old(offers) && tc.balances == old(tc.balances))
      ensures r.Ok? ==> (r.value && offers == old(offers)[id := old(offers[id]).(status := EXPIRED)] &&
        tc.balances == old(tc.AfterTransfer(poolAddress, offers[id].from, offers[id].amount)))
      ensures StatusStep(old(offers), offers)
    {
      var o := ReadOffer(id);
      if o.None? {
        return Err(OfferEmpty);
      }
      if o.value.status != PENDING {
        return Err(OfferChanged);
      }
      if token.None? {
        return Err(Uninitialized);
      }
      var t := tc.Transfer(poolAddress, o.value.from, o.value.amount);
      if t.Err? {
        return Err(t.error);
      }
      var _ := ChangeOffer(id, EXPIRED);
      return Ok(true);
    }

    /** `get_offer`: the stored record, or `OfferEmpty`. */
    function GetOffer(id: int): (r: Result<Offer>)
      reads this`offers
      ensures r.Ok? <==> id in offers
      ensures r.Ok? ==> r.value == offers[id]
      ensures r.Err? ==> r.error == OfferEmpty
    {
      match ReadOffer(id)
      case Some(o) => Ok(o)
      case None => Err(OfferEmpty)
    }

    /** The error `accept_offer` aborts with, in the order its steps run:
        the offer checks, the certificate transfer from `to` to the buyer,
        then the release of the escrowed tokens to `to`. */
    ghost function AcceptRejection(to: Address, id: int, now: nat, auth: set<Address>,
                                   tc: Token.TokenContract, nft: ScfLedger.CertLedger): Option<Error>
      reads this, tc, nft
    {
      if id !in offers then Some(OfferEmpty)
      else if offers[id].status != PENDING then Some(OfferChanged)
      else if token.None? then Some(Uninitialized)
      else if nft.TransferRejection(to, offers[id].nftId, now, auth).Some? then
        nft.TransferRejection(to, offers[id].nftId, now, auth)
      else if !tc.CanTransfer(poolAddress, offers[id].amount) then Some(TransferFailed)
      else None
    }

    /** `accept_offer`: the holder `to` of the offered certificate sells it
        to the buyer for the escrowed tokens; the offer becomes accepted.
        `nft` is the ledger the offer names. A failed token release aborts
        the certificate transfer that came before it. */
    method AcceptOffer(to: Address, id: int, now: nat, auth: set<Address>,
                       tc: Token.TokenContract, nft: ScfLedger.CertLedger) returns (r: Result<bool>)
      requires token.Some? ==> tc.address == token.value
      requires id in offers ==> nft.contractAddress == offers[id].nftContract
      modifies this`offers, tc`balances, nft`owners, nft`expired
      ensures r.Err? <==> old(AcceptRejection(to, id, now, auth, tc, nft)).Some?
      ensures r.Err? ==> (r.error == old(AcceptRejection(to, id, now, auth, tc, nft)).value &&
        offers == old(offers) && tc.balances == old(tc.balances) &&
        nft.owners == old(nft.owners) && nft.expired == old(nft.expired))
      ensures r.Ok? ==> (r.value && offers == old(offers)[id := old(offers[id]).(status := ACCEPTED)] &&
        tc.balances == old(tc.AfterTransfer(poolAddress, to, offers[id].amount)))
      ensures r.Ok? ==> (nft.owners == old(nft.OwnersAfterSweep(now))[old(offers[id].nftId) := old(offers[id].from)] &&
        nft.expired == old(nft.ExpiryFlag(now)).value)
      ensures StatusStep(old(offers), offers)
    {
      var o := ReadOffer(id);
      if o.None? {
        return Err(OfferEmpty);
      }
      if o.value.status != PENDING {
        return Err(OfferChanged);
      }
      if token.None? {
        return Err(Uninitialized);
      }
      var owners0, expired0 := nft.owners, nft.expired;
      var moved := nft.Transfer(to, o.value.from, o.value.nftId, now, auth);
      if moved.Err? {
        return Err(moved.error);
      }
      var t := tc.Transfer(poolAddress, to, o.value.amount);
      if t.Err? {
        nft.owners, nft.expired := owners0, expired0;
        return Err(t.error);
      }
      var _ := ChangeOffer(id, ACCEPTED);
      return Ok(true);
    }
  }

  /** Once expired or accepted, an offer keeps its status through any
      sequence of these transitions. */
  lemma {:induction false} TerminalStatusIsFinal(history: seq<map<int, Offer>>, id: int)
    requires |history| > 0 && id in history[0]
    requires history[0][id].status == EXPIRED || history[0][id].status == ACCEPTED
    requires forall k :: 0 <= k < |history| - 1 ==> StatusStep(history[k], history[k + 1])
    ensures id in history[|history| - 1] && history[|history| - 1][id].status == history[0][id].status
    decreases |history|
  {
    if |history| > 1 {
      var prefix := history[..|history| - 1];
      assert forall k :: 0 <= k < |prefix| - 1 ==> StatusStep(prefix[k], prefix[k + 1]) by {
        forall k | 0 <= k < |prefix| - 1
          ensures StatusStep(prefix[k], prefix[k + 1])
        {
          assert prefix[k] == history[k] && prefix[k + 1] == history[k + 1];
        }
      }
      TerminalStatusIsFinal(prefix, id);
      assert StatusStep(history[|history| - 2], history[|history| - 1]);
    }
  }
}
