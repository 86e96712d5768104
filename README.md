# Invoice certificates on Soroban, modelled in Dafny

The repository holds Soroban smart contracts that turn an invoice into a
certificate ("sub-NFT") worth the invoice's `total_amount`. The certificate
can be split into children. Each child waits in escrow, owned by the ledger
contract itself, until the recipient named for it signs it off. Once the
invoice has matured and been paid, holders redeem their certificates for
payment tokens. An offer pool lets a buyer escrow tokens against a
certificate, and a pledge contract records admin-minted certificates.

Every contract keeps its state in a key-value store. Every
`panic_with_error!`, failed `require_auth` or failed cross-contract call
aborts the whole call. In this model:

- each contract is a Dafny class whose fields are its storage keys;
- each entry point is a method returning `Result`;
- `r.Err? ==> state unchanged` is part of every entry point's contract.

The files:

- `types.dfy` holds the Rust integer bounds, the error taxonomy, `Result`,
  the checked `amount * 10^decimals` scaling and `Sum`.
- `certificates.dfy` holds the split arithmetic and the expiry sweep, which
  both ledger variants share. It also holds the `Stored` function, the map a
  loop leaves after writing one fresh id per iteration, and its lemmas.
- `scf_ledger.dfy` is the current ledger (`soroban/scf_soroban`). It has the
  lazy expiry sweep run by most entry points, recipients and `sign_off`,
  `pay_off`, verifiable-credential lists, and the loan helpers.
- `early_ledger.dfy` is the earlier ledger (`soroban/src`). Owners and
  approvals are stored as `Option`s. Expiry and payment are flags cached
  by the `check_expired` and `check_paid` queries.
- `offer_pool.dfy` is the offer pool and its status state machine.
- `pledge.dfy` is the pledge certificate.
- `token.dfy` is the payment token the contracts call. It is a foreign
  contract, reduced to a balance map and a transfer that either moves the
  whole amount or fails and changes nothing.

Conventions:

- `require_auth(a)` becomes the condition `a in auth`, where the parameter
  `auth` is the set of addresses that signed the call. A missing signature
  is `Err(AuthFailed)`.
- The ledger timestamp is the parameter `now`.
- A trap in the host is an `Err` with the matching error:
  - an arithmetic overflow check fails (`Overflow`);
  - a stored `Void` is read as an address (`ConversionFailed`);
  - a `panic!("...")` (`AlreadyInitialized`, `DecimalsTooLarge`,
    `Uninitialized`).
- The order information (`total_amount`, `end_time`) and the external
  token (address and decimals) are constant fields of the ledger object.

## Model

| member | source | states |
|---|---|---|
| Types.Pow10 | soroban/scf_soroban/src/contract.rs:277 | 10^d is at least 1, and at least 10 for d > 0 |
| Types.ScaleToToken | soroban/scf_soroban/src/contract.rs:275-278 | `i128(amount) * 10i128.pow(decimals)` succeeds exactly when both the power and the product fit in an i128; the result is then the exact product, otherwise `Overflow` |
| Types.SumAppend | soroban/scf_soroban/src/contract.rs:222-224 | the sum of a concatenation is the sum of the parts |
| Types.SumPrefixLe | soroban/scf_soroban/src/contract.rs:222-224 | a prefix of non-negative amounts never sums to more than the whole list, so no partial sum overflows unless the total does |
| Types.SumPrefixStep | soroban/scf_soroban/src/contract.rs:222-224 | extending the summed prefix by one element adds that element |
| Token.TokenContract.constructor | soroban/scf_pool/src/contract.rs:49-50 | a token with the given address and balances |
| Token.TokenContract.Transfer | soroban/scf_pool/src/contract.rs:50 | the transfer succeeds iff the amount is non-negative and covered; on success only the two balances move, by exactly the amount; on failure `TransferFailed` and no balance changes |
| Certificates.SplitConservesAmount | soroban/scf_soroban/src/contract.rs:229-250 | the children's amounts sum to the parent's; the requested parts come first and unchanged; there is one extra, positive remainder iff the parts fall short of the parent |
| Certificates.ChildrenStored | soroban/scf_soroban/src/contract.rs:229-250 | the requested children's loop followed by the remainder child leaves the same flags, owners and id list as writing all the children in one run |
| Certificates.ChildRecordsStored | soroban/scf_soroban/src/contract.rs:229-250 | the records `{parent, amount}` the two loops of `split` write (in both ledgers) equal those of all the children written in one run |
| Certificates.ConsecutiveAt | soroban/scf_soroban/src/contract.rs:231-239 | the ids `split` allocates from the supply counter are `first, first+1, …`: n of them, strictly ascending |
| Certificates.ConsecutiveAppend | soroban/scf_soroban/src/contract.rs:242-250 | allocating m more ids after n consecutive ones continues the same run |
| Certificates.BlockSnoc | soroban/scf_soroban/src/contract.rs:231-239 | writing one more value under the next key extends a stored block by one |
| Certificates.StoredShort | soroban/scf_soroban/src/contract.rs:242-250 | zero iterations write nothing; one writes exactly one key |
| Certificates.StoredFirstAgree | soroban/scf_soroban/src/contract.rs:231-239 | after n iterations the loop's map depends only on the first n values |
| Certificates.StoredAppend | soroban/scf_soroban/src/contract.rs:229-250 | two loops over consecutive id runs leave the same map as one loop over both runs |
| Certificates.StoredAppendFirst | soroban/scf_soroban/src/contract.rs:229-250 | the iteration-by-iteration form of `StoredAppend` |
| Certificates.StoredIsBlock | soroban/scf_soroban/src/contract.rs:231-239 | writing values one id at a time leaves the old map overlaid with the whole block |
| Certificates.StoredFirstIsBlock | soroban/scf_soroban/src/contract.rs:231-239 | after n iterations, the old map overlaid with the first n values |
| Certificates.StoredAt | soroban/scf_soroban/src/contract.rs:231-239 | after the loop, the key `first+k` holds the k-th value, and every key outside the written range keeps its old entry or stays absent |
| Certificates.StoredRaiseOnlyRises | soroban/scf_soroban/src/contract.rs:233-253 | storing fresh `false` flags above every existing id and then disabling the parent clears no flag and drops no key |
| Certificates.Reclaim | soroban/scf_soroban/src/order_state.rs:19-30 | the swept owner map has the same ids; id 0, ids outside `1..supply` and ids not held in escrow keep their owner; every escrowed id in `1..supply` goes to the root owner |
| Certificates.ReclaimStep | soroban/scf_soroban/src/order_state.rs:23-29 | one iteration of the sweep loop changes at most id i, and rewrites it exactly when it is in escrow |
| Certificates.ReclaimEmptyRange | soroban/scf_soroban/src/order_state.rs:20-23 | with fewer than two certificates the sweep changes nothing |
| Certificates.ReclaimLeavesNoEscrow | soroban/scf_soroban/src/order_state.rs:19-30 | after the sweep no id in `1..supply` is in escrow, unless the root owner is the escrow address |
| Certificates.ReclaimIdempotent | soroban/scf_soroban/src/order_state.rs:10-17 | running the sweep a second time changes nothing |
| ScfLedger.SumAmounts | soroban/scf_soroban/src/contract.rs:219-224 | the u32 sum of the requested amounts: `Ok(sum)` iff the sum fits in a u32, otherwise `Overflow` |
| ScfLedger.CertLedger.constructor | soroban/scf_soroban/src/balance.rs:4-15 | a fresh ledger: no admin, supply 0, every store empty, `expired` and `paid` false |
| ScfLedger.CertLedger.ReadOwner | soroban/scf_soroban/src/owner.rs:7-20 | the stored owner, or `NotFound` when there is none |
| ScfLedger.CertLedger.WriteOwner | soroban/scf_soroban/src/owner.rs:22-35 | `Some(a)` makes `read_owner` return `a`; `None` removes the key so that `read_owner` fails `NotFound`; no other id's owner changes |
| ScfLedger.CertLedger.CheckOwner | soroban/scf_soroban/src/owner.rs:37-41 | passes iff `auth` is the stored owner; `NotOwned` for another owner, `NotFound` for none |
| ScfLedger.CertLedger.ReadRecipient | soroban/scf_soroban/src/owner.rs:43-56 | the stored recipient, or `NotFound` |
| ScfLedger.CertLedger.WriteRecipient | soroban/scf_soroban/src/owner.rs:58-64 | a later `read_recipient` returns what was written |
| ScfLedger.CertLedger.ReadAllOwned | soroban/scf_soroban/src/owner.rs:66-78 | an ascending list holding exactly the ids in `0..supply` owned by `address` and not disabled; `NotFound` exactly when some id has no owner or an owned id has no disabled flag |
| ScfLedger.CertLedger.WriteVc | soroban/scf_soroban/src/owner.rs:80-86 | a later `read_vc` returns the written list |
| ScfLedger.CertLedger.AddVc | soroban/scf_soroban/src/owner.rs:88-115 | `VCStringTooLong` above 2048 chars, `VCListCapacityReached` at 10 entries, otherwise appends at the end or starts a one-element list; a list never grows past 10 |
| ScfLedger.CertLedger.ReadVc | soroban/scf_soroban/src/owner.rs:117-130 | the stored list, or `NotFound` |
| ScfLedger.CertLedger.ReadSubNft | soroban/scf_soroban/src/sub_nft.rs:7-18 | the stored record, or `NotFound` |
| ScfLedger.CertLedger.WriteSubNft | soroban/scf_soroban/src/sub_nft.rs:20-32 | write-once: `NotEmpty` and nothing changed if a record exists, otherwise stores exactly `{root, amount}` |
| ScfLedger.CertLedger.ReadDisabled | soroban/scf_soroban/src/sub_nft.rs:34-45 | the stored flag, or `NotFound` when it was never written |
| ScfLedger.CertLedger.WriteDisabled | soroban/scf_soroban/src/sub_nft.rs:47-53 | overwrites, and a later read returns the new flag |
| ScfLedger.CertLedger.ReadSubTc | soroban/scf_soroban/src/sub_tc.rs:5-18 | the stored record, or `NotFound` |
| ScfLedger.CertLedger.WriteSubTc | soroban/scf_soroban/src/sub_tc.rs:20-38 | write-once: `NotEmpty` and nothing changed if a record exists, otherwise stores exactly `{parent, depth, amount}` |
| ScfLedger.CertLedger.ReadLoanStatus | soroban/scf_soroban/src/loan.rs:23-36 | the stored status, or `NotFound` |
| ScfLedger.CertLedger.WriteLoanStatus | soroban/scf_soroban/src/loan.rs:38-44 | a later read returns the written status |
| ScfLedger.CertLedger.HasLoanContract | soroban/scf_soroban/src/loan.rs:5-8 | true iff reading the loan contract succeeds |
| ScfLedger.CertLedger.ReadLoanContract | soroban/scf_soroban/src/loan.rs:10-16 | the registered loan contract, or `InvalidContract` while none is set |
| ScfLedger.CertLedger.WriteLoanContract | soroban/scf_soroban/src/loan.rs:18-21 | afterwards `has_loan_contract` holds and the read returns the written address |
| ScfLedger.CertLedger.IncrementSupply | soroban/scf_soroban/src/balance.rs:17-25 | the counter goes up by exactly one and nothing else changes; at `i128::MAX` the overflow check aborts it |
| ScfLedger.CertLedger.ReadMinted | soroban/scf_soroban/src/balance.rs:27-38 | false for an owner never written |
| ScfLedger.CertLedger.WriteMinted | soroban/scf_soroban/src/balance.rs:40-46 | afterwards `read_minted` is true and `check_minted` fails `AlreadyMinted` |
| ScfLedger.CertLedger.CheckMinted | soroban/scf_soroban/src/balance.rs:48-50 | fails exactly for an owner already marked as minted |
| ScfLedger.CertLedger.ReadApproval | soroban/scf_soroban/src/approval.rs:6-13 | the per-id approved operator, or `NotAuthorized` |
| ScfLedger.CertLedger.ReadApprovalAll | soroban/scf_soroban/src/approval.rs:15-22 | false unless written |
| ScfLedger.CertLedger.WriteApproval | soroban/scf_soroban/src/approval.rs:24-30 | `Some` sets the approval; `None` removes it, so a later read fails |
| ScfLedger.CertLedger.WriteApprovalAll | soroban/scf_soroban/src/approval.rs:32-35 | only the `(owner, operator)` entry changes, and it reads back as written |
| ScfLedger.CertLedger.ComputeSweep | soroban/scf_soroban/src/order_state.rs:9-33 | the sweep's reads and loop without writing: the flag `update_and_read_expired` returns and the owner map it leaves, or `NotFound` when an owner it reads is missing |
| ScfLedger.CertLedger.UpdateAndReadExpired | soroban/scf_soroban/src/order_state.rs:9-33 | a cached flag returns true and changes nothing; otherwise the result is `now >= end_time`; before expiry nothing is written; the first expiry hands every escrowed id in `1..supply` to owner(0) and caches the flag, which never falls back; a missing owner aborts with `NotFound` |
| ScfLedger.CertLedger.WritePaid | soroban/scf_soroban/src/order_state.rs:69-75 | a later read returns the written flag |
| ScfLedger.CertLedger.ReadAdministrator | soroban/scf_soroban/src/contract.rs:54-59 | the stored admin; the call aborts while none is stored |
| ScfLedger.CertLedger.Initialize | soroban/scf_soroban/src/contract.rs:22-52 | fails "already initialized" and changes nothing whenever an admin is stored, otherwise stores the admin |
| ScfLedger.CertLedger.SetAdmin | soroban/scf_soroban/src/contract.rs:61-70 | only the current admin's signature replaces the admin |
| ScfLedger.CertLedger.Appr | soroban/scf_soroban/src/contract.rs:72-81 | the signing owner of `id` sets its per-id approval; otherwise `AuthFailed`, `NotFound` or `NotOwned`, and nothing changes |
| ScfLedger.CertLedger.ApprAll | soroban/scf_soroban/src/contract.rs:83-90 | the signing owner sets exactly its `(owner, operator)` flag |
| ScfLedger.CertLedger.Owner | soroban/scf_soroban/src/contract.rs:116-122 | the owner of `id` once the sweep at `now` has run; on `NotFound` nothing stays written |
| ScfLedger.CertLedger.GetAllOwned | soroban/scf_soroban/src/contract.rs:124-130 | after the sweep, the ascending list of exactly the enabled ids `address` owns |
| ScfLedger.CertLedger.Transfer | soroban/scf_soroban/src/contract.rs:136-145 | after the sweep, fails `NotFound`, `NotOwned` or `AuthFailed` (in that order) unless `from` owns `id` and signed; on success only `owner[id]` changes beyond the sweep, to `to` |
| ScfLedger.CertLedger.TransferFrom | soroban/scf_soroban/src/contract.rs:147-166 | succeeds iff `from` owns `id`, the spender signed, and the spender is approved for all of `from`'s certificates or for `id`; on success the per-id approval is removed and the owner becomes `to`; otherwise `NotAuthorized` (after the ownership and auth errors) and nothing changes |
| ScfLedger.CertLedger.MintChild | soroban/scf_soroban/src/contract.rs:233-238 | the new certificate gets id `supply` with its record, an enabled flag, its owner and optional recipient; supply goes up by one |
| ScfLedger.CertLedger.MintOriginal | soroban/scf_soroban/src/contract.rs:168-186 | only the admin mints, and only while supply is 0 (`NotEmpty` otherwise); id 0 then has owner `to`, parent 0, amount `total_amount`, is enabled, and supply is 1 |
| ScfLedger.CertLedger.Burn | soroban/scf_soroban/src/contract.rs:188-200 | the admin removes the owner of `id` after the sweep; a missing owner aborts with `NotFound` |
| ScfLedger.CertLedger.MintRequested | soroban/scf_soroban/src/contract.rs:229-240 | one child per request, at consecutive ids from `supply`: parent `id`, the requested amount, owner the contract address, recipient `req.to`; `remaining` ends as the parent's amount minus the sum |
| ScfLedger.CertLedger.MintRemainder | soroban/scf_soroban/src/contract.rs:242-250 | one more child, kept by the splitting owner and with no recipient, iff something remains |
| ScfLedger.CertLedger.CreateChildren | soroban/scf_soroban/src/contract.rs:229-256 | the requested children, then the remainder, at consecutive ids, requests first; the parent is disabled and no flag is cleared |
| ScfLedger.CertLedger.SplitCheck | soroban/scf_soroban/src/contract.rs:206-227 | the first failing check in source order: disabled parent `NotPermitted`, empty list `InvalidArgs`, expired `NotPermitted`, unsigned owner `AuthFailed`, u32 sum overflow `Overflow`, sum above the parent's amount `AmountTooMuch`, plus `NotFound` for missing records |
| ScfLedger.CertLedger.Split | soroban/scf_soroban/src/contract.rs:202-257 | aborts with the first failing check and changes nothing; on success the children's amounts sum to the parent's, the returned ids are consecutive with requests first and remainder last, each requested child is escrowed for its recipient, the remainder (iff positive) goes to the owner, and the parent is disabled |
| ScfLedger.CertLedger.SignOff | soroban/scf_soroban/src/contract.rs:317-334 | `NotPermitted` unless the id is in escrow, enabled and the invoice has not matured; the signing recipient then becomes the owner |
| ScfLedger.CertLedger.Redeem | soroban/scf_soroban/src/contract.rs:259-284 | `NotPermitted` unless matured, paid and enabled; the signing owner then receives `amount × 10^decimals` from the ledger and the owner entry is removed |
| ScfLedger.CertLedger.PayOff | soroban/scf_soroban/src/contract.rs:336-353 | `NotEmpty` once paid; otherwise the signer pays `total_amount × 10^decimals` to the ledger and `paid` becomes true, never to fall back |
| EarlyLedger.OwnerIn | soroban/src/owner.rs:7-16 | the owner, or `NotFound` for a missing key and `ConversionFailed` for a stored `None` |
| EarlyLedger.FirstReadErrorNone | soroban/src/contract.rs:290-300 | the sweep finds no read error iff every owner in the range is readable, and any error it finds is a read error |
| EarlyLedger.CertLedger.constructor | soroban/src/balance.rs:22-28 | a fresh ledger: no admin, supply 0, every store empty, both cached flags false |
| EarlyLedger.CertLedger.ReadOwner | soroban/src/owner.rs:7-16 | `read_owner` succeeds iff the key holds an address and then returns it; `NotFound` for a missing key, `ConversionFailed` for the `None` a burn stores |
| EarlyLedger.CertLedger.WriteOwner | soroban/src/owner.rs:18-22 | stores the given `Option` and never removes the key; reading a stored `None` fails |
| EarlyLedger.CertLedger.CheckOwner | soroban/src/owner.rs:24-28 | passes iff `auth` is the stored owner, otherwise `NotOwned` or the read error |
| EarlyLedger.CertLedger.ReadRecipient | soroban/src/owner.rs:30-39 | the stored recipient, or `NotFound` |
| EarlyLedger.CertLedger.WriteRecipient | soroban/src/owner.rs:41-45 | a later read returns what was written |
| EarlyLedger.CertLedger.ReadAllOwned | soroban/src/owner.rs:47-59 | an ascending list holding exactly the enabled ids in `0..supply` owned by `address`; otherwise the first unreadable owner's error |
| EarlyLedger.CertLedger.ReadSubNft | soroban/src/sub_nft.rs:5-11 | the stored record, or `NotFound` |
| EarlyLedger.CertLedger.WriteSubNft | soroban/src/sub_nft.rs:13-22 | write-once: `NotEmpty` if a record exists, otherwise stores exactly `{root, amount}` |
| EarlyLedger.CertLedger.ReadDisabled | soroban/src/sub_nft.rs:24-30 | false when the flag was never written |
| EarlyLedger.CertLedger.WriteDisabled | soroban/src/sub_nft.rs:32-35 | overwrites, and a later read returns the new flag |
| EarlyLedger.CertLedger.ReadApproval | soroban/src/approval.rs:6-14 | the approved operator, `NotFound` when absent, and a cleared approval does not read as an address |
| EarlyLedger.CertLedger.ReadApprovalAll | soroban/src/approval.rs:16-24 | false unless written |
| EarlyLedger.CertLedger.WriteApproval | soroban/src/approval.rs:26-30 | stores the `Option` operator for the id |
| EarlyLedger.CertLedger.WriteApprovalAll | soroban/src/approval.rs:32-36 | only its `(owner, operator)` pair changes, and it reads back as written |
| EarlyLedger.CertLedger.ReadBalance | soroban/src/balance.rs:4-10 | 0 for an owner never written |
| EarlyLedger.CertLedger.WriteBalance | soroban/src/balance.rs:12-20 | `Add` raises the owner's balance by 1 and `Remove` lowers it by 1, aborting outside the i128 range; no other owner changes |
| EarlyLedger.CertLedger.IncrementSupply | soroban/src/balance.rs:30-33 | adds exactly one, aborting at `i128::MAX` |
| EarlyLedger.CertLedger.ReadMinted | soroban/src/balance.rs:35-41 | false for an owner never written |
| EarlyLedger.CertLedger.WriteMinted | soroban/src/balance.rs:43-46 | afterwards `check_minted` fails "already minted" |
| EarlyLedger.CertLedger.CheckMinted | soroban/src/balance.rs:48-50 | passes exactly before `write_minted` |
| EarlyLedger.CertLedger.ReadName | soroban/src/metadata.rs:5-11 | the name, or `NotFound` when unset |
| EarlyLedger.CertLedger.WriteName | soroban/src/metadata.rs:13-16 | reads back as written |
| EarlyLedger.CertLedger.ReadSymbol | soroban/src/metadata.rs:18-24 | the symbol, or `NotFound` when unset |
| EarlyLedger.CertLedger.WriteSymbol | soroban/src/metadata.rs:26-29 | reads back as written |
| EarlyLedger.CertLedger.ReadTokenUri | soroban/src/metadata.rs:31-40 | the URI, or `NotFound` when absent |
| EarlyLedger.CertLedger.WriteTokenUri | soroban/src/metadata.rs:42-46 | reads back as written |
| EarlyLedger.CertLedger.WriteExpired | soroban/src/metadata.rs:59-63 | a later read returns the written flag |
| EarlyLedger.CertLedger.WritePaid | soroban/src/metadata.rs:76-80 | a later read returns the written flag |
| EarlyLedger.CertLedger.ReadAdministrator | soroban/src/contract.rs:56-59 | the stored admin; the call aborts while none is stored |
| EarlyLedger.CertLedger.Initialize | soroban/src/contract.rs:24-54 | fails "already initialized" whenever an admin is stored |
| EarlyLedger.CertLedger.SetAdmin | soroban/src/contract.rs:61-68 | only the current admin's signature replaces the admin |
| EarlyLedger.CertLedger.Appr | soroban/src/contract.rs:85-92 | the signing owner stores `Some(operator)` as the approval of `id` |
| EarlyLedger.CertLedger.ApprAll | soroban/src/contract.rs:94-99 | the signing owner sets exactly its `(owner, operator)` flag |
| EarlyLedger.CertLedger.Transfer | soroban/src/contract.rs:130-136 | no sweep; `NotOwned` unless `from` owns `id`, `AuthFailed` unless it signed; only `owner[id]` changes |
| EarlyLedger.CertLedger.TransferFrom | soroban/src/contract.rs:138-154 | needs approve-all or the per-id approval (read, and possibly failing, only without approve-all); on success the approval is cleared to `None` and the owner becomes `to` |
| EarlyLedger.CertLedger.MintChild | soroban/src/contract.rs:210-214 | the new certificate gets id `supply` with its record, an enabled flag and its owner; supply goes up by one |
| EarlyLedger.CertLedger.MintOriginal | soroban/src/contract.rs:156-172 | only the admin mints, and only while supply is 0; id 0 then holds the whole `total_amount` |
| EarlyLedger.CertLedger.Burn | soroban/src/contract.rs:174-183 | the admin clears the owner of `id` to `None`; the key stays |
| EarlyLedger.CertLedger.MintRequested | soroban/src/contract.rs:206-216 | one child per amount at consecutive ids, owned by the contract address; `remaining` ends as the parent's amount minus the sum |
| EarlyLedger.CertLedger.MintRemainder | soroban/src/contract.rs:218-225 | one more child, kept by the owner, iff something remains |
| EarlyLedger.CertLedger.CreateChildren | soroban/src/contract.rs:206-229 | all children at consecutive ids, requests first; the parent is disabled and no flag is cleared |
| EarlyLedger.CertLedger.Split | soroban/src/contract.rs:185-232 | the first failing check in source order (`NotPermitted`, `InvalidArgs`, `NotPermitted` when the cached expiry is set, the owner read error, `AuthFailed`, `NotFound`, `Overflow`, `AmountTooMuch`) with nothing changed; on success the amounts are conserved, and the children and the disabled parent are as in the current ledger, without recipients |
| EarlyLedger.CertLedger.Redeem | soroban/src/contract.rs:234-257 | `NotPermitted` unless both cached flags are set; the signing owner is paid the unscaled amount and the owner is cleared to `None` |
| EarlyLedger.CertLedger.CheckPaid | soroban/src/contract.rs:267-280 | true at once when cached; otherwise whether the ledger's token balance covers `total_amount`, caching true the first time |
| EarlyLedger.CertLedger.ComputeSweep | soroban/src/contract.rs:282-307 | the flag `check_expired` returns and the owner map it leaves, or the first owner read error |
| EarlyLedger.CertLedger.CheckExpired | soroban/src/contract.rs:282-307 | the same cached-sweep contract as `update_and_read_expired`: escrowed ids in `1..supply` go to owner(0) on first expiry, and the flag is monotone |
| OfferPool.Pool.constructor | soroban/scf_pool/src/storage_types.rs:25-29 | the initial state before `initialize`: none of the storage keys is set, so there is no admin, no token, no offer and no whitelist |
| OfferPool.Pool.ReadOffer | soroban/scf_pool/src/offer.rs:5-13 | `None` iff no record exists |
| OfferPool.Pool.CheckOffer | soroban/scf_pool/src/offer.rs:15-18 | true iff the key is present |
| OfferPool.Pool.WriteOffer | soroban/scf_pool/src/offer.rs:20-31 | stores the fields with status 0, overwriting any earlier record |
| OfferPool.Pool.ChangeOffer | soroban/scf_pool/src/offer.rs:33-45 | false and nothing written for a missing offer; otherwise true, and only `status` changes |
| OfferPool.Pool.ReadExtTokens | soroban/scf_pool/src/pool_token.rs:5-15 | the empty map when nothing is stored |
| OfferPool.Pool.WriteExtTokens | soroban/scf_pool/src/pool_token.rs:17-20 | a later read returns the written whitelist |
| OfferPool.Pool.HasExtToken | soroban/scf_pool/src/pool_token.rs:22-24 | true iff the address is a key of the whitelist, where each address appears once |
| OfferPool.Pool.Initialize | soroban/scf_pool/src/contract.rs:33-42 | `AdminExist` once an admin is stored; otherwise stores the admin and the token and returns `Ok(true)` |
| OfferPool.Pool.CreateOffer | soroban/scf_pool/src/contract.rs:44-54 | `OfferExist` with nothing changed for a used id; on success `amount` moves from `from` to the pool and the offer is stored pending |
| OfferPool.Pool.ExpireOffer | soroban/scf_pool/src/contract.rs:56-81 | `OfferEmpty` for a missing offer and `OfferChanged` unless it is pending; on success `amount` goes back to `from` and the status becomes 1 |
| OfferPool.Pool.GetOffer | soroban/scf_pool/src/contract.rs:83-97 | the stored record, or `OfferEmpty` |
| OfferPool.Pool.AcceptOffer | soroban/scf_pool/src/contract.rs:99-129 | `OfferChanged` unless pending; on success the certificate moves from `to` to the buyer, `amount` is released to `to`, and the status becomes 2; a failure of either call undoes both |
| OfferPool.TerminalStatusIsFinal | soroban/scf_pool/src/contract.rs:56-129 | along any run of pool transitions, an expired or accepted offer keeps its status |
| Pledge.PledgeCertificate.constructor | soroban/argentina_pledge/src/storage_types.rs:41-50 | the initial state before `initialize`: none of the storage keys is set, so there is no admin, no token and every per-id map is empty |
| Pledge.PledgeCertificate.ReadOwner | soroban/argentina_pledge/src/owner.rs:23-36 | the stored owner, or `NotFound` for an id never written |
| Pledge.PledgeCertificate.WriteOwner | soroban/argentina_pledge/src/owner.rs:8-21 | `Some(a)` makes `read_owner` return `a`; `None` removes the entry so that `read_owner` fails `NotFound` |
| Pledge.PledgeCertificate.CheckOwner | soroban/argentina_pledge/src/owner.rs:38-42 | passes iff `auth` is the owner; `NotOwned` for another owner |
| Pledge.PledgeCertificate.ReadAmount | soroban/argentina_pledge/src/token_data.rs:15-28 | 0 for an id never written |
| Pledge.PledgeCertificate.WriteAmount | soroban/argentina_pledge/src/token_data.rs:7-13 | a later read returns the written amount, and a later write overwrites it |
| Pledge.PledgeCertificate.ReadFileHashes | soroban/argentina_pledge/src/token_data.rs:38-51 | the stored list, or `NotFound` |
| Pledge.PledgeCertificate.WriteFileHashes | soroban/argentina_pledge/src/token_data.rs:30-36 | a later read returns the same list |
| Pledge.PledgeCertificate.ReadRedeemTime | soroban/argentina_pledge/src/token_data.rs:61-74 | the stored time, or `NotFound` |
| Pledge.PledgeCertificate.WriteRedeemTime | soroban/argentina_pledge/src/token_data.rs:53-59 | a later read returns the same time |
| Pledge.PledgeCertificate.ReadAdmin | soroban/argentina_pledge/src/contract.rs:36 | the stored admin; reading it before `initialize` aborts |
| Pledge.PledgeCertificate.Initialize | soroban/argentina_pledge/src/contract.rs:18-33 | "already initialized" when an admin exists; decimals above 255 abort the call, so no admin stays written; otherwise stores the admin and the token `{address, decimals}` |
| Pledge.PledgeCertificate.SetAdmin | soroban/argentina_pledge/src/contract.rs:35-44 | only the current admin's signature replaces the admin |
| Pledge.PledgeCertificate.Mint | soroban/argentina_pledge/src/contract.rs:46-61 | only the admin's signature writes the amount and the hash metadata |

## Left out

- Events, and every storage-rent call (`bump`, `extend_ttl` and their constants): they are publish-only or lifetime management and do not change the logic.
- `soroban/contract_deployer` and `soroban/argentina_pool`: a wasm deployer driving foreign calls, and an empty stub with one setter.
- Every `interface.rs` and `storage_types.rs`: declarations only. The datatypes follow `storage_types.rs`, except that the `data` fields of the current `SubNFT` and `SplitRequest` are not part of this model, because no code reads them (`split`, `soroban/scf_soroban/src/contract.rs:202-256`, never reads `req.data`).
- `soroban/scf_soroban/src/metadata.rs` and both `order_info.rs` files are not part of this model. Their APIs do not match the calls in `contract.rs`. The order information and the external token are constant fields set when the ledger object is built. The invoice fields `initialize` passes to `write_order_info` are not modelled.
- `soroban/argentina_pledge/src/balance.rs` and `approval.rs`: no pledge code calls them. `admin.rs`, `ext_token.rs` and `errors.rs` of the pledge contract are not part of this model: the admin and token slots are fields, and the failed reads are `Uninitialized`.
- All tests. Where a test and the code disagree, the code is modelled:
  - `soroban/src/test.rs:83` expects the admin to own split children, but `soroban/src/contract.rs:212` writes the contract address;
  - `soroban/scf_soroban/src/test.rs:304-329` splits after maturity, which `soroban/scf_soroban/src/contract.rs:213-215` rejects.
- `soroban/scf_pool/src/pool_token.rs` is modelled, but it is not declared in `soroban/scf_pool/src/lib.rs:3-8`, and the `DataKey::ExtTokens` key it uses is missing from `soroban/scf_pool/src/storage_types.rs:25-29`, so the whitelist code is not compiled into the pool.
- Fee arithmetic, whitelist enforcement in `create_offer`, split depth, minimum split size and loan-status gating: no function in the code implements them.
- The thin getter entry points are not separate members; each is one read whose contract is already stated:
  - `admin`, `get_appr`, `is_appr`, `amount`, `parent` and `is_disabled` of both ledgers;
  - `recipient` of the current ledger;
  - `owner` of the earlier ledger, a bare `read_owner` (`soroban/src/contract.rs:121-124`);
  - `name`, `symbol` and `token_uri` of the earlier ledger;
  - the `check_paid` and `check_expired` wrappers of the current ledger.
- `set_external_token_provider` of both ledgers: the token is a constant field.
- String lengths are counted in characters. The code counts the bytes of a Soroban `String`, so the 2048 limit of `add_vc` agrees only for ASCII.
- `require_auth` is a membership test on the signer set. The token contract's own check on the sender is folded into the caller's test: `create_offer` requires `from`'s signature, and the certificate transfer in `accept_offer` requires `to`'s.
- No Soroban host call, persistent storage layout or cross-contract dispatch beyond the `Token` and ledger objects passed in.
- Pledge.PledgeCertificate.Mint: the code calls `write_amount` and `write_metadata` without the certificate id that `token_data.rs` takes, and no `write_metadata` exists there. The model writes both under id 0 and, as the code does, sets no owner. The pledge tests (`soroban/argentina_pledge/src/test.rs:39`, 71, 93, 116) and the comment at `soroban/argentina_pledge/src/interface.rs:19` expect the contract itself to own certificate 0 after `mint`; the code writes no owner, so they disagree with the model.
- Integer widths: ids and supply are i128 with an explicit overflow abort at `i128::MAX`, amounts are u32, and pledge ids and amounts are u64. The offer pool's i128 ids and amounts are left unbounded, since its code never does arithmetic on them.
- The offer pool reads the `nft_contract` of an offer as the ledger passed in; the earlier `tc_contract` naming in `storage_types.rs` is treated as the same field.
