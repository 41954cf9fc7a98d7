# Vaccination slots on a permissioned ledger — a Dafny model

The vaccination-slot chaincode keeps a registry of non-fungible tokens, one
per vaccination appointment ("slot"). A doctor's organisation issues a slot
to a patient for a date. The holder can transfer it, approve one operator for
a single slot, or approve an operator for all of their slots, in the manner
of ERC-721. The ledger is a key-value store with composite keys:

- `nft/<tokenId>` holds the slot record;
- `balance/<owner>/<tokenId>` is an index of who holds what;
- `approval/<owner>/<operator>` holds operator-wide approvals;
- `offer/...` holds trade offers, each stored three times so that a
  partial-key scan by sender or by recipient finds it.

Every state change also emits a `Transfer`, `Approval` or `ApprovalForAll`
event.

The model has these parts:

- `wrappers.dfy` (module `Wrappers`): `Option`, `Result` and the error kinds
  of the contract.
- `vaccination_date.dfy` (module `VaccinationDates`): the `YYYY-MM-DD` date
  codec. A date is a (year, month, day) triple that is a real calendar date.
  The module models Go's four-digit year formatting, `strings.Trim` with a
  cut set, and `time.Parse` with layout `2006-01-02`. It also models how
  IssueSlot decodes its date argument with `json.Unmarshal`.
- `vaccination_type.dfy` (module `VaccinationTypes`): the five vaccine names,
  `FromString`, and `UnmarshalJSON` both as written and corrected. This
  includes JSON string unescaping.
- `vaccination_slot.dfy` (module `Records`): the slot, slot data, trade
  offer and event records.
- `indexes.dfy` (module `Indexes`): the store's contents as values. It states
  the invariants that tie them together: the balance index mirrors each
  slot's owner, and the three copies of an offer agree. It proves the lemmas
  that each write keeps those invariants.
- `contract.dfy` (module `Contract`): class `VaccinationContract`. Its fields
  are the store, split by key prefix, and the event log. Its methods are the
  contract's operations and the store helpers. The module also states who
  may transfer a slot or set its operator (`MayTransfer`, `MayApprove`).
- `owner_keys.dfy` (module `OwnerKeys`): the base64 owner keys that
  `BalanceOf` and `TransferFrom` use, as written, and the counterexample
  showing they disagree with the raw keys used elsewhere.

Inputs the chaincode takes from its environment become parameters:

- the caller's decoded identity (`sender`) and MSP id (`mspId`);
- the freshly generated token id (`newId`);
- whether the host accepts the event (`eventAccepted`).

The doctor MSP id from the network configuration is a constant of the class.

Every owner key in the model is the decoded identity itself. As written, the
source keys some index entries by the base64 of the identity; this is the
first finding below. On a successful issuance the model returns the empty
string, as the code does (`vaccination_slot_contract.go:145`), although the
tests at `vaccination_slot_contract_test.go:233-235` expect the new token id.
The same test passes the bare date `2000-01-01` (line 233); this revision of
IssueSlot refuses it, because it is not a JSON text
(`VaccinationDates.BareDateArgumentRefused`).

A stored slot record is read back with `json.Unmarshal`, which fails unless
the record's type is one of the five names and its year has four digits
(`Records.Readable`). IssueSlot stores its vaccine argument unchecked, so an
unreadable record is reachable. OwnerOf, GetApproved, TransferFrom and
Approve then fail with a codec error, and GetSlots lists a nil slot in its
place. IssueSlot's pass over the patient's slots dereferences each one, so it
panics at such a slot; the model reports the panic as the error `Aborted`,
with no write.

In Fabric, writes made by a transaction that returns an error are
discarded. The model instead describes the state the function leaves behind.
So the error paths taken after the first write (a refused event) show those
writes.

## Model

| member | source | states |
|---|---|---|
| VaccinationDates.DaysIn | chaincode/vaccination_date.go:20 | month lengths used by the date parser: 28..31, and 29 exactly for February of a leap year |
| VaccinationDates.FormatDate | chaincode/vaccination_date.go:13 | for a four-digit year the output has the layout's shape: four digits, '-', two digits, '-', two digits |
| VaccinationDates.MarshalDate | chaincode/vaccination_date.go:12-15 | output starts and ends with a quote; for years 0..9999 it is 12 characters with no quote inside |
| VaccinationDates.TrimLeft | chaincode/vaccination_date.go:19 | result is a suffix of the input; everything dropped is in the cut set; the result does not start with a cut-set character |
| VaccinationDates.TrimRight | chaincode/vaccination_date.go:19 | result is a prefix of the input; everything dropped is in the cut set; the result does not end with a cut-set character |
| VaccinationDates.UnmarshalDate | chaincode/vaccination_date.go:18-22 | fails only with a codec error; a decoded date has a four-digit year and formats back to the input with its quotes trimmed |
| VaccinationDates.ParseDate | chaincode/vaccination_date.go:20 | succeeds exactly for four digits, '-', two digits, '-', two digits with month 1..12 and a day valid for that month and year; a parsed date formats back to the input; failure is a codec error |
| VaccinationDates.ReceiverAfterUnmarshal | chaincode/vaccination_date.go:18-22 | the receiver holds the parsed date on success and the zero date 0001-01-01 on failure; so it is either the zero date or a date whose formatted form is the unquoted input |
| VaccinationDates.FormatParseRoundTrip | chaincode/vaccination_date.go:12-20 | parsing the formatted date of any date with a four-digit year gives the date back |
| VaccinationDates.TrimPadded | chaincode/vaccination_date.go:19 | trimming a body padded on both sides with cut-set characters gives the body, when the body's ends are not in the cut set |
| VaccinationDates.MarshalRoundTrip | chaincode/vaccination_date.go:12-23 | UnmarshalJSON of MarshalJSON(d) yields d for every date with a four-digit year |
| VaccinationDates.OuterQuotesTrimmed | chaincode/vaccination_date.go:19 | trimming quotes from a quoted input gives what trimming the input gives |
| VaccinationDates.QuotingIsIgnored | chaincode/vaccination_date.go:19 | wrapping any input in quotes does not change what UnmarshalJSON decodes, so quoted and bare dates decode alike |
| VaccinationDates.MalformedYieldsZeroDate | chaincode/vaccination_date.go:20-22 | input whose unquoted form lacks the YYYY-MM-DD shape is an error and leaves the zero date in the receiver |
| VaccinationDates.DecodeDateArgument | chaincode/vaccination_slot_contract.go:89-93 | IssueSlot's json.Unmarshal of the date argument fails only with a codec error; a decoded date has a four-digit year, agrees with UnmarshalJSON on the argument without its JSON white space, and the argument is exactly that date marshalled with JSON white space around it |
| VaccinationDates.TrimIsPadding | chaincode/vaccination_slot_contract.go:90 | what trimming keeps is the input with characters of the cut set removed on either side |
| VaccinationDates.DateArgumentAccepted | chaincode/vaccination_slot_contract.go:89-93 | the argument decodes to d exactly when d has a four-digit year and the argument is d marshalled with JSON white space around it |
| VaccinationDates.DateArgumentRoundTrip | chaincode/vaccination_slot_contract.go:89-93 | the marshalled form of any date, with any JSON white space around it, decodes to that date |
| VaccinationDates.BareDateArgumentRefused | chaincode/vaccination_slot_contract.go:89-93 | an unquoted date, which UnmarshalJSON alone accepts, is not a JSON text and is refused as IssueSlot's argument |
| VaccinationTypes.FromString | chaincode/vaccination_type.go:18-34 | succeeds exactly for alpha, bravo, charlie, delta and echo and then holds the input; on failure returns an error and leaves the receiver unchanged |
| VaccinationTypes.DecodeJsonString | chaincode/vaccination_type.go:37-41 | only quoted input decodes to a string; the literal null is recognised exactly |
| VaccinationTypes.UnmarshalTypeAsWritten | chaincode/vaccination_type.go:36-47 | as written, success needs the raw bytes, quotes included, to be one of the five names, and then stores them; failure leaves the receiver unchanged |
| VaccinationTypes.AsWrittenRejectsEverything | chaincode/vaccination_type.go:36-47 | UnmarshalJSON as written fails on every input and never changes the receiver |
| VaccinationTypes.UnmarshalType | chaincode/vaccination_type.go:36-47 | the corrected UnmarshalJSON succeeds exactly when the input is a JSON string whose decoded text is one of the five names, and stores that text; on failure it returns a codec error and leaves the receiver unchanged |
| VaccinationTypes.UnmarshalTypeRoundTrip | chaincode/vaccination_type.go:10-47 | each of the five names, JSON-quoted, decodes to itself with no error |
| VaccinationTypes.PlainNameDecodes | chaincode/vaccination_type.go:18-47 | a quoted string with nothing to unescape decodes as FromString decides on the string itself, so a name outside the five is refused with the receiver unchanged |
| Records.ReadableFieldsDecode | chaincode/vaccination_slot_contract_helpers.go:21-25 | the type and date of a readable record decode back to themselves, which is why readVaccinationSlot succeeds on it |
| Indexes.BalanceCountsOwnedSlots | chaincode/vaccination_slot_contract_erc721.go:75-91 | when the index mirrors the slots, the tokens listed under an owner are exactly the slots naming that owner, and the counts agree |
| Indexes.TransferKeepsMirror | chaincode/vaccination_slot_contract_erc721.go:132-170 | giving a slot a new owner and no operator, then deleting (from, t) and adding (to, t), keeps the mirror invariant |
| Indexes.IssueKeepsMirror | chaincode/vaccination_slot_contract.go:95-127 | storing a new slot under a fresh id with its one (owner, id) entry keeps the mirror invariant |
| Indexes.WithOffer | chaincode/vaccination_slot_contract_helpers.go:58-94 | the offer's three keys all hold the offer; every other key is unchanged |
| Indexes.WithoutOffer | chaincode/vaccination_slot_contract_helpers.go:141-172 | the offer's three keys are gone; every other key is unchanged |
| Indexes.PutOfferKeepsConsistency | chaincode/vaccination_slot_contract_helpers.go:58-94 | storing an offer with an unused uuid keeps the three copies of every offer in agreement |
| Indexes.DelOfferKeepsConsistency | chaincode/vaccination_slot_contract_helpers.go:141-172 | deleting the offer stored under its id keeps the three copies of every offer in agreement |
| Indexes.PutThenDelRestores | chaincode/vaccination_slot_contract_helpers.go:58-172 | putOffer and then delOffer on absent keys gives back the original store |
| Indexes.PrefixScanFindsParties | chaincode/vaccination_slot.go:52-54 | in a consistent store a scan under an identity reaches every offer it sends or receives |
| Indexes.PrefixScanOnlyParties | chaincode/vaccination_slot.go:52-54 | a scan under an identity reaches only offers it sends or receives, or whose uuid equals it |
| Contract.SameDateCoversAsWritten | chaincode/vaccination_slot_contract.go:67-75 | every argument that the written string comparison treats as an occupied date, the date comparison treats so too |
| Contract.PaddedDuplicateMissedAsWritten | chaincode/vaccination_slot_contract.go:67-93 | a held date, marshalled and preceded by a space, decodes to that date, yet the written comparison does not match it |
| Contract.SameDateAsWritten | chaincode/vaccination_slot_contract.go:69-75 | for a four-digit year the written comparison matches only a twelve-character argument with a quote at each end, nothing around it |
| Contract.ScanDetermined | chaincode/vaccination_slot_contract.go:63-76 | when every slot the patient holds can be read, the pass over them ends at a slot on the date exactly when there is one, and otherwise gets through |
| Contract.IssueRejection | chaincode/vaccination_slot_contract.go:53-93 | a non-doctor caller is refused first, a panic in the pass comes next; no check fails exactly when the caller is a doctor, the pass gets through, the id is fresh and the date decodes |
| Contract.VaccinationContract.ReadSlot | chaincode/vaccination_slot_contract_helpers.go:10-28 | the stored record exactly when the key holds a readable record; not found for a missing key; a codec error for a record whose type or date does not decode |
| Contract.VaccinationContract.SlotExists | chaincode/vaccination_slot_contract_helpers.go:30-42 | true exactly when a record is stored under the key, readable or not; false implies ReadSlot reports not found |
| Contract.VaccinationContract.OwnerOf | chaincode/vaccination_slot_contract_erc721.go:93-99 | the slot's owner when the record can be read; the read error (not found or codec error) otherwise |
| Contract.VaccinationContract.GetApproved | chaincode/vaccination_slot_contract_erc721.go:271-277 | the slot's per-token operator when the record can be read; the read error otherwise |
| Contract.VaccinationContract.IsApprovedForAll | chaincode/vaccination_slot_contract_erc721.go:279-300 | the stored flag; false, not an error, when no record exists |
| Contract.VaccinationContract.OwnerOfMatchesBalanceIndex | chaincode/vaccination_slot_contract_erc721.go:93-99 | under the invariant, OwnerOf(t) is o exactly when the index holds the entry (o, t) that putBalance (vaccination_slot_contract_helpers.go:196-206) writes and t's record can be read |
| Contract.VaccinationContract.GetOffer | chaincode/vaccination_slot_contract_helpers.go:124-139 | the offer under the id key; an error for an absent uuid; in a consistent store the offer carries that uuid |
| Contract.VaccinationContract.BalanceOf | chaincode/vaccination_slot_contract_erc721.go:75-91 | the number of index entries under the owner (0 when none); under the invariant, the number of slots the owner holds |
| Contract.VaccinationContract.GetSlots | chaincode/vaccination_slot_contract.go:34-50 | one element per index entry under the owner, each the slot that entry names, or None when its record is missing or unreadable; no token twice and none missing; under the invariant every slot listed is a slot of the owner |
| Contract.VaccinationContract.GetOffers | chaincode/vaccination_slot_contract_helpers.go:100-122 | one offer per key whose first attribute is the identity, each key once and none missing |
| Contract.VaccinationContract.PutSlot | chaincode/vaccination_slot_contract_helpers.go:178-194 | overwrites only the record keyed by the slot's token id, which then reads back when readable and as a codec error otherwise; nothing else changes |
| Contract.VaccinationContract.PutBalance | chaincode/vaccination_slot_contract_helpers.go:196-206 | adds exactly the (owner, tokenId) entry; the slot records are untouched |
| Contract.VaccinationContract.DelBalance | chaincode/vaccination_slot_contract_helpers.go:208-218 | removes exactly the (owner, tokenId) entry; the slot records are untouched |
| Contract.VaccinationContract.PutOffer | chaincode/vaccination_slot_contract_helpers.go:58-98 | the identical offer under its three keys; GetOffer then returns it; a consistent store stays consistent when the uuid is new |
| Contract.VaccinationContract.DelOffer | chaincode/vaccination_slot_contract_helpers.go:141-176 | removes the three keys and nothing else; GetOffer then fails; consistency is kept when the offer was the one stored under its id |
| Contract.VaccinationContract.Emit | chaincode/vaccination_slot_contract_erc721.go:17-73 | appends the one event exactly when the host accepts it and reports the host's answer; the store is unchanged |
| Contract.VaccinationContract.CheckTransfer | chaincode/vaccination_slot_contract_erc721.go:113-130 | the read error for a missing or unreadable slot; unauthorised unless the caller is the owner, the approved operator or operator-wide approved; owner mismatch when from is not the owner; otherwise the slot as read |
| Contract.VaccinationContract.MoveSlot | chaincode/vaccination_slot_contract_erc721.go:132-170 | sets owner to and clears the operator, keeps the slot data, replaces (from, t) by (to, t) so that a self-transfer keeps the entry, and keeps the invariant |
| Contract.VaccinationContract.TransferFrom | chaincode/vaccination_slot_contract_erc721.go:101-178 | fails with no change if the slot is missing or unreadable, if the caller is not the owner, the approved operator or an operator-wide approved caller, or if from is not the owner; otherwise sets owner to and clears the operator, keeps the slot data, replaces (from, t) by (to, t) (a self-transfer keeps the entry), appends one Transfer event, returns false after the writes if the event is refused, and keeps the invariant |
| Contract.VaccinationContract.CheckApprove | chaincode/vaccination_slot_contract_erc721.go:192-204 | the read error for a missing or unreadable slot; unauthorised unless the caller is the owner or operator-wide approved (the per-token operator is not enough); otherwise the slot as read |
| Contract.VaccinationContract.SetOperator | chaincode/vaccination_slot_contract_erc721.go:206-220 | sets only the slot's approved operator; owner, data and index stay, and the invariant holds |
| Contract.VaccinationContract.Approve | chaincode/vaccination_slot_contract_erc721.go:180-228 | fails with no change if the slot is missing or unreadable or the caller is neither the owner nor operator-wide approved; otherwise sets the per-token operator, leaves the owner and data alone, appends one Approval event, and returns the event error after the write |
| Contract.VaccinationContract.SetApprovalForAll | chaincode/vaccination_slot_contract_erc721.go:230-269 | overwrites the (caller, operator) flag, after which IsApprovedForAll reports it; appends one ApprovalForAll event |
| Contract.VaccinationContract.ScanHeldSlots | chaincode/vaccination_slot_contract.go:63-76 | ends at a slot on the wanted date only if the patient holds a readable one, panics only if the patient holds an unreadable one, and gets through only if neither |
| Contract.VaccinationContract.CheckIssue | chaincode/vaccination_slot_contract.go:53-93 | the first failing check in the code's order (non-doctor caller, panic on an unreadable slot, occupied date, id in use, undecodable date), or none; the pass's end is one the patient's slots allow; when none fails the date decodes and the id is fresh |
| Contract.VaccinationContract.Mint | chaincode/vaccination_slot_contract.go:95-127 | stores the new slot under its own id and adds its one (owner, id) entry; existing slots keep their data and the invariant holds |
| Contract.VaccinationContract.IssueSlot | chaincode/vaccination_slot_contract.go:52-146 | refuses, with no write or event, whatever CheckIssue refuses, a panic included; otherwise stores the slot with the given type unchecked, the decoded date, no previous dose, the patient as owner and no operator; adds (patient, id); appends Transfer("", patient, id); keeps the invariant and every existing slot's data |
| OwnerKeys.Base64Encode | chaincode/vaccination_slot_contract_erc721.go:76 | standard padded base64: four characters per started group of three bytes |
| OwnerKeys.EncodedOwnerDiffers | chaincode/vaccination_slot_contract_erc721.go:76 | the base64 key of a non-empty identity never equals the identity |
| OwnerKeys.BalanceOfAsWritten | chaincode/vaccination_slot_contract_erc721.go:75-91 | non-zero exactly when some entry is keyed by the base64 of the owner, so entries under the raw owner are never counted |
| OwnerKeys.TransferEntriesAsWritten | chaincode/vaccination_slot_contract_erc721.go:150-170 | the entry under the encoded recipient is present; the one under the encoded sender is gone; every other entry stays |
| OwnerKeys.RawAndEncodedKeysDisagree | chaincode/vaccination_slot_contract.go:119-127 | after issuing to a patient, BalanceOf as written reports 0 for a patient who owns one slot; after a transfer as written the patient's raw entry remains and the index no longer mirrors the owners |

## Left out

- Identity handling: `getSender`, `ClientAccountId` and the base64 decoding of the client id are not modelled. The caller's decoded identity is a parameter, and a failed decode is not an error path of the model.
- The network configuration is a constant of the class. Token id generation is the `newId` parameter. The uuid library and `chaincode/vaccination_slot_token_id.go` are not part of this model.
- Store, iterator and event-bus failures are not modelled, except the event outcome, which is the `eventAccepted` parameter. The two `panic` paths on a failed partial-key query are left out too. So is `CreateCompositeKey`'s refusal of an attribute containing U+0000 or U+10FFFF: an identity, operator or token id holding either character makes the source's operation fail (for instance `SetApprovalForAll` at erc721.go:248), while the model accepts it.
- Records, events and offers are Dafny values, not JSON bytes. Whether a stored slot record decodes is modelled by `Records.Readable`, with the type codec as corrected. Failures to decode a stored offer in `getOffers` are not modelled.
- Contract.VaccinationContract.ReadSlot: uses the corrected type codec. With the type codec as written (third finding), every stored record fails to decode, so every operation that reads a slot (OwnerOf, GetApproved, GetSlots, TransferFrom, Approve, IssueSlot's pass over the patient's slots) would fail or panic; the model does not follow that.
- Contract.VaccinationContract.GetSlots: the host returns scan results sorted by key. The model leaves the order open and names it with a ghost sequence.
- Contract.VaccinationContract.GetOffers: the order is left open in the same way.
- Contract.VaccinationContract.ScanHeldSlots: the order in which the host lists the patient's slots is left open, so when the patient holds both a slot on the date and an unreadable slot the model allows either end of the pass. A Go panic is reported as the error `Aborted` with no write; how the host reports a panicking transaction is not modelled.
- VaccinationDates.ParseDate: accepts years 0000..9999 only, as the four-digit layout does. Time zones, monotonic clock readings and the rest of Go's `time` package are not modelled.
- VaccinationDates.MarshalDate: years outside 0..9999 follow Go's integer formatting but are never produced by parsing.
- VaccinationDates.DecodeDateArgument: models only what `json.Unmarshal` does with a JSON string, JSON white space around it, and everything else. Any other JSON value is refused, as `UnmarshalJSON` would then fail anyway. Escape sequences inside the quoted date are refused by the date shape check in both cases.
- VaccinationTypes.UnmarshalType: JSON white space around the quoted name is not modelled. The decoder strips it before calling `UnmarshalJSON`.
- Strings are sequences of Unicode scalar values. Invalid UTF-8 in identities or JSON text is not modelled.
- MakeOffer, AcceptOffer, DeleteOffer and BurnToken, a burned flag and a per-type deadline table appear only in the tests, not in the modelled sources. They are not modelled. The same goes for `chaincode/vaccination_slot_contract_meta.go`, which is built on types that are not part of this model.
- The comments at `chaincode/vaccination_slot.go:6-8` and `14-17` allow a transfer to change the type or the previous dose. No modelled operation does, so every mutating method keeps all slot data fixed.

## Findings

| source | as written | input that shows it | evidently intended | confidence | as-written member | corrected member |
|---|---|---|---|---|---|---|
| chaincode/vaccination_slot_contract_erc721.go:76 | BalanceOf and TransferFrom key the balance index by the base64 of the owner, while IssueSlot, GetSlots and putBalance key it by the owner itself | issue a slot to patient "a" (entry under "a"); BalanceOf("a") scans "YQ==" and returns 0; once stored records decode (third finding corrected), a transfer from "a" to "b" deletes under "YQ==" and writes under "Yg==", so GetSlots("a") still lists the slot; as written the BalanceOf half stands, while the transfer already fails at the slot read (erc721.go:112-116), before any balance key is touched | one owner key throughout, so the index mirrors the owners | high (not executed) | OwnerKeys.RawAndEncodedKeysDisagree | Contract.VaccinationContract.BalanceOf |
| chaincode/vaccination_slot_contract.go:69-75 | the occupied-date check compares the marshalled held date with the raw argument as strings | the argument ` "2000-01-01"` (leading space) for a patient holding 2000-01-01: once stored records decode (third finding corrected), json.Unmarshal accepts it as that date, the strings differ, and a second slot on the same date is issued; as written GetSlots yields a nil slot for the held record (contract.go:47) and the pass panics at contract.go:69, so nothing is issued and the defect stays latent | the patient holds no slot whose date equals the decoded argument | high (not executed) | Contract.PaddedDuplicateMissedAsWritten | Contract.VaccinationContract.ScanHeldSlots |
| chaincode/vaccination_type.go:42 | UnmarshalJSON passes the raw JSON bytes, quotes included, to FromString | `"alpha"`: the quoted bytes match no name, so decoding fails; every stored slot record then fails to decode in readVaccinationSlot | pass the decoded string to FromString | high (not executed) | VaccinationTypes.AsWrittenRejectsEverything | VaccinationTypes.UnmarshalTypeRoundTrip |
