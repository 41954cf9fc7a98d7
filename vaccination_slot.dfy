/** The records of chaincode/vaccination_slot.go, as values. */
module Records {
  import opened Wrappers
  import opened VaccinationDates
  import opened VaccinationTypes

  /** What a slot says about the vaccination occasion. `previous` is the id of
      the previously administered dose of the same type; the empty string
      means there is none (the field is omitted from JSON when empty). */
  datatype VaccinationSlotData = VaccinationSlotData(
    vaccineType: VaccinationType,
    date: Date,
    previous: string)

  /** The non-fungible token: the occasion plus its ERC-721 bookkeeping.
      `approved` is the single per-token operator, empty for none. */
  datatype VaccinationSlot = VaccinationSlot(
    data: VaccinationSlotData,
    tokenId: string,
    owner: string,
    approved: string)

  /** Whether readVaccinationSlot can decode the stored record: its type must
      be one of the five names the type codec accepts, and its date must have
      a four-digit year, the only years the date layout parses back. IssueSlot
      stores its vaccine argument without checking it, so a record that
      cannot be read is reachable. */
  predicate Readable(vs: VaccinationSlot) {
    vs.data.vaccineType in ValidTypes && 0 <= vs.data.date.year <= 9999
  }

  /** A readable record's type and date fields decode back to themselves. */
  lemma ReadableFieldsDecode(vs: VaccinationSlot, current: VaccinationType)
    requires Readable(vs)
    ensures UnmarshalType(current, QuoteName(vs.data.vaccineType)) == Assigned(vs.data.vaccineType, None)
    ensures UnmarshalDate(MarshalDate(vs.data.date)) == Success(vs.data.date)
  {
    UnmarshalTypeRoundTrip(current, vs.data.vaccineType);
    MarshalRoundTrip(vs.data.date);
  }

  /** A proposed swap of `senderItem` for `recipientItem`. */
  datatype TradeOffer = TradeOffer(
    uuid: string,
    sender: string,
    senderItem: string,
    recipient: string,
    recipientItem: string)

  /** The payloads passed to SetEvent, in the order they were emitted. */
  datatype Event =
    | Transfer(from: string, to: string, tokenId: string)
    | Approval(owner: string, approved: string, tokenId: string)
    | ApprovalForAll(owner: string, operator: string, allApproved: bool)
}
