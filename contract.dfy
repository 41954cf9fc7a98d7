/** The VaccinationContract chaincode: its ERC-721 operations
    (chaincode/vaccination_slot_contract_erc721.go), slot issuance and listing
    (chaincode/vaccination_slot_contract.go) and the persistence helpers
    (chaincode/vaccination_slot_contract_helpers.go), as methods of a class
    whose fields are the host's key-value store, split by key namespace.

    The caller's decoded identity, its MSP id, the freshly generated token id
    and whether the host accepts SetEvent are parameters of the operations.
    Every owner key uses the one decoded identity string. */
module Contract {
  import opened Wrappers
  import opened Records
  import opened Indexes
  import opened VaccinationDates

  /** IssueSlot's duplicate-date test as written: the held date, marshalled
      to JSON with its quotes, compared as a string with the raw argument.
      For a four-digit year only the exact twelve-character quoted form
      matches, with no white space around it. */
  predicate SameDateAsWritten(held: Date, arg: string): (b: bool)
    ensures b && 0 <= held.year <= 9999 ==> |arg| == 12 && arg[0] == '"' && arg[11] == '"'
  {
    MarshalDate(held) == arg
  }

  /** The duplicate-date test as intended: the argument decodes to the held date. */
  predicate SameDate(held: Date, arg: string) {
    DecodeDateArgument(arg) == Success(held)
  }

  /** Every argument the written test matches, the intended test matches too. */
  lemma SameDateCoversAsWritten(held: Date, arg: string)
    requires 0 <= held.year <= 9999
    ensures SameDateAsWritten(held, arg) ==> SameDate(held, arg)
  {
    if SameDateAsWritten(held, arg) {
      DateArgumentRoundTrip(held, [], []);
      assert [] + MarshalDate(held) + [] == arg;
    }
  }

  /** The written test misses arguments that IssueSlot accepts: any held
      date, marshalled and preceded by a space, decodes to that same date but
      differs from it as a string. */
  lemma PaddedDuplicateMissedAsWritten(held: Date)
    requires 0 <= held.year <= 9999
    ensures SameDate(held, [' '] + MarshalDate(held))
    ensures !SameDateAsWritten(held, [' '] + MarshalDate(held))
  {
    DateArgumentRoundTrip(held, [' '], []);
    assert [' '] + MarshalDate(held) + [] == [' '] + MarshalDate(held);
  }

  /** The patient holds, through the balance index, a readable slot on the
      date the argument decodes to. */
  ghost predicate Occupied(slots: SlotTable, balances: BalanceIndex, patient: string, wanted: Result<Date>) {
    wanted.Success? && exists t | (patient, t) in balances ::
      t in slots && Readable(slots[t]) && slots[t].data.date == wanted.value
  }

  /** The patient's index lists a slot that GetSlots cannot read, so that it
      yields a nil slot in its place. */
  ghost predicate HoldsUnreadable(slots: SlotTable, balances: BalanceIndex, patient: string) {
    exists t | (patient, t) in balances :: t !in slots || !Readable(slots[t])
  }

  /** How IssueSlot's pass over the patient's slots ends: at a slot on the
      wanted date, at a nil slot (whose date it dereferences, so the
      transaction panics), or at the end of the list. */
  datatype Scan = Match | Crash | Clear

  /** The ends the pass can reach. The host's listing order decides which
      comes first when the patient holds both a slot on the date and an
      unreadable one; otherwise only one end is possible (ScanDetermined). */
  ghost predicate PossibleScan(slots: SlotTable, balances: BalanceIndex, patient: string, wanted: Result<Date>, scan: Scan) {
    match scan
    case Match => Occupied(slots, balances, patient, wanted)
    case Crash => HoldsUnreadable(slots, balances, patient)
    case Clear => !Occupied(slots, balances, patient, wanted) && !HoldsUnreadable(slots, balances, patient)
  }

  /** When every slot of the patient can be read, the pass ends at a slot on
      the date exactly when there is one, and otherwise gets through. */
  lemma ScanDetermined(slots: SlotTable, balances: BalanceIndex, patient: string, wanted: Result<Date>, scan: Scan)
    requires !HoldsUnreadable(slots, balances, patient)
    ensures PossibleScan(slots, balances, patient, wanted, scan) <==>
      scan == (if Occupied(slots, balances, patient, wanted) then Match else Clear)
  {
  }

  /** The first check IssueSlot fails, in the order the code makes them, or
      None when they all pass; `wanted` is the decoded date argument and
      `scan` how the pass over the patient's slots ended. Decoding the
      argument has no effect, so deciding it before the pass changes
      nothing. */
  function IssueRejection(doctorMspId: string, slots: SlotTable, mspId: string, newId: string,
                          wanted: Result<Date>, scan: Scan): (r: Option<Error>)
    ensures mspId != doctorMspId ==> r == Some(Unauthorized)
    ensures r.None? <==> mspId == doctorMspId && scan.Clear? && newId !in slots && wanted.Success?
    ensures mspId == doctorMspId && scan.Crash? ==> r == Some(Aborted)
  {
    if mspId != doctorMspId then Some(Unauthorized)
    else if scan.Crash? then Some(Aborted)
    else if scan.Match? then Some(SlotOccupied)
    else if newId in slots then Some(IdCollision)
    else if wanted.Failure? then Some(CodecError)
    else None
  }

  // ---------------------------------------------------------------------------
  // Authority rules of the ERC-721 operations

  /** Whether `operator` may act for all of `owner`'s tokens; a missing record
      reads as false. */
  predicate ApprovedForAll(approvals: ApprovalTable, owner: string, operator: string) {
    (owner, operator) in approvals && approvals[(owner, operator)]
  }

  /** Who may transfer a slot: its owner, its approved operator, or an
      operator the owner approved for all tokens. */
  predicate MayTransfer(slot: VaccinationSlot, caller: string, approvals: ApprovalTable) {
    slot.owner == caller || slot.approved == caller || ApprovedForAll(approvals, slot.owner, caller)
  }

  /** Who may set a slot's approved operator: its owner or an operator-wide
      approved caller (the current per-token operator may not). */
  predicate MayApprove(slot: VaccinationSlot, caller: string, approvals: ApprovalTable) {
    slot.owner == caller || ApprovedForAll(approvals, slot.owner, caller)
  }

  class VaccinationContract {
    /** The MSP id of the organisation allowed to issue slots (from the
        network configuration). */
    const doctorMspId: string

    /** Records under (nft, tokenId). */
    var slots: SlotTable
    /** Keys (balance, owner, tokenId); the stored value is the token id. */
    var balances: BalanceIndex
    /** Records under (approval, owner, operator); only their flag matters. */
    var operatorApprovals: ApprovalTable
    /** Records under (offer, sender, uuid), (offer, recipient, uuid), (offer, uuid). */
    var offers: OfferStore
    /** Payloads passed to SetEvent, oldest first. */
    var events: seq<Event>

    ghost predicate Valid()
      reads this
    {
      KeyedByTokenId(slots) && BalanceMirrors(slots, balances)
    }

    constructor (doctorMspId: string)
      ensures Valid() && this.doctorMspId == doctorMspId
      ensures slots == map[] && balances == {} && operatorApprovals == map[]
      ensures offers == map[] && events == []
    {
      this.doctorMspId := doctorMspId;
      slots, balances, operatorApprovals, offers, events := map[], {}, map[], map[], [];
    }

    // -------------------------------------------------------------------------
    // Reads

    /** readVaccinationSlot: the record under the token's key, decoded. A
        missing key yields no bytes, which fail to decode; a stored record
        fails to decode when its type or date does (Readable). */
    function ReadSlot(tokenId: string): (r: Result<VaccinationSlot>)
      reads this
      ensures r.Success? <==> tokenId in slots && Readable(slots[tokenId])
      ensures r.Success? ==> r.value == slots[tokenId]
      ensures tokenId !in slots ==> r == Failure(NotFound)
      ensures tokenId in slots && !Readable(slots[tokenId]) ==> r == Failure(CodecError)
    {
      if tokenId !in slots then Failure(NotFound)
      else if !Readable(slots[tokenId]) then Failure(CodecError)
      else Success(slots[tokenId])
    }

    /** vaccinationSlotExists: a non-empty record is stored under the key,
        whether or not it can be decoded. */
    function SlotExists(tokenId: string): (b: bool)
      reads this
      ensures b <==> tokenId in slots
      ensures ReadSlot(tokenId).Success? ==> b
      ensures !b ==> ReadSlot(tokenId) == Failure(NotFound)
    {
      tokenId in slots
    }

    /** OwnerOf: the owner field of the slot, or the read error. */
    function OwnerOf(tokenId: string): (r: Result<string>)
      reads this
      ensures r.Success? <==> ReadSlot(tokenId).Success?
      ensures r.Success? ==> r.value == slots[tokenId].owner
      ensures r.Failure? ==> r.error == ReadSlot(tokenId).error
    {
      match ReadSlot(tokenId)
      case Success(vs) => Success(vs.owner)
      case Failure(e) => Failure(e)
    }

    /** GetApproved: the per-token operator of the slot ("" for none). */
    function GetApproved(tokenId: string): (r: Result<string>)
      reads this
      ensures r.Success? <==> ReadSlot(tokenId).Success?
      ensures r.Success? ==> r.value == slots[tokenId].approved
      ensures r.Failure? ==> r.error == ReadSlot(tokenId).error
    {
      match ReadSlot(tokenId)
      case Success(vs) => Success(vs.approved)
      case Failure(e) => Failure(e)
    }

    /** IsApprovedForAll: the stored flag; a missing record reads as false. */
    function IsApprovedForAll(owner: string, operator: string): (b: bool)
      reads this
      ensures (owner, operator) !in operatorApprovals ==> !b
      ensures (owner, operator) in operatorApprovals ==> b == operatorApprovals[(owner, operator)]
    {
      ApprovedForAll(operatorApprovals, owner, operator)
    }

    /** Under the invariant, OwnerOf and the balance index agree on every
        token whose record can be read. */
    lemma OwnerOfMatchesBalanceIndex(tokenId: string, owner: string)
      requires Valid()
      ensures OwnerOf(tokenId) == Success(owner) <==> (owner, tokenId) in balances && ReadSlot(tokenId).Success?
    {
    }

    /** getOffer: the copy stored under the offer's id key. */
    function GetOffer(uuid: string): (r: Result<TradeOffer>)
      reads this
      ensures r.Success? <==> ById(uuid) in offers
      ensures r.Success? ==> r.value == offers[ById(uuid)]
      ensures r.Success? && OffersConsistent(offers) ==> r.value.uuid == uuid
      ensures r.Failure? ==> r.error == NotFound
    {
      if ById(uuid) in offers then
        var o := offers[ById(uuid)];
        assert OffersConsistent(offers) ==> ById(uuid) in KeysOf(o);
        Success(o)
      else Failure(NotFound)
    }

    /** BalanceOf: counts the entries of a partial-key scan under `owner`;
        0 when there are none. Under the invariant it is the number of slots
        the owner holds. */
    method BalanceOf(owner: string) returns (balance: int)
      ensures balance == |EntriesOf(balances, owner)|
      ensures Valid() ==> balance == |OwnedSlots(slots, owner)|
    {
      var remaining := EntriesOf(balances, owner);
      balance := 0;
      while remaining != {}
        invariant remaining <= EntriesOf(balances, owner)
        invariant balance + |remaining| == |EntriesOf(balances, owner)|
        decreases |remaining|
      {
        var entry :| entry in remaining;
        remaining := remaining - {entry};
        balance := balance + 1;
      }
      if Valid() {
        BalanceCountsOwnedSlots(slots, balances, owner);
      }
    }

    /** GetSlots: one element per balance entry under `owner`, each the slot
        record that entry names. An entry whose record cannot be read gives
        None (the code appends the nil pointer the failed read returned and
        ignores the error). Under the invariant every slot listed is a slot
        of `owner`. The scan order is the host's and is left open: `order` is
        the sequence of token ids visited. */
    method GetSlots(owner: string) returns (result: seq<Option<VaccinationSlot>>, ghost order: seq<string>)
      ensures |result| == |order| == |EntriesOf(balances, owner)|
      ensures forall i, j | 0 <= i < j < |order| :: order[i] != order[j]
      ensures forall i | 0 <= i < |order| ::
        (owner, order[i]) in balances &&
        result[i] == (if order[i] in slots && Readable(slots[order[i]]) then Some(slots[order[i]]) else None)
      ensures forall t | (owner, t) in balances :: t in order
      ensures Valid() ==> forall i | 0 <= i < |result| && result[i].Some? :: result[i].value.owner == owner
    {
      ghost var entries := EntriesOf(balances, owner);
      var remaining := EntriesOf(balances, owner);
      result, order := [], [];
      while remaining != {}
        invariant remaining <= entries
        invariant |order| + |remaining| == |entries| && |result| == |order|
        invariant forall i | 0 <= i < |order| ::
          (owner, order[i]) in entries && (owner, order[i]) !in remaining &&
          result[i] == (if order[i] in slots && Readable(slots[order[i]]) then Some(slots[order[i]]) else None)
        invariant forall i, j | 0 <= i < j < |order| :: order[i] != order[j]
        invariant forall e | e in entries && e !in remaining :: e.1 in order
        decreases |remaining|
      {
        var entry :| entry in remaining;
        var vs := ReadSlot(entry.1);
        result := result + [if vs.Success? then Some(vs.value) else None];
        order := order + [entry.1];
        remaining := remaining - {entry};
      }
      forall t | (owner, t) in balances ensures t in order {
        assert (owner, t) in entries;
      }
    }

    /** getOffers: every offer stored under a key whose first attribute is
        `identity`, one per key; in a consistent store these are the offers
        `identity` sends or receives (PrefixScanFindsParties). The scan order
        is the host's: `visited` is the sequence of keys read. */
    method GetOffers(identity: string) returns (found: seq<TradeOffer>, ghost visited: seq<OfferKey>)
      ensures |found| == |visited| == |PrefixKeys(offers, identity)|
      ensures forall i, j | 0 <= i < j < |visited| :: visited[i] != visited[j]
      ensures forall i | 0 <= i < |visited| ::
        visited[i] in PrefixKeys(offers, identity) && found[i] == offers[visited[i]]
      ensures forall k | k in PrefixKeys(offers, identity) :: k in visited
    {
      ghost var keys := PrefixKeys(offers, identity);
      var remaining := PrefixKeys(offers, identity);
      found, visited := [], [];
      while remaining != {}
        invariant remaining <= keys
        invariant |visited| + |remaining| == |keys| && |found| == |visited|
        invariant forall i | 0 <= i < |visited| ::
          visited[i] in keys && visited[i] !in remaining && found[i] == offers[visited[i]]
        invariant forall i, j | 0 <= i < j < |visited| :: visited[i] != visited[j]
        invariant forall k | k in keys && k !in remaining :: k in visited
        decreases |remaining|
      {
        var k :| k in remaining;
        found := found + [offers[k]];
        visited := visited + [k];
        remaining := remaining - {k};
      }
    }

    // -------------------------------------------------------------------------
    // Store helpers

    /** VaccinationSlot.put: overwrites only the record keyed by the slot's own id. */
    method PutSlot(slot: VaccinationSlot)
      modifies this
      ensures slots == old(slots)[slot.tokenId := slot]
      ensures ReadSlot(slot.tokenId) == if Readable(slot) then Success(slot) else Failure(CodecError)
      ensures balances == old(balances) && operatorApprovals == old(operatorApprovals)
      ensures offers == old(offers) && events == old(events)
    {
      slots := slots[slot.tokenId := slot];
    }

    /** putBalance: adds exactly the (owner, tokenId) entry of the slot. */
    method PutBalance(slot: VaccinationSlot)
      modifies this
      ensures balances == old(balances) + {(slot.owner, slot.tokenId)}
      ensures slots == old(slots) && operatorApprovals == old(operatorApprovals)
      ensures offers == old(offers) && events == old(events)
    {
      balances := balances + {(slot.owner, slot.tokenId)};
    }

    /** delBalance: removes exactly the (owner, tokenId) entry of the slot. */
    method DelBalance(slot: VaccinationSlot)
      modifies this
      ensures balances == old(balances) - {(slot.owner, slot.tokenId)}
      ensures slots == old(slots) && operatorApprovals == old(operatorApprovals)
      ensures offers == old(offers) && events == old(events)
    {
      balances := balances - {(slot.owner, slot.tokenId)};
    }

    /** putOffer: the identical offer under its sender, recipient and id keys. */
    method PutOffer(offer: TradeOffer)
      modifies this
      ensures offers == WithOffer(old(offers), offer)
      ensures GetOffer(offer.uuid) == Success(offer)
      ensures OffersConsistent(old(offers)) && IdKey(offer) !in old(offers) ==> OffersConsistent(offers)
      ensures slots == old(slots) && balances == old(balances)
      ensures operatorApprovals == old(operatorApprovals) && events == old(events)
    {
      offers := offers[SenderKey(offer) := offer];
      offers := offers[RecipientKey(offer) := offer];
      offers := offers[IdKey(offer) := offer];
      if OffersConsistent(old(offers)) && IdKey(offer) !in old(offers) {
        PutOfferKeepsConsistency(old(offers), offer);
      }
    }

    /** delOffer: deletes the offer's three keys and nothing else. */
    method DelOffer(offer: TradeOffer)
      modifies this
      ensures offers == WithoutOffer(old(offers), offer)
      ensures GetOffer(offer.uuid).Failure?
      ensures OffersConsistent(old(offers)) && old(GetOffer(offer.uuid)) == Success(offer) ==> OffersConsistent(offers)
      ensures slots == old(slots) && balances == old(balances)
      ensures operatorApprovals == old(operatorApprovals) && events == old(events)
    {
      offers := offers - {SenderKey(offer)};
      offers := offers - {RecipientKey(offer)};
      offers := offers - {IdKey(offer)};
      if OffersConsistent(old(offers)) && IdKey(offer) in old(offers) && old(offers)[IdKey(offer)] == offer {
        DelOfferKeepsConsistency(old(offers), offer);
      }
    }

    // -------------------------------------------------------------------------
    // Events

    /** emitTransfer, emitApproval, emitApprovalForAll: hand one event to the
        host, which may refuse it; `accepted` is the host's answer. */
    method Emit(event: Event, accepted: bool) returns (ok: bool)
      modifies this
      ensures events == old(events) + (if accepted then [event] else [])
      ensures ok == accepted
      ensures slots == old(slots) && balances == old(balances)
      ensures operatorApprovals == old(operatorApprovals) && offers == old(offers)
    {
      if accepted {
        events := events + [event];
      }
      ok := accepted;
    }

    // -------------------------------------------------------------------------
    // ERC-721 operations

    /** The checks TransferFrom makes before its first write: the slot must be
        readable, the caller must be its owner, its approved operator or an
        operator-wide approved caller, and `from` must be its owner. On
        success the slot as read is returned. */
    method CheckTransfer(sender: string, from: string, tokenId: string) returns (r: Result<VaccinationSlot>)
      ensures ReadSlot(tokenId).Failure? ==> r == Failure(ReadSlot(tokenId).error)
      ensures ReadSlot(tokenId).Success? && !MayTransfer(slots[tokenId], sender, operatorApprovals) ==>
        r == Failure(Unauthorized)
      ensures (ReadSlot(tokenId).Success? && MayTransfer(slots[tokenId], sender, operatorApprovals)
               && slots[tokenId].owner != from) ==> r == Failure(OwnerMismatch)
      ensures r.Success? <==>
        && ReadSlot(tokenId).Success? && MayTransfer(slots[tokenId], sender, operatorApprovals)
        && slots[tokenId].owner == from
      ensures r.Success? ==> r.value == slots[tokenId]
    {
      var read := ReadSlot(tokenId);
      if read.Failure? {
        return Failure(read.error);
      }
      var vs := read.value;
      var owner := vs.owner;
      var operator := vs.approved;
      var operatorApproval := IsApprovedForAll(owner, sender);
      if owner != sender && operator != sender && !operatorApproval {
        return Failure(Unauthorized);
      }
      if owner != from {
        return Failure(OwnerMismatch);
      }
      return Success(vs);
    }

    /** TransferFrom's writes: the slot gets owner `to` and no approved
        operator; the entry (from, t) is deleted, then (to, t) is written, so
        a transfer to oneself keeps the entry. */
    method MoveSlot(tokenId: string, from: string, to: string)
      requires Valid() && tokenId in slots && slots[tokenId].owner == from
      modifies this
      ensures Valid()
      ensures slots == old(slots)[tokenId := old(slots)[tokenId].(owner := to, approved := "")]
      ensures balances == old(balances) - {(from, tokenId)} + {(to, tokenId)}
      ensures DataPreserved(old(slots), slots)
      ensures operatorApprovals == old(operatorApprovals) && offers == old(offers) && events == old(events)
    {
      TransferKeepsMirror(slots, balances, tokenId, from, to);
      var vs := slots[tokenId];
      vs := vs.(approved := "");
      vs := vs.(owner := to);
      slots := slots[tokenId := vs];
      balances := balances - {(from, tokenId)};
      balances := balances + {(to, tokenId)};
    }

    /** TransferFrom, called by `sender`. It fails, changing nothing, when
        CheckTransfer does. Otherwise it makes MoveSlot's writes and emits one
        Transfer event; if the host refuses the event the result is `false`
        with every write already made. */
    method TransferFrom(sender: string, from: string, to: string, tokenId: string, eventAccepted: bool)
      returns (r: Result<bool>)
      requires Valid()
      modifies this
      ensures Valid()
      ensures DataPreserved(old(slots), slots)
      ensures operatorApprovals == old(operatorApprovals) && offers == old(offers)
      ensures old(ReadSlot(tokenId)).Failure? ==> r == Failure(old(ReadSlot(tokenId)).error)
      ensures old(ReadSlot(tokenId)).Success? && !MayTransfer(old(slots)[tokenId], sender, operatorApprovals) ==>
        r == Failure(Unauthorized)
      ensures (old(ReadSlot(tokenId)).Success? && MayTransfer(old(slots)[tokenId], sender, operatorApprovals)
               && old(slots)[tokenId].owner != from) ==> r == Failure(OwnerMismatch)
      ensures r.Failure? ==> slots == old(slots) && balances == old(balances) && events == old(events)
      ensures r.Success? <==>
        && old(ReadSlot(tokenId)).Success? && MayTransfer(old(slots)[tokenId], sender, operatorApprovals)
        && old(slots)[tokenId].owner == from
      ensures r.Success? ==>
        && slots == old(slots)[tokenId := old(slots)[tokenId].(owner := to, approved := "")]
        && balances == old(balances) - {(from, tokenId)} + {(to, tokenId)}
        && events == old(events) + (if eventAccepted then [Transfer(from, to, tokenId)] else [])
        && r.value == eventAccepted
      ensures r.Success? ==> OwnerOf(tokenId) == Success(to) && GetApproved(tokenId) == Success("")
    {
      var checked := CheckTransfer(sender, from, tokenId);
      if checked.Failure? {
        return Failure(checked.error);
      }
      MoveSlot(tokenId, from, to);
      var ok := Emit(Transfer(from, to, tokenId), eventAccepted);
      r := Success(ok);
    }

    /** The checks Approve makes before its write: the slot must be readable
        and the caller must be its owner or an operator-wide approved caller
        (the current per-token operator may not). */
    method CheckApprove(sender: string, tokenId: string) returns (r: Result<VaccinationSlot>)
      ensures ReadSlot(tokenId).Failure? ==> r == Failure(ReadSlot(tokenId).error)
      ensures ReadSlot(tokenId).Success? && !MayApprove(slots[tokenId], sender, operatorApprovals) ==>
        r == Failure(Unauthorized)
      ensures r.Success? <==> ReadSlot(tokenId).Success? && MayApprove(slots[tokenId], sender, operatorApprovals)
      ensures r.Success? ==> r.value == slots[tokenId]
    {
      var read := ReadSlot(tokenId);
      if read.Failure? {
        return Failure(read.error);
      }
      var vs := read.value;
      var owner := vs.owner;
      var operatorApproval := IsApprovedForAll(owner, sender);
      if owner != sender && !operatorApproval {
        return Failure(Unauthorized);
      }
      return Success(vs);
    }

    /** Approve's write: the slot's approved operator, and nothing else. */
    method SetOperator(tokenId: string, operator: string)
      requires Valid() && tokenId in slots
      modifies this
      ensures Valid()
      ensures slots == old(slots)[tokenId := old(slots)[tokenId].(approved := operator)]
      ensures DataPreserved(old(slots), slots)
      ensures balances == old(balances) && operatorApprovals == old(operatorApprovals)
      ensures offers == old(offers) && events == old(events)
    {
      var vs := slots[tokenId];
      vs := vs.(approved := operator);
      slots := slots[tokenId := vs];
    }

    /** Approve, called by `sender`: when CheckApprove passes, sets the slot's
        approved operator, leaving its owner and data as they were, and emits
        an Approval event. Nothing changes on a failed check. If the host
        refuses the event the write has been made and the error is returned. */
    method Approve(sender: string, operator: string, tokenId: string, eventAccepted: bool)
      returns (r: Result<bool>)
      requires Valid()
      modifies this
      ensures Valid()
      ensures DataPreserved(old(slots), slots)
      ensures balances == old(balances) && operatorApprovals == old(operatorApprovals) && offers == old(offers)
      ensures old(ReadSlot(tokenId)).Failure? ==> r == Failure(old(ReadSlot(tokenId)).error)
      ensures old(ReadSlot(tokenId)).Success? && !MayApprove(old(slots)[tokenId], sender, operatorApprovals) ==>
        r == Failure(Unauthorized)
      ensures r.Failure? && r.error != EventRejected ==> slots == old(slots) && events == old(events)
      ensures old(ReadSlot(tokenId)).Success? && MayApprove(old(slots)[tokenId], sender, operatorApprovals) ==>
        && slots == old(slots)[tokenId := old(slots)[tokenId].(approved := operator)]
        && events == old(events) + (if eventAccepted then [Approval(old(slots)[tokenId].owner, operator, tokenId)] else [])
        && r == (if eventAccepted then Success(true) else Failure(EventRejected))
      ensures r.Success? ==> GetApproved(tokenId) == Success(operator) && OwnerOf(tokenId) == old(OwnerOf(tokenId))
    {
      var checked := CheckApprove(sender, tokenId);
      if checked.Failure? {
        return Failure(checked.error);
      }
      SetOperator(tokenId, operator);
      var ok := Emit(Approval(checked.value.owner, operator, tokenId), eventAccepted);
      r := if ok then Success(true) else Failure(EventRejected);
    }

    /** SetApprovalForAll, called by `sender`: overwrites the flag for
        (sender, operator), which IsApprovedForAll then reports, and emits an
        ApprovalForAll event. */
    method SetApprovalForAll(sender: string, operator: string, approved: bool, eventAccepted: bool)
      returns (r: Result<bool>)
      requires Valid()
      modifies this
      ensures Valid()
      ensures operatorApprovals == old(operatorApprovals)[(sender, operator) := approved]
      ensures IsApprovedForAll(sender, operator) == approved
      ensures slots == old(slots) && balances == old(balances) && offers == old(offers)
      ensures events == old(events) + (if eventAccepted then [ApprovalForAll(sender, operator, approved)] else [])
      ensures r == (if eventAccepted then Success(true) else Failure(EventRejected))
    {
      operatorApprovals := operatorApprovals[(sender, operator) := approved];
      var ok := Emit(ApprovalForAll(sender, operator, approved), eventAccepted);
      r := if ok then Success(true) else Failure(EventRejected);
    }

    // -------------------------------------------------------------------------
    // Issuance

    /** IssueSlot's pass over the patient's slots, listed by GetSlots: it
        stops at a slot on the wanted date, or panics at a nil slot, which it
        dereferences for its date. */
    method ScanHeldSlots(patient: string, wanted: Result<Date>) returns (scan: Scan)
      ensures PossibleScan(slots, balances, patient, wanted, scan)
    {
      var held;
      ghost var order;
      held, order := GetSlots(patient);
      var i := 0;
      while i < |held|
        invariant 0 <= i <= |held|
        invariant forall j | 0 <= j < i ::
          held[j].Some? && !(wanted.Success? && held[j].value.data.date == wanted.value)
      {
        if held[i].None? {
          ghost var t := order[i];
          assert (patient, t) in balances && (t !in slots || !Readable(slots[t]));
          return Crash;
        }
        if wanted.Success? && held[i].value.data.date == wanted.value {
          ghost var t := order[i];
          assert (patient, t) in balances && t in slots && held[i] == Some(slots[t]);
          return Match;
        }
        i := i + 1;
      }
      forall t | (patient, t) in balances
        ensures t in slots && Readable(slots[t]) && !(wanted.Success? && slots[t].data.date == wanted.value)
      {
        var j :| 0 <= j < |order| && order[j] == t;
        assert held[j].Some?;
      }
      return Clear;
    }

    /** The checks IssueSlot makes before its first write, in the order of
        IssueRejection, with the decoded date argument and, for an issuer,
        how the pass over the patient's slots ended. */
    method CheckIssue(mspId: string, date: string, patient: string, newId: string)
      returns (rejection: Option<Error>, wanted: Result<Date>, scan: Scan)
      ensures wanted == DecodeDateArgument(date)
      ensures mspId == doctorMspId ==> PossibleScan(slots, balances, patient, wanted, scan)
      ensures rejection == IssueRejection(doctorMspId, slots, mspId, newId, wanted, scan)
      ensures rejection.None? ==> wanted.Success? && newId !in slots
    {
      wanted := DecodeDateArgument(date);
      scan := Clear;
      if mspId != doctorMspId {
        return Some(Unauthorized), wanted, scan;
      }
      scan := ScanHeldSlots(patient, wanted);
      if scan == Crash {
        return Some(Aborted), wanted, scan;
      }
      if scan == Match {
        return Some(SlotOccupied), wanted, scan;
      }
      if SlotExists(newId) {
        return Some(IdCollision), wanted, scan;
      }
      if wanted.Failure? {
        return Some(CodecError), wanted, scan;
      }
      return None, wanted, scan;
    }

    /** IssueSlot's writes: the new slot under its own id and its one
        balance entry. */
    method Mint(slot: VaccinationSlot)
      requires Valid() && slot.tokenId !in slots
      modifies this
      ensures Valid()
      ensures slots == old(slots)[slot.tokenId := slot]
      ensures balances == old(balances) + {(slot.owner, slot.tokenId)}
      ensures DataPreserved(old(slots), slots)
      ensures operatorApprovals == old(operatorApprovals) && offers == old(offers) && events == old(events)
    {
      IssueKeepsMirror(slots, balances, slot);
      slots := slots[slot.tokenId := slot];
      balances := balances + {(slot.owner, slot.tokenId)};
    }

    /** IssueSlot, called by a member of MSP `mspId`; `newId` is the id the
        generator produced and `scan` how the pass over the patient's slots
        ended. A failed check of CheckIssue, a panic included, changes
        nothing. Otherwise the slot (given type, unchecked; decoded date; no
        previous dose; owner `patient`; no approved operator) and its balance
        entry are written and a Transfer event from "" is emitted. As written,
        success returns the empty string, not the new id. */
    method IssueSlot(mspId: string, vaccine: string, date: string, patient: string, newId: string,
                     eventAccepted: bool)
      returns (r: Result<string>, ghost scan: Scan)
      requires Valid()
      modifies this
      ensures Valid()
      ensures DataPreserved(old(slots), slots)
      ensures operatorApprovals == old(operatorApprovals) && offers == old(offers)
      ensures mspId == doctorMspId ==> PossibleScan(old(slots), old(balances), patient, DecodeDateArgument(date), scan)
      ensures var rejection := IssueRejection(doctorMspId, old(slots), mspId, newId, DecodeDateArgument(date), scan);
        rejection.Some? ==>
          r == Failure(rejection.value) &&
          slots == old(slots) && balances == old(balances) && events == old(events)
      ensures var rejection := IssueRejection(doctorMspId, old(slots), mspId, newId, DecodeDateArgument(date), scan);
        rejection.None? ==>
          && DecodeDateArgument(date).Success?
          && slots == old(slots)[newId := VaccinationSlot(
               VaccinationSlotData(vaccine, DecodeDateArgument(date).value, ""), newId, patient, "")]
          && balances == old(balances) + {(patient, newId)}
          && events == old(events) + (if eventAccepted then [Transfer("", patient, newId)] else [])
          && r == (if eventAccepted then Success("") else Failure(EventRejected))
    {
      var rejection, wanted, scanned := CheckIssue(mspId, date, patient, newId);
      scan := scanned;
      if rejection.Some? {
        return Failure(rejection.value), scan;
      }
      var vs := VaccinationSlot(VaccinationSlotData(vaccine, wanted.value, ""), newId, patient, "");
      Mint(vs);
      var ok := Emit(Transfer("", patient, newId), eventAccepted);
      r := if ok then Success("") else Failure(EventRejected);
    }
  }
}
