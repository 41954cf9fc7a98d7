/** The ledger's state as values: the slot table keyed by token id, the
    balance index of (owner, tokenId) entries, operator-wide approvals and
    the triple-keyed offer store; with the invariants that tie them together
    and the lemmas that each write keeps them. */
module Indexes {
  import opened Records

  type SlotTable = map<string, VaccinationSlot>

  /** Entries (owner, tokenId) of the balance index. */
  type BalanceIndex = set<(string, string)>

  /** Operator-wide approvals, keyed by (owner, operator). */
  type ApprovalTable = map<(string, string), bool>

  // ---------------------------------------------------------------------------
  // Slots and the balance index

  /** Every record is stored under the key made from its own token id. */
  predicate KeyedByTokenId(slots: SlotTable) {
    forall t | t in slots :: slots[t].tokenId == t
  }

  /** The balance index mirrors the owner field of every slot: an entry
      (owner, t) exists exactly when slot t exists and is owned by owner. */
  predicate BalanceMirrors(slots: SlotTable, balances: BalanceIndex) {
    && (forall e | e in balances :: e.1 in slots && slots[e.1].owner == e.0)
    && (forall t | t in slots :: (slots[t].owner, t) in balances)
  }

  /** The entries a partial-key scan of the balance index under `owner` visits. */
  function EntriesOf(balances: BalanceIndex, owner: string): set<(string, string)> {
    set e | e in balances && e.0 == owner
  }

  /** The token ids those entries name. */
  function HeldTokens(balances: BalanceIndex, owner: string): set<string> {
    set e | e in balances && e.0 == owner :: e.1
  }

  /** The tokens whose slot record names `owner`. */
  function OwnedSlots(slots: SlotTable, owner: string): set<string> {
    set t | t in slots && slots[t].owner == owner
  }

  /** Pairing every token with one owner neither merges nor loses tokens. */
  lemma {:induction false} PairingKeepsSize(owner: string, ts: set<string>)
    ensures |set t | t in ts :: (owner, t)| == |ts|
  {
    if ts != {} {
      var t :| t in ts;
      var rest := ts - {t};
      PairingKeepsSize(owner, rest);
      assert (set u | u in ts :: (owner, u)) == (set u | u in rest :: (owner, u)) + {(owner, t)};
    }
  }

  /** Under the mirror invariant the index lists exactly the tokens an owner
      holds, so counting its entries counts the owner's slots. */
  lemma BalanceCountsOwnedSlots(slots: SlotTable, balances: BalanceIndex, owner: string)
    requires BalanceMirrors(slots, balances)
    ensures HeldTokens(balances, owner) == OwnedSlots(slots, owner)
    ensures |EntriesOf(balances, owner)| == |OwnedSlots(slots, owner)|
  {
    var owned := OwnedSlots(slots, owner);
    assert EntriesOf(balances, owner) == set t | t in owned :: (owner, t);
    PairingKeepsSize(owner, owned);
  }

  /** A transfer's writes: the record gets the new owner and no approved
      operator; the index loses (from, t), then gains (to, t). */
  lemma TransferKeepsMirror(slots: SlotTable, balances: BalanceIndex, t: string, from: string, to: string)
    requires KeyedByTokenId(slots) && BalanceMirrors(slots, balances)
    requires t in slots && slots[t].owner == from
    ensures var moved := slots[t := slots[t].(owner := to, approved := "")];
      KeyedByTokenId(moved) && BalanceMirrors(moved, balances - {(from, t)} + {(to, t)})
  {
    var moved := slots[t := slots[t].(owner := to, approved := "")];
    var after := balances - {(from, t)} + {(to, t)};
    forall e | e in after ensures e.1 in moved && moved[e.1].owner == e.0 {
      if e.1 == t {
        assert e == (to, t);
      }
    }
  }

  /** An issuance's writes: a new record under a fresh id and its one entry. */
  lemma IssueKeepsMirror(slots: SlotTable, balances: BalanceIndex, slot: VaccinationSlot)
    requires KeyedByTokenId(slots) && BalanceMirrors(slots, balances)
    requires slot.tokenId !in slots
    ensures KeyedByTokenId(slots[slot.tokenId := slot])
    ensures BalanceMirrors(slots[slot.tokenId := slot], balances + {(slot.owner, slot.tokenId)})
  {
  }

  /** The parts of a slot no operation of this contract rewrites once the
      slot exists: its token id and its data (type, date, previous). */
  predicate DataPreserved(before: SlotTable, after: SlotTable) {
    forall t | t in before :: t in after && after[t].data == before[t].data && after[t].tokenId == t
  }

  // ---------------------------------------------------------------------------
  // The offer store

  /** The three composite keys an offer lives under: (sender, uuid),
      (recipient, uuid) and (uuid). A partial-key scan matches on the first
      attribute. */
  datatype OfferKey = ByParty(party: string, uuid: string) | ById(uuid: string) {
    function FirstAttribute(): string {
      match this
      case ByParty(p, _) => p
      case ById(u) => u
    }
  }

  type OfferStore = map<OfferKey, TradeOffer>

  function SenderKey(o: TradeOffer): OfferKey { ByParty(o.sender, o.uuid) }
  function RecipientKey(o: TradeOffer): OfferKey { ByParty(o.recipient, o.uuid) }
  function IdKey(o: TradeOffer): OfferKey { ById(o.uuid) }

  function KeysOf(o: TradeOffer): set<OfferKey> {
    {SenderKey(o), RecipientKey(o), IdKey(o)}
  }

  /** The three writes of putOffer: the identical offer under all three keys,
      every other key untouched. */
  function WithOffer(m: OfferStore, o: TradeOffer): (r: OfferStore)
    ensures r.Keys == m.Keys + KeysOf(o)
    ensures forall k | k in KeysOf(o) :: r[k] == o
    ensures forall k | k in m && k !in KeysOf(o) :: r[k] == m[k]
  {
    m[SenderKey(o) := o][RecipientKey(o) := o][IdKey(o) := o]
  }

  /** The three deletes of delOffer: exactly the offer's three keys go. */
  function WithoutOffer(m: OfferStore, o: TradeOffer): (r: OfferStore)
    ensures r.Keys == m.Keys - KeysOf(o)
    ensures forall k | k in r :: r[k] == m[k]
  {
    m - {SenderKey(o)} - {RecipientKey(o)} - {IdKey(o)}
  }

  /** Three-way consistency: every stored copy sits under one of its own
      offer's keys, and all three copies of that offer are present and equal. */
  predicate OffersConsistent(m: OfferStore) {
    forall k | k in m ::
      var o := m[k];
      && k in KeysOf(o)
      && SenderKey(o) in m && m[SenderKey(o)] == o
      && RecipientKey(o) in m && m[RecipientKey(o)] == o
      && IdKey(o) in m && m[IdKey(o)] == o
  }

  /** Storing an offer under a uuid not yet used keeps the store consistent. */
  lemma PutOfferKeepsConsistency(m: OfferStore, o: TradeOffer)
    requires OffersConsistent(m)
    requires IdKey(o) !in m
    ensures OffersConsistent(WithOffer(m, o))
  {
    var r := WithOffer(m, o);
    forall k | k in m ensures m[k].uuid != o.uuid {
      assert IdKey(m[k]) in m;
    }
    forall k | k in r
      ensures var p := r[k];
        && k in KeysOf(p)
        && SenderKey(p) in r && r[SenderKey(p)] == p
        && RecipientKey(p) in r && r[RecipientKey(p)] == p
        && IdKey(p) in r && r[IdKey(p)] == p
    {
      if k !in KeysOf(o) {
        var p := m[k];
        assert p.uuid != o.uuid;
        assert KeysOf(p) !! KeysOf(o);
      }
    }
  }

  /** Deleting the offer stored under its own id keeps the store consistent. */
  lemma DelOfferKeepsConsistency(m: OfferStore, o: TradeOffer)
    requires OffersConsistent(m)
    requires IdKey(o) in m && m[IdKey(o)] == o
    ensures OffersConsistent(WithoutOffer(m, o))
  {
    var r := WithoutOffer(m, o);
    forall k | k in r ensures KeysOf(m[k]) !! KeysOf(o) {
      assert IdKey(m[k]) in m && m[IdKey(m[k])] == m[k];
    }
  }

  /** putOffer followed by delOffer on keys that were absent leaves the
      store as it was. */
  lemma PutThenDelRestores(m: OfferStore, o: TradeOffer)
    requires KeysOf(o) !! m.Keys
    ensures WithoutOffer(WithOffer(m, o), o) == m
  {
    var r := WithoutOffer(WithOffer(m, o), o);
    assert r.Keys == m.Keys;
  }

  /** The keys a partial-key scan of the offer store under `id` visits. */
  function PrefixKeys(m: OfferStore, id: string): set<OfferKey> {
    set k | k in m && k.FirstAttribute() == id
  }

  /** In a consistent store, a scan under `id` reaches every offer in which
      `id` is the sender or the recipient ... */
  lemma PrefixScanFindsParties(m: OfferStore, id: string, k: OfferKey)
    requires OffersConsistent(m)
    requires k in m && (m[k].sender == id || m[k].recipient == id)
    ensures exists k' | k' in PrefixKeys(m, id) :: m[k'] == m[k]
  {
    var o := m[k];
    if o.sender == id {
      assert SenderKey(o) in PrefixKeys(m, id);
    } else {
      assert RecipientKey(o) in PrefixKeys(m, id);
    }
  }

  /** ... and only offers in which `id` is a party or is the offer's own uuid
      (the id key of an offer whose uuid equals `id` shares the prefix). */
  lemma PrefixScanOnlyParties(m: OfferStore, id: string, k: OfferKey)
    requires OffersConsistent(m)
    requires k in PrefixKeys(m, id)
    ensures m[k].sender == id || m[k].recipient == id || m[k].uuid == id
  {
    assert k in KeysOf(m[k]);
  }
}
