/** Balance keys as BalanceOf and TransferFrom build them: the owner's
    identity, as UTF-8 bytes, in standard padded base64
    (chaincode/vaccination_slot_contract_erc721.go). IssueSlot, GetSlots and
    putBalance key the same index by the identity itself, so the two halves
    of the contract disagree about where an owner's entries live. */
module OwnerKeys {
  import opened Records
  import opened Indexes

  type Byte = b: int | 0 <= b < 256

  /** The standard base64 alphabet. */
  const Alphabet: string := "ABCDEFGHIJKLMNOPQRSTUVWXYZabcdefghijklmnopqrstuvwxyz0123456789+/"

  /** The UTF-8 encoding of one Unicode scalar value (Go's []byte(s)). */
  function Utf8(c: char): (r: seq<Byte>)
    ensures 1 <= |r| <= 4
    ensures (c as int) < 0x80 <==> r == [c as int]
  {
    var n := c as int;
    if n < 0x80 then [n]
    else if n < 0x800 then [0xC0 + n / 64, 0x80 + n % 64]
    else if n < 0x10000 then [0xE0 + n / 4096, 0x80 + (n / 64) % 64, 0x80 + n % 64]
    else [0xF0 + n / 262144 % 8, 0x80 + (n / 4096) % 64, 0x80 + (n / 64) % 64, 0x80 + n % 64]
  }

  /** The UTF-8 encoding of a string: at least one byte per character. */
  function Utf8String(s: string): (r: seq<Byte>)
    ensures |s| <= |r| <= 4 * |s|
  {
    if s == [] then [] else Utf8(s[0]) + Utf8String(s[1..])
  }

  /** The alphabet character for a six-bit value. */
  function Sextet(k: int): char
    requires 0 <= k < 64
  {
    Alphabet[k]
  }

  /** Four characters for the 24 bits of three bytes, six bits each. */
  function EncodeGroup(b0: Byte, b1: Byte, b2: Byte): (r: string)
    ensures |r| == 4
  {
    [Sextet(b0 / 4), Sextet(b0 % 4 * 16 + b1 / 16), Sextet(b1 % 16 * 4 + b2 / 64), Sextet(b2 % 64)]
  }

  /** The last one or two bytes: their bits, zero-filled, then '=' padding to four characters. */
  function EncodeFinal(rest: seq<Byte>): (r: string)
    requires 1 <= |rest| <= 2
    ensures |r| == 4 && r[3] == '='
  {
    if |rest| == 1 then [Sextet(rest[0] / 4), Sextet(rest[0] % 4 * 16), '=', '=']
    else [Sextet(rest[0] / 4), Sextet(rest[0] % 4 * 16 + rest[1] / 16), Sextet(rest[1] % 16 * 4), '=']
  }

  /** The number of started groups of three among `n` bytes. */
  function GroupCount(n: nat): (g: nat)
    ensures n <= 3 * g < n + 3
  {
    if n == 0 then 0 else if n <= 3 then 1 else 1 + GroupCount(n - 3)
  }

  /** base64.StdEncoding.EncodeToString: each group of three bytes becomes
      four characters; a final group of one or two bytes is padded with '='. */
  function Base64Encode(data: seq<Byte>): (r: string)
    ensures |r| == 4 * GroupCount(|data|)
  {
    if |data| == 0 then ""
    else if |data| <= 2 then EncodeFinal(data)
    else
      var head := EncodeGroup(data[0], data[1], data[2]);
      var tail := Base64Encode(data[3..]);
      assert GroupCount(|data|) == 1 + GroupCount(|data| - 3);
      assert |head + tail| == 4 + |tail|;
      head + tail
  }

  /** The key under which BalanceOf scans and TransferFrom writes. */
  function EncodedOwner(owner: string): string {
    Base64Encode(Utf8String(owner))
  }

  /** Encoding never leaves an identity unchanged, so the raw key that
      IssueSlot writes and the encoded key that BalanceOf reads always differ. */
  lemma EncodedOwnerDiffers(owner: string)
    requires owner != ""
    ensures EncodedOwner(owner) != owner
  {
    var m := |Utf8String(owner)|;
    assert |EncodedOwner(owner)| == 4 * GroupCount(m) > m;
  }

  /** BalanceOf as written: the entries under the encoded owner. It is
      non-zero only when some entry is keyed by the encoded identity, so
      entries under the raw identity are never counted. */
  function BalanceOfAsWritten(balances: BalanceIndex, owner: string): (n: nat)
    ensures n > 0 <==> exists t :: (EncodedOwner(owner), t) in balances
  {
    var entries := EntriesOf(balances, EncodedOwner(owner));
    assert (exists t :: (EncodedOwner(owner), t) in balances) ==> entries != {} by {
      if exists t :: (EncodedOwner(owner), t) in balances {
        var t :| (EncodedOwner(owner), t) in balances;
        assert (EncodedOwner(owner), t) in entries;
      }
    }
    |entries|
  }

  /** TransferFrom's index update as written: delete the entry under the
      encoded sender, add one under the encoded recipient. */
  function TransferEntriesAsWritten(balances: BalanceIndex, from: string, to: string, tokenId: string): (r: BalanceIndex)
    ensures (EncodedOwner(to), tokenId) in r
    ensures (EncodedOwner(from), tokenId) !in r || EncodedOwner(from) == EncodedOwner(to)
    ensures forall e | e in balances && e != (EncodedOwner(from), tokenId) :: e in r
  {
    balances - {(EncodedOwner(from), tokenId)} + {(EncodedOwner(to), tokenId)}
  }

  /** On a fresh ledger, IssueSlot to `patient` stores the slot and a raw
      balance entry. BalanceOf as written then reports 0 although the patient
      owns one slot; after an as-written transfer to `to` the patient's raw
      entry survives, so the mirror invariant breaks and GetSlots(patient)
      still lists the token the patient no longer owns. */
  lemma RawAndEncodedKeysDisagree(vs: VaccinationSlot, to: string)
    requires vs.owner != "" && to != vs.owner
    ensures var slots := map[vs.tokenId := vs];
      var balances := {(vs.owner, vs.tokenId)};
      && BalanceMirrors(slots, balances)
      && |OwnedSlots(slots, vs.owner)| == 1
      && BalanceOfAsWritten(balances, vs.owner) == 0
      && var after := TransferEntriesAsWritten(balances, vs.owner, to, vs.tokenId);
         && (vs.owner, vs.tokenId) in after
         && !BalanceMirrors(slots[vs.tokenId := vs.(owner := to, approved := "")], after)
  {
    var slots := map[vs.tokenId := vs];
    var balances := {(vs.owner, vs.tokenId)};
    EncodedOwnerDiffers(vs.owner);
    assert OwnedSlots(slots, vs.owner) == {vs.tokenId};
    assert EntriesOf(balances, EncodedOwner(vs.owner)) == {};
    var after := TransferEntriesAsWritten(balances, vs.owner, to, vs.tokenId);
    assert (vs.owner, vs.tokenId) in after;
    var moved := slots[vs.tokenId := vs.(owner := to, approved := "")];
    assert moved[vs.tokenId].owner != vs.owner;
  }
}
