/** Which of the phone's keys are kept: the filter that scd-shim (crates/scd-shim/src/main.rs)
    and the PKCS#11 module (crates/pkcs11-gpg/src/module.rs) apply to the identity list. */
module Identities {
  import opened Common
  import opened Encodings

  /** An identity as the phone lists it: the key in Base64, the label in UTF-8. */
  datatype Raw = Raw(keyType: string, publicKey: string, name: seq<Byte>)

  /** A kept identity: the index is the position in the phone's list. */
  datatype Kept = Kept(publicKey: seq<Byte>, name: seq<Byte>, index: nat)

  /** The key of an entry, when it is an Ed25519 key of 32 bytes. */
  function KeyOf(raw: Raw): Option<seq<Byte>> {
    if raw.keyType != "ed25519" then None
    else
      match Base64Decode(raw.publicKey)
      case Some(key) => if |key| == 32 then Some(key) else None
      case None => None
  }

  lemma KeysAre32Bytes(raw: Raw)
    ensures KeyOf(raw).Some? ==> |KeyOf(raw).value| == 32
  {
    hide Base64Decode;
  }

  /** The usable entries are the Ed25519 keys of 32 bytes written in Base64. */
  lemma UsableIff(raw: Raw, key: seq<Byte>)
    ensures KeyOf(raw) == Some(key) <==>
      raw.keyType == "ed25519" && |key| == 32 && raw.publicKey == Base64Encode(key)
  {
    hide Base64Decode, Base64Encode;
    Base64DecodeIff(raw.publicKey, key);
  }

  /** enumerate, then filter_map. */
  function Keep(raws: seq<Raw>): seq<Kept> {
    if raws == [] then []
    else
      var last := raws[|raws| - 1];
      var before := Keep(raws[..|raws| - 1]);
      match KeyOf(last)
      case Some(key) => before + [Kept(key, last.name, |raws| - 1)]
      case None => before
  }

  /** The identity is the entry at its index, with that entry's decoded key. */
  ghost predicate Matches(raws: seq<Raw>, k: Kept) {
    k.index < |raws| && KeyOf(raws[k.index]) == Some(k.publicKey) && raws[k.index].name == k.name
  }

  ghost predicate Lists(kept: seq<Kept>, p: nat) {
    exists i :: 0 <= i < |kept| && kept[i].index == p
  }

  lemma {:induction false} KeepMatches(raws: seq<Raw>)
    ensures forall i :: 0 <= i < |Keep(raws)| ==> Matches(raws, Keep(raws)[i])
    ensures forall i, j :: 0 <= i < j < |Keep(raws)| ==> Keep(raws)[i].index < Keep(raws)[j].index
  {
    hide KeyOf;
    if raws != [] {
      var init := raws[..|raws| - 1];
      KeepMatches(init);
      assert forall i :: 0 <= i < |Keep(init)| ==> Matches(init, Keep(init)[i]) && Keep(init)[i].index < |init|;
    }
  }

  lemma {:induction false} KeepLists(raws: seq<Raw>, p: nat)
    requires p < |raws| && KeyOf(raws[p]).Some?
    ensures Lists(Keep(raws), p)
  {
    hide KeyOf;
    var all, before := Keep(raws), Keep(raws[..|raws| - 1]);
    if p == |raws| - 1 {
      assert all[|all| - 1].index == p;
    } else {
      KeepLists(raws[..|raws| - 1], p);
      var i :| 0 <= i < |before| && before[i].index == p;
      assert all[i] == before[i];
    }
  }

  /** Every kept identity's index points at the raw entry whose decoded key it holds, the
      order is kept, and every entry with a usable key is there. */
  lemma IndicesSurviveFiltering(raws: seq<Raw>)
    ensures forall i :: 0 <= i < |Keep(raws)| ==> Matches(raws, Keep(raws)[i])
    ensures forall i, j :: 0 <= i < j < |Keep(raws)| ==> Keep(raws)[i].index < Keep(raws)[j].index
    ensures forall p :: 0 <= p < |raws| ==> (KeyOf(raws[p]).Some? <==> Lists(Keep(raws), p))
  {
    hide KeyOf, Keep;
    KeepMatches(raws);
    forall p | 0 <= p < |raws|
      ensures KeyOf(raws[p]).Some? <==> Lists(Keep(raws), p)
    {
      if KeyOf(raws[p]).Some? {
        KeepLists(raws, p);
      } else {
        assert forall i :: 0 <= i < |Keep(raws)| ==> Matches(raws, Keep(raws)[i]) && Keep(raws)[i].index != p;
      }
    }
  }
}
