/** What device and relay exchange about one-time prekeys. */
module Protocol {
  import opened Wire

  /** The public half of a prekey under its id. Signatures are not modelled. */
  datatype PreKey = PreKey(id: nat, publicKey: Bytes)

  predicate DistinctIds(keys: seq<PreKey>) {
    forall i, j :: 0 <= i < j < |keys| ==> keys[i].id != keys[j].id
  }
}
