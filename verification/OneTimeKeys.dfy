/** One-time keys from the device that makes them to the relay that gives them
    away. */
module OneTimeKeys {
  import opened Protocol
  import Device = PreKeyStore
  import Relay = RelayStore

  function Uploaded(l: Device.Life, kind: Relay.Kind): seq<PreKey> {
    if kind == Relay.Classical then l.past.uploaded else l.pastKem.uploaded
  }

  /** When a device uploads each batch of one-time keys it made once and in order,
      the relay never gives the same key to two peers, and the device can answer
      for each key given: it still holds the secret or has consumed it. */
  lemma EachKeyGivenOnce(pair: Device.KeyPair, kemPair: Device.KeyPair, pairs: seq<Device.KeyPair>,
                         kemPairs: seq<Device.KeyPair>, ops: seq<Device.Op>,
                         relayOps: seq<Relay.AccountOp>, address: string, kind: Relay.Kind)
    requires var l := Device.Lifetime(Device.Born(pair, kemPair, pairs, kemPairs), ops);
      Relay.OfferedTo(relayOps, address, kind) <= Uploaded(l, kind)
    ensures var l := Device.Lifetime(Device.Born(pair, kemPair, pairs, kemPairs), ops);
      var given := Relay.GivenTo(relayOps, address, kind);
      var (past, pool) :=
        if kind == Relay.Classical then (l.past, l.store.oneTime) else (l.pastKem, l.store.oneTimeKem);
      && DistinctIds(given)
      && forall i :: 0 <= i < |given| ==> given[i].id in past.consumed || Device.Holds(pool.secrets, given[i])
  {
    hide Relay.OfferedTo, Relay.GivenTo, Device.Holds, Device.Lifetime, Device.Born;
    Device.UploadsBacked(pair, kemPair, pairs, kemPairs, ops);
    var l := Device.Lifetime(Device.Born(pair, kemPair, pairs, kemPairs), ops);
    PrefixDistinct(Relay.OfferedTo(relayOps, address, kind), Uploaded(l, kind));
    Relay.RelayGivesEachKeyOnce(relayOps, address, kind);
  }

  lemma PrefixDistinct(some: seq<PreKey>, all: seq<PreKey>)
    requires some <= all && DistinctIds(all)
    ensures DistinctIds(some)
    ensures forall key :: key in some ==> key in all
  {
  }
}
