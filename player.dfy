/** The server-side player record of src/server/lib/Player.ts: a socket, a
    free-form `customData` record and the `uniqId` stamped by `withUniqId`,
    with `serialize` producing the record sent to clients. */
module Player {
  import opened Wrappers
  import opened JsValues
  import opened UniqId

  /** `socket` is the identity of the player's socket. */
  datatype Player = Player(socket: nat, customData: map<string, Value>, uniqId: string)

  /** The decorated constructor: `customData` defaults to `{}` when it is not
      passed, and `uniqId` is the identifier the decorator assigns. */
  function NewPlayer(socket: nat, customData: Option<map<string, Value>>, uniqId: string): (p: Player)
    ensures p.socket == socket && p.uniqId == uniqId
    ensures customData.None? ==> p.customData == map[]
    ensures customData.Some? ==> p.customData == customData.value
  {
    Player(socket, customData.GetOr(map[]), uniqId)
  }

  /** `serialize()`: the custom data with the player's `uniqId` written over it. */
  function Serialize(p: Player): (r: map<string, Value>)
    ensures "uniqId" in r && r["uniqId"] == Str(p.uniqId)
    ensures r.Keys == p.customData.Keys + {"uniqId"}
    ensures forall k :: k in p.customData && k != "uniqId" ==> r[k] == p.customData[k]
  {
    p.customData["uniqId" := Str(p.uniqId)]
  }

  /** A `uniqId` entry in the custom data never leaks into the record. */
  lemma SerializeForcesUniqId(p: Player, v: Value)
    requires "uniqId" in p.customData && p.customData["uniqId"] == v && v != Str(p.uniqId)
    ensures Serialize(p)["uniqId"] != v
  {
  }

  /** Serializing again from a serialized record gives the same record. */
  lemma SerializeIdempotent(p: Player)
    ensures Serialize(p.(customData := Serialize(p))) == Serialize(p)
  {
    var r := Serialize(p);
    var q := Serialize(p.(customData := r));
    assert q.Keys == r.Keys;
    forall k | k in r
      ensures q[k] == r[k]
    {
    }
  }

  /** Players with different identifiers serialize differently. */
  lemma SerializeSeparatesPlayers(p: Player, q: Player)
    requires p.uniqId != q.uniqId
    ensures Serialize(p) != Serialize(q)
  {
    assert Serialize(p)["uniqId"] != Serialize(q)["uniqId"];
  }

  /** Players constructed one after another, with the identifiers the clock
      gives them, have pairwise distinct `uniqId`s and serialize differently. */
  lemma ConstructedPlayersDistinct(last: nat, clock: seq<nat>, sockets: seq<nat>, data: seq<Option<map<string, Value>>>)
    requires |sockets| == |clock| && |data| == |clock|
    ensures forall i, j :: 0 <= i < j < |clock| ==>
      Serialize(NewPlayer(sockets[i], data[i], UniqIds(last, clock)[i])) !=
      Serialize(NewPlayer(sockets[j], data[j], UniqIds(last, clock)[j]))
  {
    UniqIdsDistinct(last, clock);
    forall i, j | 0 <= i < j < |clock|
      ensures Serialize(NewPlayer(sockets[i], data[i], UniqIds(last, clock)[i])) !=
              Serialize(NewPlayer(sockets[j], data[j], UniqIds(last, clock)[j]))
    {
      SerializeSeparatesPlayers(NewPlayer(sockets[i], data[i], UniqIds(last, clock)[i]),
                                NewPlayer(sockets[j], data[j], UniqIds(last, clock)[j]));
    }
  }
}
