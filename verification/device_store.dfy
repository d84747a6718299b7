/**
 The in-memory device state: a two-level map device -> setting -> value, and
 the handler that folds each routed bus message into it (last write wins,
 nothing is ever deleted).
 */
module DeviceStore {
  import opened Wrappers
  import Topics

  newtype byte = b: int | 0 <= b < 256

  /** One device's settings, setting name -> last observed value. */
  type Settings = map<string, string>

  /** The whole snapshot, device id -> settings. */
  type Store = map<string, Settings>

  /** A message body as the bus client delivers it: already text, or raw bytes. */
  datatype Payload = Text(text: string) | Raw(bytes: seq<byte>)

  /** One routed message: the route's two captures and the payload. */
  datatype Delivery = Delivery(deviceId: string, setting: string, payload: Payload)

  /** The store the process starts with. */
  const Empty: Store := map[]

  /** The payload as text; raw bytes go through the caller's `decode`. */
  function Decode(payload: Payload, decode: seq<byte> -> string): string {
    match payload
    case Text(t) => t
    case Raw(b) => decode(b)
  }

  /** The value stored for a device and setting, if any. */
  function Lookup(store: Store, deviceId: string, setting: string): Option<string> {
    if deviceId in store && setting in store[deviceId] then Some(store[deviceId][setting])
    else None
  }

  /** Every device in the store has at least one setting. */
  ghost predicate NoEmptyDevice(store: Store) {
    forall d :: d in store ==> store[d] != map[]
  }

  /** Every device id and setting name is a single topic level. */
  ghost predicate LevelKeys(store: Store) {
    forall d :: d in store ==> Topics.IsLevel(d) && forall s :: s in store[d] ==> Topics.IsLevel(s)
  }

  /** `after` keeps every device and every setting of `before`. */
  ghost predicate Grows(before: Store, after: Store) {
    && before.Keys <= after.Keys
    && forall d :: d in before ==> before[d].Keys <= after[d].Keys
  }

  /** The settings fold: create the device's settings on first sight, then
      overwrite the one setting with the new value. Every other device and
      setting keeps what it held. */
  function Fold(store: Store, deviceId: string, setting: string, message: string): (r: Store)
    ensures Lookup(r, deviceId, setting) == Some(message)
    ensures forall d, s :: d != deviceId || s != setting ==> Lookup(r, d, s) == Lookup(store, d, s)
    ensures r.Keys == store.Keys + {deviceId}
  {
    var device := if deviceId in store then store[deviceId] else map[];
    store[deviceId := device[setting := message]]
  }

  /** The fold never deletes: devices and settings only accumulate, and since
      a device is created together with its first setting, no device is ever
      left without settings. */
  lemma FoldGrows(store: Store, deviceId: string, setting: string, message: string)
    ensures Grows(store, Fold(store, deviceId, setting, message))
    ensures NoEmptyDevice(store) ==> NoEmptyDevice(Fold(store, deviceId, setting, message))
  {
  }

  /** A device seen for the first time gets a fresh settings map holding
      only the one setting. */
  lemma FoldNewDevice(store: Store, deviceId: string, setting: string, message: string)
    requires deviceId !in store
    ensures Fold(store, deviceId, setting, message)[deviceId] == map[setting := message]
  {
  }

  /** The handler for one routed message: decode, then fold. */
  function Deliver(store: Store, delivery: Delivery, decode: seq<byte> -> string): (r: Store)
    ensures Lookup(r, delivery.deviceId, delivery.setting) == Some(Decode(delivery.payload, decode))
    ensures r.Keys == store.Keys + {delivery.deviceId}
  {
    Fold(store, delivery.deviceId, delivery.setting, Decode(delivery.payload, decode))
  }

  /** Folding a second value for the same device and setting leaves the
      store as if only the second had arrived. */
  lemma FoldLastWriteWins(store: Store, deviceId: string, setting: string, first: string, second: string)
    ensures Fold(Fold(store, deviceId, setting, first), deviceId, setting, second)
         == Fold(store, deviceId, setting, second)
  {
    var device := if deviceId in store then store[deviceId] else map[];
    assert device[setting := first][setting := second] == device[setting := second];
  }

  /** Folds for different (device, setting) pairs commute: arrival order
      only matters for the same pair. */
  lemma FoldCommutes(store: Store, d1: string, s1: string, v1: string, d2: string, s2: string, v2: string)
    requires d1 != d2 || s1 != s2
    ensures Fold(Fold(store, d1, s1, v1), d2, s2, v2) == Fold(Fold(store, d2, s2, v2), d1, s1, v1)
  {
    var a := Fold(Fold(store, d1, s1, v1), d2, s2, v2);
    var b := Fold(Fold(store, d2, s2, v2), d1, s1, v1);
    forall d, s
      ensures Lookup(a, d, s) == Lookup(b, d, s)
    {
    }
    SameLookups(a, b);
  }

  /** Two stores with the same devices that agree on every lookup are equal. */
  lemma SameLookups(a: Store, b: Store)
    requires a.Keys == b.Keys
    requires forall d, s :: Lookup(a, d, s) == Lookup(b, d, s)
    ensures a == b
  {
    forall d | d in a
      ensures a[d] == b[d]
    {
      forall s | s in a[d]
        ensures s in b[d] && a[d][s] == b[d][s]
      {
        assert Lookup(a, d, s) == Lookup(b, d, s);
      }
      forall s | s in b[d]
        ensures s in a[d]
      {
        assert Lookup(a, d, s) == Lookup(b, d, s);
      }
    }
  }

  /** The snapshot window: the messages delivered, in order, folded one by
      one. Every device already known stays, and every device that sent a
      message during the window is present afterwards. */
  function FoldAll(store: Store, deliveries: seq<Delivery>, decode: seq<byte> -> string): (r: Store)
    ensures store.Keys <= r.Keys
    ensures forall i :: 0 <= i < |deliveries| ==> deliveries[i].deviceId in r
    decreases |deliveries|
  {
    if |deliveries| == 0 then store
    else
      var r := FoldAll(Deliver(store, deliveries[0], decode), deliveries[1..], decode);
      assert forall i :: 1 <= i < |deliveries| ==> deliveries[i] == deliveries[1..][i - 1];
      r
  }

  /** Reference definition: the value of the last delivery for a device and
      setting, searching from the end. */
  function LastWrite(deliveries: seq<Delivery>, deviceId: string, setting: string,
                     decode: seq<byte> -> string): (r: Option<string>)
    ensures r.Some? <==> exists i :: 0 <= i < |deliveries|
                           && deliveries[i].deviceId == deviceId && deliveries[i].setting == setting
    decreases |deliveries|
  {
    if |deliveries| == 0 then None
    else
      var last := deliveries[|deliveries| - 1];
      if last.deviceId == deviceId && last.setting == setting then Some(Decode(last.payload, decode))
      else LastWrite(deliveries[..|deliveries| - 1], deviceId, setting, decode)
  }

  /** The device ids carried by a sequence of deliveries. */
  function DevicesOf(deliveries: seq<Delivery>): set<string> {
    set i | 0 <= i < |deliveries| :: deliveries[i].deviceId
  }

  /** The window fold ends with one more delivery folded onto the rest. */
  lemma {:induction false} FoldAllSnoc(store: Store, deliveries: seq<Delivery>, last: Delivery,
                                       decode: seq<byte> -> string)
    ensures FoldAll(store, deliveries + [last], decode)
         == Deliver(FoldAll(store, deliveries, decode), last, decode)
    decreases |deliveries|
  {
    if |deliveries| == 0 {
      assert deliveries + [last] == [last];
    } else {
      assert (deliveries + [last])[1..] == deliveries[1..] + [last];
      FoldAllSnoc(Deliver(store, deliveries[0], decode), deliveries[1..], last, decode);
    }
  }

  /** After a window, each (device, setting) holds the value of its last
      delivery, or what it held before when nothing was delivered for it. */
  lemma {:induction false} FoldAllLastWriteWins(store: Store, deliveries: seq<Delivery>,
                                                decode: seq<byte> -> string, deviceId: string, setting: string)
    ensures Lookup(FoldAll(store, deliveries, decode), deviceId, setting)
         == (if LastWrite(deliveries, deviceId, setting, decode).Some?
             then LastWrite(deliveries, deviceId, setting, decode)
             else Lookup(store, deviceId, setting))
    decreases |deliveries|
  {
    if |deliveries| > 0 {
      var n := |deliveries| - 1;
      var prefix := deliveries[..n];
      assert deliveries == prefix + [deliveries[n]];
      FoldAllSnoc(store, prefix, deliveries[n], decode);
      FoldAllLastWriteWins(store, prefix, decode, deviceId, setting);
    }
  }

  /** A window only adds: every device and setting present before is still
      present, and every device starts with at least one setting. */
  lemma {:induction false} FoldAllGrows(store: Store, deliveries: seq<Delivery>, decode: seq<byte> -> string)
    ensures Grows(store, FoldAll(store, deliveries, decode))
    ensures NoEmptyDevice(store) ==> NoEmptyDevice(FoldAll(store, deliveries, decode))
    ensures FoldAll(store, deliveries, decode).Keys == store.Keys + DevicesOf(deliveries)
    decreases |deliveries|
  {
    if |deliveries| > 0 {
      var next := Deliver(store, deliveries[0], decode);
      FoldGrows(store, deliveries[0].deviceId, deliveries[0].setting, Decode(deliveries[0].payload, decode));
      FoldAllGrows(next, deliveries[1..], decode);
      var r := FoldAll(store, deliveries, decode);
      forall d | d in store
        ensures store[d].Keys <= r[d].Keys
      {
        assert next[d].Keys <= r[d].Keys;
      }
      assert DevicesOf(deliveries) == {deliveries[0].deviceId} + DevicesOf(deliveries[1..]) by {
        forall d | d in DevicesOf(deliveries)
          ensures d in {deliveries[0].deviceId} + DevicesOf(deliveries[1..])
        {
          var i :| 0 <= i < |deliveries| && deliveries[i].deviceId == d;
          if i > 0 {
            assert deliveries[1..][i - 1] == deliveries[i];
          }
        }
        forall d | d in DevicesOf(deliveries[1..])
          ensures d in DevicesOf(deliveries)
        {
          var i :| 0 <= i < |deliveries[1..]| && deliveries[1..][i].deviceId == d;
          assert deliveries[i + 1] == deliveries[1..][i];
        }
      }
    }
  }

  /** Deliveries that came through the device-settings route keep every key
      a single topic level. */
  lemma {:induction false} FoldAllLevelKeys(store: Store, deliveries: seq<Delivery>, decode: seq<byte> -> string)
    requires LevelKeys(store)
    requires forall i :: 0 <= i < |deliveries| ==>
               Topics.IsLevel(deliveries[i].deviceId) && Topics.IsLevel(deliveries[i].setting)
    ensures LevelKeys(FoldAll(store, deliveries, decode))
    decreases |deliveries|
  {
    if |deliveries| > 0 {
      var next := Deliver(store, deliveries[0], decode);
      assert LevelKeys(next);
      forall i | 0 <= i < |deliveries[1..]|
        ensures Topics.IsLevel(deliveries[1..][i].deviceId) && Topics.IsLevel(deliveries[1..][i].setting)
      {
        assert deliveries[1..][i] == deliveries[i + 1];
      }
      FoldAllLevelKeys(next, deliveries[1..], decode);
    }
  }
}
