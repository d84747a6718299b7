/**
 Topic strings of the message bus: levels separated by '/', the topic a
 `devices --set` command publishes to, and the four-level shape of the route
 the settings fold is registered on.
 */
module Topics {
  import opened Wrappers

  /** The level separator of bus topics. */
  const Sep: char := '/'

  /** The literal second level of every device-settings topic. */
  const DevicesLevel: string := "devices"

  /** A topic level is a string without a separator in it. */
  predicate IsLevel(s: string) {
    Sep !in s
  }

  /** The levels of a topic, with the semantics of Python's `str.split("/")`:
      empty levels are kept and the empty topic has one empty level. */
  function Split(topic: string): (levels: seq<string>)
    ensures |levels| >= 1
    ensures forall i :: 0 <= i < |levels| ==> IsLevel(levels[i])
  {
    if |topic| == 0 then [""]
    else
      var rest := Split(topic[1..]);
      if topic[0] == Sep then [""] + rest
      else [[topic[0]] + rest[0]] + rest[1..]
  }

  /** The topic whose levels are `levels`, joined by the separator. */
  function Join(levels: seq<string>): string
    requires |levels| >= 1
  {
    if |levels| == 1 then levels[0]
    else levels[0] + [Sep] + Join(levels[1..])
  }

  /** A single level splits to itself. */
  lemma {:induction false} SplitLevel(a: string)
    requires IsLevel(a)
    ensures Split(a) == [a]
  {
    if |a| > 0 {
      assert a[0] in a;
      SplitLevel(a[1..]);
      assert [a[0]] + a[1..] == a;
    }
  }

  /** Splitting stops at the first separator. */
  lemma {:induction false} SplitAfterLevel(a: string, b: string)
    requires IsLevel(a)
    ensures Split(a + [Sep] + b) == [a] + Split(b)
  {
    var t := a + [Sep] + b;
    if |a| == 0 {
      assert t == [Sep] + b;
      assert t[1..] == b;
    } else {
      assert t[1..] == a[1..] + [Sep] + b;
      SplitAfterLevel(a[1..], b);
      assert [t[0]] + a[1..] == a;
    }
  }

  /** Splitting undoes joining, for levels that hold no separator. */
  lemma {:induction false} SplitJoin(levels: seq<string>)
    requires |levels| >= 1
    requires forall i :: 0 <= i < |levels| ==> IsLevel(levels[i])
    ensures Split(Join(levels)) == levels
  {
    if |levels| == 1 {
      SplitLevel(levels[0]);
    } else {
      SplitJoin(levels[1..]);
      SplitAfterLevel(levels[0], Join(levels[1..]));
      assert [levels[0]] + levels[1..] == levels;
    }
  }

  /** Joining undoes splitting, for every topic. */
  lemma {:induction false} JoinSplit(topic: string)
    ensures Join(Split(topic)) == topic
  {
    if |topic| > 0 {
      var rest := Split(topic[1..]);
      JoinSplit(topic[1..]);
      var levels := Split(topic);
      if topic[0] == Sep {
        assert levels == [""] + rest;
        assert levels[1..] == rest;
        assert Join(levels) == "" + [Sep] + Join(rest);
        assert topic == [topic[0]] + topic[1..];
      } else if |rest| == 1 {
        assert levels == [[topic[0]] + rest[0]];
        assert topic == [topic[0]] + topic[1..];
      } else {
        assert levels[1..] == rest[1..];
        assert Join(levels) == [topic[0]] + rest[0] + [Sep] + Join(rest[1..]);
        assert Join(rest) == rest[0] + [Sep] + Join(rest[1..]);
        assert topic == [topic[0]] + topic[1..];
      }
    }
  }

  /** Joining four levels puts a separator between each neighbouring pair. */
  lemma JoinFour(a: string, b: string, c: string, d: string)
    ensures Join([a, b, c, d]) == a + [Sep] + b + [Sep] + c + [Sep] + d
  {
    var levels := [a, b, c, d];
    assert levels[1..][1..][1..] == [d];
    assert levels[1..][1..] == [c, d];
    assert levels[1..] == [b, c, d];
    assert Join(levels[1..][1..]) == c + [Sep] + d;
    assert Join(levels[1..]) == b + [Sep] + (c + [Sep] + d);
  }

  /** The topic a `devices --set` command publishes to. When the location,
      device and setting are single levels, it splits into exactly the four
      levels of the device-settings route: location, "devices", device, setting. */
  function PublishTopic(location: string, deviceId: string, setting: string): (t: string)
    ensures IsLevel(location) && IsLevel(deviceId) && IsLevel(setting) ==>
              Split(t) == [location, DevicesLevel, deviceId, setting]
  {
    var levels := [location, DevicesLevel, deviceId, setting];
    JoinFour(location, DevicesLevel, deviceId, setting);
    assert location + "/devices/" + deviceId + "/" + setting == Join(levels);
    if IsLevel(location) && IsLevel(deviceId) && IsLevel(setting) then
      assert IsLevel(DevicesLevel);
      SplitJoin(levels);
      location + "/devices/" + deviceId + "/" + setting
    else
      location + "/devices/" + deviceId + "/" + setting
  }

  /** The values the route `<location>:{location}/devices/<device_id>/<setting>`
      hands to the settings fold. */
  datatype RouteMatch = RouteMatch(deviceId: string, setting: string)

  /** Matches a topic against the device-settings route: exactly four levels,
      the first pinned to the configured location, the second the literal
      "devices", the last two captured. */
  function RouteCaptures(location: string, topic: string): (r: Option<RouteMatch>)
    ensures r.Some? ==> IsLevel(r.value.deviceId) && IsLevel(r.value.setting)
    ensures r.Some? && IsLevel(location) ==>
              PublishTopic(location, r.value.deviceId, r.value.setting) == topic
  {
    var levels := Split(topic);
    if |levels| == 4 && levels[0] == location && levels[1] == DevicesLevel then
      JoinSplit(topic);
      JoinFour(location, DevicesLevel, levels[2], levels[3]);
      assert [location, DevicesLevel, levels[2], levels[3]] == levels;
      Some(RouteMatch(levels[2], levels[3]))
    else
      None
  }

  /** A topic built for a device and setting is routed back to exactly that
      device and setting. */
  lemma PublishTopicRoutes(location: string, deviceId: string, setting: string)
    requires IsLevel(location) && IsLevel(deviceId) && IsLevel(setting)
    ensures RouteCaptures(location, PublishTopic(location, deviceId, setting))
         == Some(RouteMatch(deviceId, setting))
  {
  }
}
