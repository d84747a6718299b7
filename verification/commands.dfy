/**
 The decision logic of the `devices` command: from the snapshot and the
 command-line arguments to what the command reports or publishes. The
 command only reads the snapshot; a new value reaches the store only when the
 bus echoes the retained publish back through the settings fold.
 */
module Commands {
  import opened Wrappers
  import opened Topics
  import opened DeviceStore

  /** The `--type` option, a fixed choice; `NoType` when it is not given. */
  datatype ValueType = NoType | Str | Bytes | ByteArray | Float

  /** What one `devices` invocation does. */
  datatype Outcome =
    | NoDevices
    | DeviceList(devices: set<string>)
    | DeviceNotFound
    | SettingNotFound
    | NeedBothSetAndType
    | ShowDevice(settings: Settings)
    | ShowSetting(name: string, value: string)
    | Publish(topic: string, value: string, retain: bool)

  /** A device the command can find: present and with a non-empty settings map. */
  predicate DeviceFound(store: Store, deviceId: string) {
    deviceId in store && store[deviceId] != map[]
  }

  /** A setting the command can find: named, present, and with a non-empty
      value (an empty stored value reads as missing). */
  predicate SettingFound(store: Store, deviceId: string, setting: string) {
    setting != "" && deviceId in store && setting in store[deviceId] && store[deviceId][setting] != ""
  }

  /** The `devices` command. Each optional argument is a string where "" means
      absent, as the source tests them for truthiness. */
  function Devices(store: Store, location: string, deviceId: string, settingId: string,
                   newValue: string, newValueType: ValueType): (o: Outcome)
    // no device id: list the devices
    ensures deviceId == "" && store == map[] ==> o == NoDevices
    ensures deviceId == "" && store != map[] ==> o == DeviceList(store.Keys)
    // the device must have been observed, whatever else was asked
    ensures o == DeviceNotFound <==> deviceId != "" && !DeviceFound(store, deviceId)
    // a targeted setting (get-setting, or --set) must have been observed with a value
    ensures o == SettingNotFound <==>
              && deviceId != "" && DeviceFound(store, deviceId)
              && (settingId != "" || newValue != "")
              && !SettingFound(store, deviceId, settingId)
    // --set and --type come together when a setting is targeted
    ensures o == NeedBothSetAndType <==>
              && deviceId != "" && SettingFound(store, deviceId, settingId)
              && (newValue != "") != (newValueType != NoType)
    ensures o.ShowDevice? <==>
              deviceId != "" && DeviceFound(store, deviceId) && settingId == "" && newValue == ""
    ensures o.ShowDevice? ==> o.settings == store[deviceId]
    ensures o.ShowSetting? <==>
              && deviceId != "" && SettingFound(store, deviceId, settingId)
              && newValue == "" && newValueType == NoType
    ensures o.ShowSetting? ==> o == ShowSetting(settingId, store[deviceId][settingId])
    // a publish needs an observed device and setting and both options
    ensures o.Publish? <==>
              && deviceId != "" && SettingFound(store, deviceId, settingId)
              && newValue != "" && newValueType != NoType
    ensures o.Publish? ==> o == Publish(PublishTopic(location, deviceId, settingId), newValue, true)
  {
    var isListDevices := deviceId == "";
    var isGetDevice := settingId == "";
    var isSetDeviceSetting := newValue != "";
    var isGetDeviceSetting := !isGetDevice && !isSetDeviceSetting;
    if isListDevices then
      if |store.Keys| == 0 then NoDevices else DeviceList(store.Keys)
    else if !(deviceId in store && store[deviceId] != map[]) then
      DeviceNotFound
    else
      var device := store[deviceId];
      var current := if settingId != "" && settingId in device then device[settingId] else "";
      if (isGetDeviceSetting || isSetDeviceSetting) && current == "" then
        SettingNotFound
      else if (isGetDeviceSetting || isSetDeviceSetting)
              && (newValue != "" || newValueType != NoType)
              && !(newValue != "" && newValueType != NoType) then
        NeedBothSetAndType
      else if isGetDevice then
        ShowDevice(device)
      else if isGetDeviceSetting then
        ShowSetting(settingId, current)
      else
        Publish(location + "/devices/" + deviceId + "/" + settingId, newValue, true)
  }

  /** The four operations of the command surface, as a reference for what
      `devices` should do with well-formed arguments. */
  datatype Command =
    | ListDevices
    | GetDevice(deviceId: string)
    | GetSetting(deviceId: string, setting: string)
    | SetSetting(deviceId: string, setting: string, value: string, valueType: ValueType)

  /** The arguments are well formed: each command form gets exactly the
      arguments it names. */
  predicate ValidCommand(c: Command) {
    match c
    case ListDevices => true
    case GetDevice(d) => d != ""
    case GetSetting(d, s) => d != "" && s != ""
    case SetSetting(d, s, v, t) => d != "" && s != "" && v != "" && t != NoType
  }

  /** Reference semantics of the four operations over the snapshot. */
  function Execute(store: Store, location: string, c: Command): Outcome {
    match c
    case ListDevices =>
      if store.Keys == {} then NoDevices else DeviceList(store.Keys)
    case GetDevice(d) =>
      if DeviceFound(store, d) then ShowDevice(store[d]) else DeviceNotFound
    case GetSetting(d, s) =>
      if !DeviceFound(store, d) then DeviceNotFound
      else if !SettingFound(store, d, s) then SettingNotFound
      else ShowSetting(s, store[d][s])
    case SetSetting(d, s, v, _) =>
      if !DeviceFound(store, d) then DeviceNotFound
      else if !SettingFound(store, d, s) then SettingNotFound
      else Publish(PublishTopic(location, d, s), v, true)
  }

  /** Reads the command line's arguments as one of the four operations;
      `None` when they fit none (--set without a setting, or exactly one of
      --set and --type for a setting). A lone --type on a device is ignored. */
  function Parse(deviceId: string, settingId: string, newValue: string, newValueType: ValueType): (c: Option<Command>)
    ensures c.Some? ==> ValidCommand(c.value)
    // the command read is the one the arguments name: list ignores every other
    // argument, and get-device ignores a lone --type
    ensures c == Some(ListDevices) <==> deviceId == ""
    ensures c.Some? && c.value.GetDevice? ==>
              c.value.deviceId == deviceId && settingId == "" && newValue == ""
    ensures c.Some? && c.value.GetSetting? ==>
              c.value == GetSetting(deviceId, settingId) && newValue == "" && newValueType == NoType
    ensures c.Some? && c.value.SetSetting? ==>
              c.value == SetSetting(deviceId, settingId, newValue, newValueType)
  {
    if deviceId == "" then Some(ListDevices)
    else if settingId == "" && newValue == "" then Some(GetDevice(deviceId))
    else if settingId != "" && newValue == "" && newValueType == NoType then Some(GetSetting(deviceId, settingId))
    else if settingId != "" && newValue != "" && newValueType != NoType then
      Some(SetSetting(deviceId, settingId, newValue, newValueType))
    else None
  }

  /** On arguments that name one of the four operations, `devices` does what
      the reference semantics says; on the others it reports an error and
      neither shows nor publishes anything. */
  lemma DevicesMatchesExecute(store: Store, location: string, deviceId: string, settingId: string,
                              newValue: string, newValueType: ValueType)
    ensures Parse(deviceId, settingId, newValue, newValueType).Some? ==>
              Devices(store, location, deviceId, settingId, newValue, newValueType)
              == Execute(store, location, Parse(deviceId, settingId, newValue, newValueType).value)
    ensures Parse(deviceId, settingId, newValue, newValueType).None? ==>
              Devices(store, location, deviceId, settingId, newValue, newValueType)
              in {DeviceNotFound, SettingNotFound, NeedBothSetAndType}
  {
  }

  /** Every well-formed operation is parsed back from its own arguments. */
  lemma ParseCommandArgs(c: Command)
    requires ValidCommand(c)
    ensures match c
            case ListDevices => Parse("", "", "", NoType) == Some(c)
            case GetDevice(d) => Parse(d, "", "", NoType) == Some(c)
            case GetSetting(d, s) => Parse(d, s, "", NoType) == Some(c)
            case SetSetting(d, s, v, t) => Parse(d, s, v, t) == Some(c)
  {
  }

  /** When every key in the snapshot came from a topic level and the location
      is one level, a publish goes to a four-level topic that the
      device-settings route maps back to the same device and setting. */
  lemma PublishTopicShape(store: Store, location: string, deviceId: string, settingId: string,
                          newValue: string, newValueType: ValueType)
    requires LevelKeys(store) && IsLevel(location)
    requires Devices(store, location, deviceId, settingId, newValue, newValueType).Publish?
    ensures var t := Devices(store, location, deviceId, settingId, newValue, newValueType).topic;
            && Split(t) == [location, DevicesLevel, deviceId, settingId]
            && RouteCaptures(location, t) == Some(RouteMatch(deviceId, settingId))
  {
  }

  /** The retained publish as a later run sees it. The broker keeps the
      published string as the retained message for the topic, so the next
      run's window folds it in place of the value this run observed. Folding
      it onto this snapshot routes it back to the same device and setting,
      where get-setting then shows the new value, and no device is added.
      With `--type str` the published payload is the string given to `--set`. */
  lemma PublishEchoConfirms(store: Store, location: string, deviceId: string, settingId: string,
                            newValue: string, newValueType: ValueType)
    requires LevelKeys(store) && IsLevel(location)
    requires newValueType == Str
    requires Devices(store, location, deviceId, settingId, newValue, newValueType).Publish?
    ensures var o := Devices(store, location, deviceId, settingId, newValue, newValueType);
            var m := RouteCaptures(location, o.topic);
            && m.Some?
            && var after := Fold(store, m.value.deviceId, m.value.setting, o.value);
            && Devices(after, location, deviceId, settingId, "", NoType) == ShowSetting(settingId, newValue)
            && after.Keys == store.Keys
  {
  }

  /** Folding a non-empty value makes that device and setting readable with
      it; folding an empty one makes the setting read as missing. */
  lemma FoldThenGetSetting(store: Store, location: string, deviceId: string, settingId: string, value: string)
    requires deviceId != "" && settingId != ""
    ensures var after := Fold(store, deviceId, settingId, value);
            Devices(after, location, deviceId, settingId, "", NoType)
            == (if value == "" then SettingNotFound else ShowSetting(settingId, value))
  {
  }
}
