# device-ops: settings snapshot and the `devices` command

`device_ops/cli.py` is a command-line tool for devices that publish their
settings as retained MQTT messages on topics
`<location>/devices/<device_id>/<setting>`. At start-up it subscribes,
lets retained messages arrive for a short window, and folds each one into a
two-level dictionary `devices_dict` (device -> setting -> value). The
`devices` command then lists devices, shows one device, shows one setting,
or publishes a new value for a setting that has already been observed.

This project models the two pieces of pure logic in that file:

- `DeviceStore` (`device_store.dfy`): the snapshot as an immutable
  `map<string, map<string, string>>`, the `device_settings` handler as the
  function `Fold` (create the device on first sight, then last write wins),
  and a whole delivery window as `FoldAll` over a sequence of routed messages.
- `Commands` (`commands.dfy`): the `devices` command as a pure function
  `Devices` from the snapshot and the arguments to an `Outcome`. Optional
  arguments are strings where `""` means absent, because the source tests
  them for truthiness. `--type` is the fixed choice `ValueType`, with
  `NoType` for absent. A reference semantics (`Command`, `Parse`, `Execute`)
  describes the four operations of the usage text, and lemmas tie `Devices`
  to it.
- `Topics` (`topics.dfy`): splitting and joining topics on `/` with Python
  `str.split` semantics, the publish topic, and the four-level shape of the
  route `<location>:{LOCATION}/devices/<device_id>/<setting>`.
- `Wrappers` (`wrappers.dfy`): the `Option` type.

Being a pure function of the snapshot, `Devices` cannot change the store.
Delivery stops at line 55, before any command runs, and the publish at line
170 is the command's last step. So a run never sees its own publish. The
broker keeps the published value as the topic's retained message. A later
run starts from an empty store (line 34), and its window folds that value in
place of the old one. `PublishEchoConfirms` states what that later fold gives
for the published pair.

Where the source's behaviour is quirky, the model keeps it:

- A setting whose stored value is `""` is reported as not found, because
  the check at line 130 is a truthiness check.
- A device mapped to an empty dictionary reads as not found (line 123).
- A lone `--type` is ignored when no setting is named.
- `--set` without a setting id gives "setting not found".

## Model

| member | source | states |
|---|---|---|
| DeviceStore.Fold | device_ops/cli.py:43-45 | after folding (d, s, v), looking up (d, s) gives v; every other (device, setting) lookup is unchanged; the devices are the old ones plus d |
| DeviceStore.FoldNewDevice | device_ops/cli.py:43-44 | a device not yet in the store gets a fresh settings map holding only the new setting |
| DeviceStore.FoldGrows | device_ops/cli.py:43-45 | the fold never removes a device or a setting, and it keeps "every device has at least one setting" true |
| DeviceStore.FoldLastWriteWins | device_ops/cli.py:45 | two folds for the same device and setting leave the store as if only the second value had arrived |
| DeviceStore.FoldCommutes | device_ops/cli.py:43-45 | folds for different (device, setting) pairs give the same store in either order |
| DeviceStore.Deliver | device_ops/cli.py:40-45 | the handler decodes a byte payload with the given decoder, or keeps text as it is, and stores it under the captured device and setting |
| DeviceStore.LastWrite | device_ops/cli.py:45 | reference definition: the last delivered value for a pair, present exactly when some delivery targets that pair |
| DeviceStore.FoldAll | device_ops/cli.py:40-45 | the window's fold of the delivered messages in order keeps every device already known and contains every device that sent a message |
| DeviceStore.FoldAllSnoc | device_ops/cli.py:40-45 | a window's fold is the fold of its prefix followed by one more delivery |
| DeviceStore.FoldAllLastWriteWins | device_ops/cli.py:43-45 | after a window, each (device, setting) holds the value of its last delivery in the window, or its earlier value when the window had none for it |
| DeviceStore.FoldAllGrows | device_ops/cli.py:43-45 | a window only adds: no device or setting is lost, no device is left empty, and the devices are the earlier ones plus those delivered |
| DeviceStore.FoldAllLevelKeys | device_ops/cli.py:39-45 | if every delivery came through the route, every device id and setting name in the store is a single topic level |
| Commands.Devices | device_ops/cli.py:101-170 | each outcome holds exactly when its condition holds. No device id lists the store's keys, or reports no devices for an empty store. An unknown or empty device is not found for every command form. A targeted setting that is missing or empty is not found. Exactly one of --set and --type is refused. Otherwise the command shows the device or the setting, or publishes the value with retain set to the location/devices/device/setting topic |
| Commands.Parse | device_ops/cli.py:101-106 | arguments that name an operation yield a well-formed command built from exactly those arguments. List is read exactly when the device id is absent. Get-device ignores only a lone --type |
| Commands.DevicesMatchesExecute | device_ops/cli.py:101-170 | on arguments naming one of the four operations, the command does what the reference semantics says; on the rest it only reports an error |
| Commands.ParseCommandArgs | device_ops/cli.py:101-106 | every well-formed operation is read back from its own arguments |
| Commands.PublishTopicShape | device_ops/cli.py:169 | when the keys came from topic levels and the location is one level, a publish topic splits into the four levels location, devices, device and setting, and the route maps it back to that device and setting |
| Commands.PublishEchoConfirms | device_ops/cli.py:169-170 | with `--type str`, the retained message a set publishes is routed back to the same device and setting. A later run's window folds it in place of the value seen now. Folding it onto the snapshot makes get-setting show the new value, and no device is added |
| Commands.FoldThenGetSetting | device_ops/cli.py:130-155 | after folding a value for a named device and setting, get-setting shows it, unless the value is empty, which reads as not found |
| Topics.Split | device_ops/cli.py:39 | splitting a topic gives at least one level, and no level holds a separator |
| Topics.SplitJoin | device_ops/cli.py:39 | splitting undoes joining for levels without separators |
| Topics.JoinSplit | device_ops/cli.py:39 | joining undoes splitting for every topic |
| Topics.PublishTopic | device_ops/cli.py:169 | the publish topic splits into exactly the four route levels location, devices, device and setting when none of them holds a separator |
| Topics.RouteCaptures | device_ops/cli.py:39 | a topic the route accepts yields single-level captures, and the publish topic built from them is the topic itself |
| Topics.PublishTopicRoutes | device_ops/cli.py:169 | a publish topic built from single levels is routed back to exactly that device and setting |

## Left out

- Reading `.config` and `.secrets` and exiting when keys are missing (lines 15-32). This is file and environment I/O. The location is a parameter.
- MQTT client set-up, TLS, connect, `loop_start`, the fixed `sleep(0.5)` and `loop_stop` (lines 48-55). This is network and thread plumbing. The window is modelled only as the sequence of messages that arrived in it. Whether every retained message arrives within the fixed delay is a timing assumption that cannot be stated here.
- The general pattern compiler and matcher of the `sniffs` library and `bind` (lines 11, 36, 39, 52). That library is not part of this model. `Topics.RouteCaptures` states only the shape of the one route at line 39, assuming `/`-separated levels and single-level placeholders.
- UTF-8 decoding of byte payloads (lines 41-42). The decoder is a function parameter of `Deliver` and `FoldAll`. Decode failures are not modelled.
- Commands.Devices: publishes the `--set` string as given. The casts at lines 160-167 are not modelled: `float` is floating point, and in Python 3 `bytes(str)` and `bytearray(str)` raise `TypeError` without an encoding.
- Commands.Devices: `DeviceList` carries a set and `ShowDevice` a map, so the insertion order in which the tables list devices and settings is not modelled.
- Commands.Devices: an explicitly empty setting argument is treated as absent, so it never finds a setting stored under the empty name (Python's `device.get("")` would).
- click argument parsing, the rich tables, console colours and the `auth` command (lines 58-99, 110-119, 143-157). These are user interface and output.
- Commands.PublishEchoConfirms: states the echo only for `--type str`. With `float` the retained payload is the float's text rather than the string given, and `bytes`/`bytearray` raise before anything is published (lines 160-165).
- A location containing `/`. The route and the publish-topic lemmas require the location to be a single topic level.
