# uniswag device core, modelled in Dafny

uniswag is a desktop application. It finds laboratory instruments on the USB
bus, controls them and charts what they measure. These instruments are
oscilloscopes and signal generators from TiePie engineering, Keysight,
Tektronix and Hantek, plus a software "MS-SWAG" math oscilloscope. This
project models the core that sits between the vendor SDKs and the graphical
front end:

- **the device layer**:
  - the device and channel base classes (`Device`);
  - the oscilloscope and generator base classes (`Oscilloscope`, `Generator`);
  - each vendor driver's local state and its rules for accepting, clamping and translating settings (`TiepieOsc`, `KeysightOsc`, `TektronixOsc`, `HantekOsc`, `TiepieGen`, `TektronixGen`);
- **the math oscilloscope**:
  - channels that combine two operand channels of other oscilloscopes;
  - the deletion callbacks that clear an operand when its oscilloscope goes away;
  - the sorted union of time vectors, the interpolation and the five operators (`MathOps`, `MathOsc`);
- **the acquisition publish rules**: a measurement snapshot and its "new data" flag, and the run/stop state machines of every driver;
- **the registries**:
  - the device list that the device manager keeps (`DeviceManager`);
  - the USB daemon's list of connected devices, with the bind and unbind events that feed the device list (`UsbDaemon`);
- **the property interfaces**: how the text the front end sends is parsed and normalised before it reaches a driver (`OscProperties`, `GenProperties`);
- **the front-end connector's bookkeeping** (`Connector`):
  - the visible channels per oscilloscope;
  - the selected device and channel;
  - the chart-axis limits;
  - the output toggle;
  - file names derived from device ids.

Objects that the source updates in place are classes here: devices, channels,
the device manager, the USB daemon, the connector and the math oscilloscope.
Their methods name what they modify. Pure computations are functions, and
loops are methods with invariants. Lemmas state the promises that relate
several operations: round trips through translation tables, setters followed
by getters, and invariants that each event preserves.

## Model

| member | source | states |
|---|---|---|
| Common.Clamp | uniswag/devices/generators/tiepie_gen.py:300 | The setters' `min(hi, max(lo, v))`. When the bounds are ordered, the result lies within them. A value already in range is kept, and a value out of range becomes the nearer bound. |
| Common.ClampInt | uniswag/devices/generators/tiepie_gen.py:574 | The same clamp on integer settings: the result lies within ordered bounds, and an in-range value is kept. |
| Common.Lookup | uniswag/front_to_back_connector.py:404 | `dict.get`: it returns a value exactly when the key is present, and that value belongs to the key's item. |
| Common.PutSpec | uniswag/front_to_back_connector.py:837 | Assigning a dictionary key keeps keys unique. Afterwards the key maps to the new value, every other key is unchanged, and the size grows only for a new key. |
| Common.DropSpec | uniswag/front_to_back_connector.py:875 | `dict.pop` keeps keys unique. Afterwards the key is absent and every other key is unchanged. Popping an absent key changes nothing. |
| Common.InverseRoundTrip | uniswag/devices/oscilloscopes/keysight_osc.py:325 | A table without repeated codes, inverted with `dict((v, k) ...)`, maps the code that a setter wrote back to the name it looked up. |
| Common.InverseCodes | uniswag/devices/oscilloscopes/tektronix_osc.py:286 | The inverted table knows exactly the codes that the table lists. Any other code read from the instrument raises. |
| Common.Abs | uniswag/devices/generators/tektronix_gen.py:226 | `abs` is non-negative and equals the value or its negation. |
| Common.SeqMin | uniswag/devices/generators/tektronix_gen.py:224 | `min` of a non-empty list is at most every element and is one of them. |
| Common.SeqMax | uniswag/devices/generators/tektronix_gen.py:225 | `max` of a non-empty list is at least every element and is one of them. |
| Common.RemoveFirst | uniswag/device_manager.py:124 | `list.remove` leaves a list without the element unchanged and otherwise shortens it by exactly one. |
| Common.WithoutMembers | uniswag/device_manager.py:123-124 | Removing a list of elements keeps exactly the elements that are not in it. |
| Common.RemoveFirstWithout | uniswag/device_manager.py:123-124 | On a list without repeats, each further `remove` extends the set of filtered elements by one. |
| Common.FindSpec | uniswag/device_properties/gen_properties.py:184 | The search for a separator returns its first occurrence, and reports none only when there is none. |
| Common.SplitJoin | uniswag/devices/generators/tektronix_gen.py:50 | `str.split(sep)` loses nothing: the pieces, joined with the separator, give the text back. |
| Common.SplitPieces | uniswag/usb_device_daemon.py:498 | No piece of `str.split(sep)` contains the separator. |
| Common.IntToString | uniswag/devices/oscilloscopes/math_osc.py:377 | `str(n)` is never empty. |
| Device.Device.constructor | uniswag/devices/device.py:5-39 | A new device carries the given four-part id and no channels. |
| Device.Device.ChCnt | uniswag/devices/device.py:55-63 | The channel count is the length of the channel list. |
| Device.Channel.constructor | uniswag/devices/device.py:126-157 | A new channel carries the given name and number and starts disabled. |
| Device.Channel.IsEnabled | uniswag/devices/device.py:173-183 | The base getter reports the stored enabled flag. |
| DeviceManager.KindsForSpec | uniswag/device_manager.py:79-89 | Each vendor's classes are exactly the classes of that vendor, with no class listed twice. A vendor gets at most two, an oscilloscope before a generator. An unknown vendor gets none. |
| DeviceManager.MatchingMembers | uniswag/device_manager.py:113-120 | The removal pass picks exactly the listed devices whose name, serial number and vendor match, and keeps exactly the others. |
| DeviceManager.WithoutMatching | uniswag/device_manager.py:122-124 | Removing the picked devices one by one leaves exactly the non-matching devices, in order. |
| DeviceManager.NotMatchingDistinct | uniswag/device_manager.py:122-124 | The remaining list still holds no device object twice. |
| DeviceManager.Manager.constructor | uniswag/device_manager.py:12-52 | At start-up the list holds exactly the math oscilloscope 'MathOsc' with serial number '123', and the list invariant holds. |
| DeviceManager.Manager.Create | uniswag/device_manager.py:82-89 | Instantiating a class gives a fresh device with that class's vendor and type and the given name and serial number. |
| DeviceManager.Manager.OnAddDevice | uniswag/device_manager.py:67-96 | Adding a device keeps the old list as a prefix and appends one fresh device per class of the vendor, in order. The 'add' event reports exactly the appended devices, and the list invariant is kept. |
| DeviceManager.Manager.OnRemoveDevice | uniswag/device_manager.py:98-127 | Removing a device shuts down every matching device in list order. The list keeps exactly the non-matching devices, and the 'remove' event reports exactly the matching ones. The list invariant is kept. |
| DeviceManager.Manager.ShutDownMatching | uniswag/device_manager.py:111-120 | The first loop calls `init_deletion` on exactly the matching devices, in list order, and collects them. |
| DeviceManager.Manager.RemoveEach | uniswag/device_manager.py:122-124 | The second loop's `list.remove` calls leave the list without the collected devices. |
| Generator.Linspace | uniswag/devices/generator.py:106-123 | numpy's `linspace` returns exactly the requested number of points. |
| Generator.LinspaceSpacing | uniswag/devices/generator.py:106-123 | A linspace starts at 0, and its points are evenly spaced: `stop/(n-1)` apart with the endpoint and `stop/n` apart without it. |
| Generator.LinspaceEndpoint | uniswag/devices/generator.py:106 | With the endpoint, the last preview point is `stop` itself. |
| Generator.LinspaceBelowStop | uniswag/devices/generator.py:111 | Without the endpoint, every point lies in `[0, stop)`. |
| Generator.ArbTimeVector | uniswag/devices/generators/tektronix_gen.py:188-193 | The append loop builds `n` time points that start at 0 and lie `diff` apart. |
| Generator.ArbTimeIsLinspace | uniswag/devices/generators/tektronix_gen.py:189-193 | Points `period / n` apart are exactly a linspace over one period without its end. |
| Generator.SignalPreview | uniswag/devices/generator.py:93-140 | A sine previews 1000 points over one period including its end. Square, ramp and pulse preview 1000 points excluding it. Each voltage is the amplitude times the waveform plus the offset. An arbitrary signal shows the stored vectors, and any other type shows one point at the origin. |
| Generator.SinePreviewSpansPeriod | uniswag/devices/generator.py:105-108 | A sine preview runs from 0 to exactly one period. |
| Generator.PeriodicPreviewBelowPeriod | uniswag/devices/generator.py:110-127 | Square, ramp and pulse previews start at 0 and stay below one period. |
| Generator.InitialPreviewIsOrigin | uniswag/devices/generator.py:56-91 | A new channel's type is 'unknown', so it previews the single point at the origin. |
| Oscilloscope.InitialSnapshot | uniswag/devices/oscilloscope.py:56-61 | Before the first acquisition, the points hold one origin point under channel 1 and both ranges are (0, 0). |
| Oscilloscope.RetrieveStep | uniswag/devices/oscilloscope.py:79-124 | `retrieve` returns the snapshot unchanged and reports the flag as it was. The flag survives only when `dismiss` is not set. |
| Oscilloscope.DismissReportsOnce | uniswag/devices/oscilloscope.py:106-111 | Two reads with `dismiss` set report new data at most once. Reads without `dismiss` leave the report unchanged. |
| Oscilloscope.SnapshotStore.constructor | uniswag/devices/oscilloscope.py:56-64 | A store starts with the initial snapshot and no new data. |
| Oscilloscope.SnapshotStore.Retrieve | uniswag/devices/oscilloscope.py:79-124 | A read gives the state step of `retrieve` and never changes the snapshot. |
| Oscilloscope.SnapshotStore.Publish | uniswag/devices/oscilloscopes/keysight_osc.py:154-169 | Publishing stores the iteration's snapshot and raises the new-data flag. |
| Oscilloscope.KeyOf | uniswag/devices/oscilloscope.py:240-241 | The callback key holds every part of the oscilloscope id, and both parts of the channel id as a two-element set. |
| Oscilloscope.OscChannel.constructor | uniswag/devices/oscilloscope.py:180-203 | A new oscilloscope channel is disabled and has no deletion callbacks. |
| Oscilloscope.OscChannel.DeletionCallbacks | uniswag/devices/oscilloscope.py:205-218 | `deletion_callbacks` lists the registered callbacks in insertion order. |
| Oscilloscope.OscChannel.SetDeletionCallback | uniswag/devices/oscilloscope.py:220-246 | Registering a callback stores it under the key of the two ids. Registering none removes that key, and an absent key is ignored. Afterwards the key maps to exactly the given callback, and every other key keeps its callback. |
| Oscilloscope.InitDeletion | uniswag/devices/oscilloscope.py:73-77 | The pseudo-destructor calls every channel's callbacks, channel by channel and in insertion order, so no registered callback is skipped. |
| Oscilloscope.AllCallbacksLength | uniswag/devices/oscilloscope.py:73-77 | The pseudo-destructor makes exactly as many calls as there are registered callbacks. |
| Oscilloscope.CallbacksContained | uniswag/devices/oscilloscope.py:73-77 | Every callback registered on any channel is among the calls. |
| Oscilloscope.FftPointCount | uniswag/devices/oscilloscope.py:127-148 | An FFT of `n` samples yields `n // 2` frequency values. An empty time vector makes `max` raise. |
| Oscilloscope.Zip | uniswag/devices/oscilloscopes/keysight_osc.py:124-125 | Pairing yields as many points as the shorter vector has, and the j-th point pairs the j-th time with the j-th sample. |
| Oscilloscope.GatherKeys | uniswag/devices/oscilloscopes/keysight_osc.py:132 | The points dictionary has exactly one key per delivered channel number. |
| Oscilloscope.GatherValue | uniswag/devices/oscilloscopes/keysight_osc.py:132 | A channel's entry is the pairing of that channel's last reading. |
| Oscilloscope.VoltageRangeSpec | uniswag/devices/oscilloscopes/keysight_osc.py:134-140 | The running minimum and maximum are absent only without readings. Otherwise they bound every sample of every reading and are attained by some sample. |
| Oscilloscope.Accumulate | uniswag/devices/oscilloscopes/keysight_osc.py:113-147 | The channel loop produces exactly the points dictionary and the voltage range of its readings. |
| Oscilloscope.SampleReadingsMembers | uniswag/devices/oscilloscopes/keysight_osc.py:113-132 | The readings are exactly the enabled channels' samples, numbered position plus 1, in increasing channel order. |
| Oscilloscope.SampleReadingsLast | uniswag/devices/oscilloscopes/keysight_osc.py:151 | The last reading carries the last enabled channel's time vector. |
| Oscilloscope.NoSampleNoChannel | uniswag/devices/oscilloscopes/keysight_osc.py:150 | No channel delivered exactly when no channel is enabled. |
| Oscilloscope.SampleRaises | uniswag/devices/oscilloscopes/keysight_osc.py:124-145 | Defines when handling one channel's samples raises: fewer than two time points (so `min` of the FFT shares fails), or fewer samples than the loop indexes. AcquisitionNoChannel and Acquire use it. |
| Oscilloscope.SnapshotOf | uniswag/devices/oscilloscopes/keysight_osc.py:113-164 | Defines the snapshot one iteration publishes: the gathered points, the last enabled channel's time span and the voltage range. SnapshotPoints, SnapshotTime and SnapshotVoltage state its properties. |
| Oscilloscope.Acquisition | uniswag/devices/oscilloscopes/keysight_osc.py:113-164 | Defines an iteration's outcome: raised if some enabled channel raises, no channel if none is enabled, otherwise the snapshot. Acquire is proved equal to it, and AcquisitionNoChannel characterises its no-channel case. |
| Oscilloscope.AcquisitionNoChannel | uniswag/devices/oscilloscopes/keysight_osc.py:149-150 | An iteration skips publication exactly when no channel is enabled and none raised. |
| Oscilloscope.SnapshotKeys | uniswag/devices/oscilloscopes/keysight_osc.py:132 | The published points hold one entry per enabled channel, under its number. |
| Oscilloscope.SampleReadingsNos | uniswag/devices/oscilloscopes/keysight_osc.py:132 | The readings carry exactly the numbers of the enabled channels. |
| Oscilloscope.GatherSampleReadings | uniswag/devices/oscilloscopes/keysight_osc.py:124-132 | Each enabled channel's entry pairs its own time vector with its own samples. |
| Oscilloscope.SnapshotPoints | uniswag/devices/oscilloscopes/keysight_osc.py:124-132 | In the published snapshot, each enabled channel's entry pairs its own time vector with its own samples. |
| Oscilloscope.SnapshotTime | uniswag/devices/oscilloscopes/keysight_osc.py:151 | The published time range runs from the first to the last point of the last enabled channel's time vector, which has at least two points. |
| Oscilloscope.SnapshotVoltage | uniswag/devices/oscilloscopes/keysight_osc.py:134-140 | The published voltage range bounds every sample of every enabled channel. |
| Oscilloscope.Acquire | uniswag/devices/oscilloscopes/keysight_osc.py:113-152 | The channel loop stops at the first channel whose handling raises. Otherwise it builds the snapshot of the enabled channels, or reports that none was enabled. |
| Oscilloscope.SharedTime | uniswag/devices/oscilloscopes/keysight_osc.py:106-122 | With one shared time vector, each enabled channel delivers that vector with its own samples, and a disabled channel delivers nothing. |
| Oscilloscope.AcquireAndPublish | uniswag/devices/oscilloscopes/keysight_osc.py:84-169 | An iteration publishes exactly when some channel was enabled and none raised. The snapshot and flag change only then. |
| Oscilloscope.ProbeGain | uniswag/devices/oscilloscopes/keysight_osc.py:459-468 | A gain of zero becomes 1, and any other gain is clamped into the bounds. With non-zero bounds the stored gain is never zero. |
| HantekOsc.Contributing | uniswag/devices/oscilloscopes/hantek_osc.py:79 | A channel contributes to an iteration exactly when it is enabled and has fresh data. |
| HantekOsc.HantekOscChannel.constructor | uniswag/devices/oscilloscopes/hantek_osc.py:278-307 | A new channel carries its number, is disabled, and keeps the instrument's trigger level. |
| HantekOsc.HantekOscChannel.SetEnabled | uniswag/devices/oscilloscopes/hantek_osc.py:310-313 | The `is_enabled` setter changes only the local flag. |
| HantekOsc.HantekOscChannel.TrigLvl | uniswag/devices/oscilloscopes/hantek_osc.py:360-365 | The trigger level reads as a one-element list holding the single level. |
| HantekOsc.HantekOscChannel.SetTrigLvl | uniswag/devices/oscilloscopes/hantek_osc.py:368-371 | The setter takes the list's first element, so it reads back as a one-element prefix. An empty list raises and changes nothing. |
| HantekOsc.HantekOsc.Enabled | uniswag/devices/oscilloscopes/hantek_osc.py:76-79 | The enabled flags are the channels' flags in channel order. |
| HantekOsc.HantekOsc.constructor | uniswag/devices/oscilloscopes/hantek_osc.py:9-46 | A Hantek oscilloscope has one disabled channel per instrument channel, numbered from 1. It is not running, its bounds come from the instrument, and its snapshot is the initial one. |
| HantekOsc.HantekOsc.IsRunning | uniswag/devices/oscilloscopes/hantek_osc.py:148-153 | `is_running` reports the instrument's own running flag. Start and Stop are specified in terms of it. |
| HantekOsc.HantekOsc.Start | uniswag/devices/oscilloscopes/hantek_osc.py:155-184 | Starting succeeds exactly when the instrument is stopped and some channel is enabled, and only then does the instrument start. |
| HantekOsc.HantekOsc.Stop | uniswag/devices/oscilloscopes/hantek_osc.py:186-202 | Stopping succeeds exactly when the instrument ran, and it stops afterwards. |
| HantekOsc.HantekOsc.Step | uniswag/devices/oscilloscopes/hantek_osc.py:48-142 | A running iteration publishes the snapshot of the contributing channels against channel 1's time vector, unless none contributes or one raises. A stopped iteration invokes the stopped callback once and publishes nothing. |
| HantekOsc.HantekOsc.SetSampleFreq | uniswag/devices/oscilloscopes/hantek_osc.py:222-231 | The sample frequency is clamped into `[1, max]`. |
| HantekOsc.HantekOsc.SetRecLen | uniswag/devices/oscilloscopes/hantek_osc.py:250-257 | The record length is clamped into `[1, max]`. |
| HantekOsc.HantekOsc.SetPreSampleRatio | uniswag/devices/oscilloscopes/hantek_osc.py:268-274 | The pre-sample ratio is clamped into `[0, 1]`. |
| HantekOsc.OnlyContributorsPublished | uniswag/devices/oscilloscopes/hantek_osc.py:76-103 | A channel appears in a published snapshot exactly when it is enabled and has fresh data. |
| KeysightOsc.TablesInvertible | uniswag/devices/oscilloscopes/keysight_osc.py:16-36 | In every trigger table and the coupling table, no name occurs twice and no two names share a code. |
| KeysightOsc.TriggerModesInvertible | uniswag/devices/oscilloscopes/keysight_osc.py:16-24 | The trigger-mode table can be inverted. |
| KeysightOsc.TriggerModeNamesDiffer | uniswag/devices/oscilloscopes/keysight_osc.py:16-24 | The trigger-mode names are pairwise different. |
| KeysightOsc.TriggerModeCodesDiffer | uniswag/devices/oscilloscopes/keysight_osc.py:16-24 | The trigger-mode codes are pairwise different. |
| KeysightOsc.TriggerSweepsInvertible | uniswag/devices/oscilloscopes/keysight_osc.py:25-29 | The sweep table can be inverted. |
| KeysightOsc.TriggerSlopesInvertible | uniswag/devices/oscilloscopes/keysight_osc.py:30-36 | The slope table can be inverted. |
| KeysightOsc.CouplingsInvertible | uniswag/devices/oscilloscopes/keysight_osc.py:378-381 | The coupling table can be inverted. |
| KeysightOsc.TableRoundTrips | uniswag/devices/oscilloscopes/keysight_osc.py:323-335 | For each table, setting a listed name and reading it back gives that name. |
| KeysightOsc.UnlistedCodeRaises | uniswag/devices/oscilloscopes/keysight_osc.py:323-329 | A code outside a table has no name, so the getter raises. |
| KeysightOsc.KeysightOscChannel.constructor | uniswag/devices/oscilloscopes/keysight_osc.py:383-410 | A new channel carries its number, is disabled, and has probe attenuation 1. |
| KeysightOsc.KeysightOscChannel.SetEnabled | uniswag/devices/oscilloscopes/keysight_osc.py:413-420 | Enabling shows the channel on the instrument (display 1), and disabling hides it (display 0). |
| KeysightOsc.KeysightOscChannel.SetProbeGain | uniswag/devices/oscilloscopes/keysight_osc.py:459-468 | A zero gain becomes 1, and any other gain is clamped into `[0.1, 10000]`. |
| KeysightOsc.KeysightOscChannel.SetCoupling | uniswag/devices/oscilloscopes/keysight_osc.py:475-487 | A listed coupling name is stored as its code and reads back as itself. Any other name raises and changes nothing. |
| KeysightOsc.KeysightOsc.Enabled | uniswag/devices/oscilloscopes/keysight_osc.py:113-117 | The enabled flags are the channels' flags in channel order. |
| KeysightOsc.KeysightOsc.constructor | uniswag/devices/oscilloscopes/keysight_osc.py:45-82 | A Keysight oscilloscope has one disabled channel per instrument channel, numbered from 1. The driver starts stopped. |
| KeysightOsc.KeysightOsc.Start | uniswag/devices/oscilloscopes/keysight_osc.py:192-222 | Starting succeeds exactly when the driver is stopped and some channel is enabled. |
| KeysightOsc.KeysightOsc.Stop | uniswag/devices/oscilloscopes/keysight_osc.py:224-241 | Stopping succeeds exactly when the driver was running, and it stops afterwards. |
| KeysightOsc.KeysightOsc.Step | uniswag/devices/oscilloscopes/keysight_osc.py:84-179 | A running iteration publishes the snapshot of the enabled channels against the instrument's time vector, unless none is enabled or one raises. A stopped iteration invokes the stopped callback once. |
| KeysightOsc.KeysightOsc.SetRecLen | uniswag/devices/oscilloscopes/keysight_osc.py:281-290 | The record length is clamped into `[1, max]`. |
| KeysightOsc.KeysightOsc.SetTrigMode | uniswag/devices/oscilloscopes/keysight_osc.py:332-335 | A listed trigger mode is sent as its code and reads back as itself. Any other name raises and changes nothing. |
| KeysightOsc.KeysightOsc.SetTrigSweep | uniswag/devices/oscilloscopes/keysight_osc.py:351-354 | A listed sweep is sent as its code and reads back as itself. Any other name raises and changes nothing. |
| KeysightOsc.KeysightOsc.SetTrigSlope | uniswag/devices/oscilloscopes/keysight_osc.py:370-373 | A listed slope is sent as its code and reads back as itself. Any other name raises and changes nothing. |
| TektronixOsc.TablesInvertible | uniswag/devices/oscilloscopes/tektronix_osc.py:8-24 | In every trigger table and the coupling table, no name occurs twice and no two names share a code. |
| TektronixOsc.TriggerModesInvertible | uniswag/devices/oscilloscopes/tektronix_osc.py:8-11 | The trigger-mode table can be inverted. |
| TektronixOsc.TriggerSlopesInvertible | uniswag/devices/oscilloscopes/tektronix_osc.py:13-16 | The slope table can be inverted. |
| TektronixOsc.CouplingsInvertible | uniswag/devices/oscilloscopes/tektronix_osc.py:339-342 | The coupling table can be inverted. |
| TektronixOsc.TriggerSourcesInvertible | uniswag/devices/oscilloscopes/tektronix_osc.py:18-23 | The trigger-source table can be inverted. |
| TektronixOsc.TableRoundTrips | uniswag/devices/oscilloscopes/tektronix_osc.py:284-334 | For each table, setting a listed name and reading it back gives that name. |
| TektronixOsc.Delivered | uniswag/devices/oscilloscopes/tektronix_osc.py:95-100 | Each enabled channel delivers its own time vector and signal, and a disabled channel delivers nothing. |
| TektronixOsc.TektronixOscChannel.constructor | uniswag/devices/oscilloscopes/tektronix_osc.py:344-371 | A new channel carries its number, is disabled, and has probe attenuation 1. |
| TektronixOsc.TektronixOscChannel.SetEnabled | uniswag/devices/oscilloscopes/tektronix_osc.py:374-381 | Both the instrument's channel switch and the local flag follow the value. |
| TektronixOsc.TektronixOscChannel.SetProbeGain | uniswag/devices/oscilloscopes/tektronix_osc.py:406-415 | A zero gain becomes 1, and any other gain is clamped into `[0.1, 10000]`. |
| TektronixOsc.TektronixOscChannel.SetCoupling | uniswag/devices/oscilloscopes/tektronix_osc.py:422-434 | A listed coupling is sent as its code and reads back as itself. Any other name raises and changes nothing. |
| TektronixOsc.TektronixOsc.Enabled | uniswag/devices/oscilloscopes/tektronix_osc.py:94-99 | The enabled flags are the channels' flags in channel order. |
| TektronixOsc.TektronixOsc.constructor | uniswag/devices/oscilloscopes/tektronix_osc.py:26-65 | A Tektronix oscilloscope has one disabled channel per instrument channel, numbered from 1. It starts stopped and transferring channel 1. |
| TektronixOsc.TektronixOsc.Start | uniswag/devices/oscilloscopes/tektronix_osc.py:173-203 | Starting succeeds exactly when the driver is stopped and some channel is enabled. |
| TektronixOsc.TektronixOsc.Stop | uniswag/devices/oscilloscopes/tektronix_osc.py:205-222 | Stopping succeeds exactly when the driver was running, and it stops afterwards. |
| TektronixOsc.TektronixOsc.Step | uniswag/devices/oscilloscopes/tektronix_osc.py:67-160 | A running iteration publishes the snapshot of the enabled channels' own vectors, with the last enabled channel's time range, unless none is enabled or one raises. A stopped iteration invokes the stopped callback once. |
| TektronixOsc.TektronixOsc.SetRecLen | uniswag/devices/oscilloscopes/tektronix_osc.py:240-249 | The record length is clamped into `[1, 20000]`. |
| TektronixOsc.TektronixOsc.SetSampleFreq | uniswag/devices/oscilloscopes/tektronix_osc.py:268-277 | The sample frequency is clamped into `[1, max]`. |
| TektronixOsc.TektronixOsc.SetTrigMode | uniswag/devices/oscilloscopes/tektronix_osc.py:293-296 | A listed trigger mode is sent as its code and reads back as itself. Any other name raises and changes nothing. |
| TektronixOsc.TektronixOsc.SetTrigSlope | uniswag/devices/oscilloscopes/tektronix_osc.py:312-315 | A listed slope is sent as its code and reads back as itself. Any other name raises and changes nothing. |
| TektronixOsc.TektronixOsc.SetTriggerSource | uniswag/devices/oscilloscopes/tektronix_osc.py:331-334 | A listed trigger source is sent as its code and reads back as itself. Any other name raises and changes nothing. |
| TiepieOsc.TrigTimeout | uniswag/devices/oscilloscopes/tiepie_osc.py:559-570 | A non-negative timeout is kept, and any negative value becomes -1, meaning "wait forever". |
| TiepieOsc.TruncateClamp | uniswag/devices/oscilloscopes/tiepie_osc.py:968-987 | The hysteresis and trigger-time loops keep at most `cnt` values, each the given value clamped into `[0, 1]`. |
| TiepieOsc.TiepieOscChannel.constructor | uniswag/devices/oscilloscopes/tiepie_osc.py:660-692 | A new channel carries its number, is disabled, and mirrors the instrument's trigger capabilities and settings. |
| TiepieOsc.TiepieOscChannel.SetEnabled | uniswag/devices/oscilloscopes/tiepie_osc.py:695-699 | The enabled flag follows the value. |
| TiepieOsc.TiepieOscChannel.SetProbeGain | uniswag/devices/oscilloscopes/tiepie_osc.py:743-752 | A zero gain becomes 1, and any other gain is clamped into `[-1e6, 1e6]`. |
| TiepieOsc.TiepieOscChannel.SetProbeOffset | uniswag/devices/oscilloscopes/tiepie_osc.py:763-769 | The probe offset is clamped into `[-1e6, 1e6]`. |
| TiepieOsc.TiepieOscChannel.SetTrigKind | uniswag/devices/oscilloscopes/tiepie_osc.py:878-885 | The trigger kind changes only on a channel that has a trigger. |
| TiepieOsc.TiepieOscChannel.SetTrigCond | uniswag/devices/oscilloscopes/tiepie_osc.py:1021-1028 | The trigger condition changes only with a trigger and a kind that is not an edge. |
| TiepieOsc.TiepieOscChannel.SetTrigLvl | uniswag/devices/oscilloscopes/tiepie_osc.py:919-930 | With a trigger, the first `lvlCnt` levels are kept. Without one, nothing changes. |
| TiepieOsc.TiepieOscChannel.SetTrigHyst | uniswag/devices/oscilloscopes/tiepie_osc.py:968-987 | Outside the window kinds, at most `hystCnt` values are stored, each clamped into `[0, 1]`. In a window kind, the levels become the highest current level and a level `value[0] * range` below it (WindowWrite), and with a nonzero range and ordered levels the getter then reads back `[value[0]]`. The setter fails exactly where the source raises: a window kind with no value or no level. |
| TiepieOsc.TiepieOscChannel.TrigLvl | uniswag/devices/oscilloscopes/tiepie_osc.py:901-916 | The `trig_lvl` getter reports the stored levels exactly when there is a trigger, and '-' (None) otherwise. |
| TiepieOsc.TiepieOscChannel.TrigTime | uniswag/devices/oscilloscopes/tiepie_osc.py:1044-1057 | The `trig_time` getter reports the stored times exactly when there is a trigger, the kind is not an edge kind and the condition is not "none", and '-' (None) otherwise. |
| TiepieOsc.HystReadingOf | uniswag/devices/oscilloscopes/tiepie_osc.py:946-965 | Defines the `trig_hyst` getter: '-' exactly without a trigger. In a window kind it reports the level spread divided by the range, and raises exactly when there is no level or the range is zero. Otherwise it reports the stored hystereses. TiepieOsc.TiepieOscChannel.TrigHyst applies it to the channel. |
| TiepieOsc.WindowHystReadsBack | uniswag/devices/oscilloscopes/tiepie_osc.py:946-987 | In a window kind, once the setter has rewritten the levels to a top level and one `h * range` below it, the getter reads back `[h]`, for a nonzero range and a non-negative spread. |
| TiepieOsc.TiepieOscChannel.SetTrigTime | uniswag/devices/oscilloscopes/tiepie_osc.py:1060-1075 | Only for a kind that is not an edge and a condition other than "none", at most `timeCnt` times are stored, each clamped into `[0, 1]`. Otherwise nothing changes. |
| TiepieOsc.WindowHystSpread | uniswag/devices/oscilloscopes/tiepie_osc.py:984-985 | In a window kind, the top level is kept and the spread between the two levels is exactly the hysteresis times the range. |
| TiepieOsc.TiepieOsc.Enabled | uniswag/devices/oscilloscopes/tiepie_osc.py:100-104 | The enabled flags are the channels' flags in channel order. |
| TiepieOsc.TiepieOsc.constructor | uniswag/devices/oscilloscopes/tiepie_osc.py:8-59 | A TiePie oscilloscope has one disabled channel per hardware channel, numbered from 1. The hardware starts halted in 'block' mode, with nothing pending. |
| TiepieOsc.TiepieOsc.ModesAvail | uniswag/devices/oscilloscopes/tiepie_osc.py:282-287 | The available modes are the software 'repeat' mode followed by the hardware's own modes. |
| TiepieOsc.TiepieOsc.IsRunning | uniswag/devices/oscilloscopes/tiepie_osc.py:201-206 | `is_running` reports whether the driver means to run, not the hardware's flag. |
| TiepieOsc.TiepieOsc.SetMeasureMode | uniswag/devices/oscilloscopes/tiepie_osc.py:298-308 | The selected mode is stored. The hardware gets 'block' for 'repeat' and the mode itself otherwise. |
| TiepieOsc.MeasureModeReachesHardware | uniswag/devices/oscilloscopes/tiepie_osc.py:282-308 | Choosing any available mode hands the hardware a mode it offers. |
| TiepieOsc.TiepieOsc.Start | uniswag/devices/oscilloscopes/tiepie_osc.py:208-244 | Starting succeeds exactly when the hardware is idle and some channel is enabled. A started 'block' run is marked as still to be fetched, and a failed start changes nothing. |
| TiepieOsc.TiepieOsc.Stop | uniswag/devices/oscilloscopes/tiepie_osc.py:246-266 | Stopping succeeds exactly when the hardware ran or a 'repeat' restart was pending. The hardware is idle afterwards, and a successful stop clears the intent to run. |
| TiepieOsc.TiepieOsc.MeasurementEnds | uniswag/devices/oscilloscopes/tiepie_osc.py:61-195 | A block measurement that ends on its own leaves the hardware idle. |
| TiepieOsc.TiepieOsc.Fetch | uniswag/devices/oscilloscopes/tiepie_osc.py:74-160 | Data that the hardware reports ready is published as the snapshot of the enabled channels, with every time point paired. Nothing is published when no data is ready, no channel is enabled or a channel raises. |
| TiepieOsc.TiepieOsc.Step | uniswag/devices/oscilloscopes/tiepie_osc.py:61-195 | A running or unfetched run is fetched exactly once. Otherwise, a 'repeat' run that is meant to continue restarts the hardware when some channel is enabled and gives up when none is. In every other case the driver stops meaning to run and notifies the stop once. |
| TiepieOsc.TiepieOsc.SetSampleFreq | uniswag/devices/oscilloscopes/tiepie_osc.py:377-386 | The sample frequency is clamped into `[1, max]`. |
| TiepieOsc.TiepieOsc.SetRecLen | uniswag/devices/oscilloscopes/tiepie_osc.py:405-414 | The record length is clamped into `[1, max]`. |
| TiepieOsc.TiepieOsc.SetPreSampleRatio | uniswag/devices/oscilloscopes/tiepie_osc.py:481-491 | The pre-sample ratio is clamped into `[0, 1]`, and written only with a trigger. |
| TiepieOsc.TiepieOsc.PreSampleRatio | uniswag/devices/oscilloscopes/tiepie_osc.py:467-478 | The getter gives the stored ratio exactly when there is a trigger, and '-' otherwise. |
| TiepieOsc.TiepieOsc.SetSegCnt | uniswag/devices/oscilloscopes/tiepie_osc.py:522-534 | The segment count is clamped into `[1, max]`, and written only with a trigger. |
| TiepieOsc.TiepieOsc.SegCnt | uniswag/devices/oscilloscopes/tiepie_osc.py:508-519 | The getter gives the stored count with a trigger, and 0 without. |
| TiepieOsc.TiepieOsc.SetTrigTimeout | uniswag/devices/oscilloscopes/tiepie_osc.py:559-570 | With a trigger, the timeout is the value, or -1 for a negative value. Without one, nothing changes. |
| TiepieOsc.TiepieOsc.SetTrigDelay | uniswag/devices/oscilloscopes/tiepie_osc.py:601-613 | The trigger delay is clamped into `[0, max]`, and written only with a trigger. |
| TiepieOsc.TiepieOsc.SetTrigHoldoff | uniswag/devices/oscilloscopes/tiepie_osc.py:644-656 | The trigger holdoff is clamped into `[0, max]`, and written only with a trigger. |
| MathOps.OperatorsAvail | uniswag/devices/oscilloscopes/math_osc.py:515-523 | The five operator symbols are listed in order, with no symbol twice. |
| MathOps.FromSymbol | uniswag/devices/oscilloscopes/math_osc.py:543-553 | A symbol names an operator exactly when it is one of the listed symbols. Any other symbol raises. |
| MathOps.SymbolRoundTrip | uniswag/devices/oscilloscopes/math_osc.py:526-553 | Setting an operator by symbol and reading it back gives that symbol, and every operator is reachable by a listed symbol. |
| MathOps.Apply | uniswag/devices/oscilloscopes/math_osc.py:556-638 | Each operator works element by element on equal-length vectors. |
| MathOps.OperatorMeaning | uniswag/devices/oscilloscopes/math_osc.py:556-638 | What each operator means for one pair of samples: subtraction undoes addition, addition commutes, and min and max bound and pick one of the two values. |
| MathOps.InsertSpec | uniswag/devices/oscilloscopes/math_osc.py:350 | Inserting a value into an ascending, duplicate-free vector keeps it ascending and duplicate-free, and adds exactly that value. |
| MathOps.Unique | uniswag/devices/oscilloscopes/math_osc.py:350 | Defines `np.unique` by sorted insertion. UniqueSpec states its meaning. |
| MathOps.UniqueSpec | uniswag/devices/oscilloscopes/math_osc.py:350 | `np.unique` yields an ascending, duplicate-free vector of exactly the input's values. |
| MathOps.IncreasingTail | uniswag/devices/oscilloscopes/math_osc.py:350 | The head of an ascending vector is its least value, and the tail holds every other value. |
| MathOps.IncreasingDeterminedByValues | uniswag/devices/oscilloscopes/math_osc.py:350 | Two ascending, duplicate-free vectors with the same values are equal, so the union of time vectors is determined by its values. |
| MathOps.LineEnds | uniswag/devices/oscilloscopes/math_osc.py:352-353 | The interpolating line passes through both neighbouring samples. |
| MathOps.ScanOnSegment | uniswag/devices/oscilloscopes/math_osc.py:352-353 | Inside a segment of increasing sample points, interpolation follows the line through that segment's two samples. |
| MathOps.Interp | uniswag/devices/oscilloscopes/math_osc.py:352-353 | Defines `np.interp(x, xs, ys, left=0, right=0)`. InterpSpec and InterpAtSample state its meaning. |
| MathOps.InterpSpec | uniswag/devices/oscilloscopes/math_osc.py:352-353 | `np.interp(..., left=0, right=0)` is 0 outside the sampled range and follows the line through the neighbouring samples inside it. |
| MathOps.InterpAtSample | uniswag/devices/oscilloscopes/math_osc.py:352-353 | At a sample point, interpolation returns that sample. |
| MathOps.InterpAll | uniswag/devices/oscilloscopes/math_osc.py:352-353 | Interpolating a time vector gives one value per time point. |
| MathOps.Xs | uniswag/devices/oscilloscopes/math_osc.py:344-348 | An operand's time vector lists its points' times, with the shift added. |
| MathOps.Ys | uniswag/devices/oscilloscopes/math_osc.py:344-348 | An operand's voltage vector lists its points' voltages. |
| MathOps.Combine | uniswag/devices/oscilloscopes/math_osc.py:330-357 | A missing operand entry gives no data. An empty operand graph raises. Otherwise the time and voltage vectors have equal, non-zero length. |
| MathOps.XsMember | uniswag/devices/oscilloscopes/math_osc.py:344-348 | A time occurs in an operand's shifted times exactly when one of its points, shifted, sits there. |
| MathOps.ConcatTimes | uniswag/devices/oscilloscopes/math_osc.py:350 | The concatenated time vectors hold exactly operand 1's times and operand 2's shifted times. |
| MathOps.CombinedTime | uniswag/devices/oscilloscopes/math_osc.py:350 | Defines the time vector of a successful `retrieve`: the unique union of both operands' times, operand 2 shifted. CombineSpec states its meaning. |
| MathOps.CombineSpec | uniswag/devices/oscilloscopes/math_osc.py:314-357 | A successful `retrieve` gives the ascending, duplicate-free union of operand 1's times and operand 2's shifted times. Each voltage is the operator applied to both operands interpolated at that time. |
| MathOsc.Label | uniswag/devices/oscilloscopes/math_osc.py:376-377 | An operand's name `Vendor Name (SerNo) - ChName No` is never empty. |
| MathOsc.ChannelItemsSpec | uniswag/devices/oscilloscopes/math_osc.py:373-378 | One oscilloscope contributes exactly its eligible channels, each under its label. |
| MathOsc.CandidatesSpec | uniswag/devices/oscilloscopes/math_osc.py:371-378 | The candidates are exactly the eligible channels of every listed oscilloscope, each under its label. A channel is eligible when it is not this math channel itself. |
| MathOsc.OperandsAvail | uniswag/devices/oscilloscopes/math_osc.py:369-382 | Defines `operands_avail`: every eligible channel under its label, then '-' for no operand. OperandsAvailKeys, OperandsAvailSound and OperandsAvailComplete state its meaning. |
| MathOsc.OperandsAvailKeys | uniswag/devices/oscilloscopes/math_osc.py:369-382 | `operands_avail` has unique names, and '-' stands for "no operand". |
| MathOsc.OperandsAvailSound | uniswag/devices/oscilloscopes/math_osc.py:369-382 | Every offered item is '-' with no operand, or an eligible channel under its own label. |
| MathOsc.OperandsAvailComplete | uniswag/devices/oscilloscopes/math_osc.py:369-382 | Every eligible channel of every oscilloscope is offered. |
| MathOsc.OperandFound | uniswag/devices/oscilloscopes/math_osc.py:416 | Looking up '-' gives "no operand". Any other hit is a listed, eligible channel whose label is the name looked up. |
| MathOsc.OperandLabel | uniswag/devices/oscilloscopes/math_osc.py:385-404 | The getter reads '-' exactly when the operand is unset. |
| MathOsc.OperandLabelRoundTrip | uniswag/devices/oscilloscopes/math_osc.py:385-427 | Setting an operand by any offered name and reading it back gives that name. |
| MathOsc.MathOscChannel.constructor | uniswag/devices/oscilloscopes/math_osc.py:250-306 | A new math channel is disabled and has no callbacks. Both operands are unset, the shift is 0 and the operator is '+'. |
| MathOsc.MathOscChannel.OperatorSymbol | uniswag/devices/oscilloscopes/math_osc.py:526-540 | The operator getter gives a listed symbol that names the current operator. |
| MathOsc.MathOscChannel.SetOperator | uniswag/devices/oscilloscopes/math_osc.py:543-553 | A listed symbol selects its operator and reads back as itself. An unknown symbol raises and changes nothing. |
| MathOsc.MathOscChannel.SetShift | uniswag/devices/oscilloscopes/math_osc.py:503-512 | The shift is stored as given. |
| MathOsc.MathOscChannel.SetEnabled | uniswag/devices/oscilloscopes/math_osc.py:309-312 | Only the local flag changes, and the callbacks stay as they were. |
| MathOsc.MathOscChannel.ResetOperand | uniswag/devices/oscilloscopes/math_osc.py:429-434 | A reset callback clears its own operand and leaves the other one alone. |
| MathOsc.MathOscChannel.Rebind | uniswag/devices/oscilloscopes/math_osc.py:417-427 | After rebinding, the operand is the new one and the other operand is unchanged. The new operand channel holds this channel's reset callback, and a previous, different operand channel no longer holds it. |
| MathOsc.MathOscChannel.SetOperand | uniswag/devices/oscilloscopes/math_osc.py:407-479 | The setter succeeds exactly when the name is offered. It then binds the offered channel, which belongs to a listed oscilloscope and reads back as the name. An unknown name raises and changes nothing, and the other operand is never touched. |
| MathOsc.MathOscChannel.Retrieve | uniswag/devices/oscilloscopes/math_osc.py:314-357 | An unset operand gives no data. Otherwise the result combines both operands' published graphs with the shift and the operator. |
| MathOsc.RunCallbacks | uniswag/devices/oscilloscopes/math_osc.py:242-244 | Running reset callbacks clears every operand they name, and changes no other operand except by clearing it. The frame is the targets' two operand fields only, so each target's operator, shift and channel stay as they were, as `_operand1_reset` and `_operand2_reset` (math_osc.py:429-434, 481-486) touch nothing else. |
| MathOsc.ReadingsNos | uniswag/devices/oscilloscopes/math_osc.py:67-85 | The readings are numbered within `1..n` in increasing order. |
| MathOsc.ReadingsMembers | uniswag/devices/oscilloscopes/math_osc.py:67-85 | The readings are exactly the data results of the enabled channels, numbered position plus 1. |
| MathOsc.ReadingsLast | uniswag/devices/oscilloscopes/math_osc.py:71-101 | The last reading's time vector is the last enabled channel's time vector, and it is not empty. |
| MathOsc.GatherReadingsKeys | uniswag/devices/oscilloscopes/math_osc.py:85 | The points dictionary has one key per channel that produced data. |
| MathOsc.GatherReadingsPoints | uniswag/devices/oscilloscopes/math_osc.py:79-85 | Each such channel's entry pairs its time vector with its voltages. |
| MathOsc.ReadingsVoltageBound | uniswag/devices/oscilloscopes/math_osc.py:88-93 | The voltage range bounds every voltage of every channel that produced data. |
| MathOsc.PublishedSnapshotSpec | uniswag/devices/oscilloscopes/math_osc.py:64-123 | The published snapshot has one entry per channel with data, holding that channel's points. The time range spans the last enabled channel's time vector, and the voltage range bounds every sample. |
| MathOsc.Collect | uniswag/devices/oscilloscopes/math_osc.py:64-101 | The channel loop raises exactly when some channel's handling raises. Otherwise it collects exactly the data readings and the last enabled channel's time vector. |
| MathOsc.MathOsc.constructor | uniswag/devices/oscilloscopes/math_osc.py:8-44 | The math oscilloscope starts stopped with one disabled channel with no operands, and with the initial snapshot. |
| MathOsc.MathOsc.Start | uniswag/devices/oscilloscopes/math_osc.py:148-178 | Starting succeeds exactly when stopped with some channel enabled. |
| MathOsc.MathOsc.Stop | uniswag/devices/oscilloscopes/math_osc.py:180-196 | Stopping succeeds exactly when running, and it stops afterwards. |
| MathOsc.MathOsc.AddCh | uniswag/devices/oscilloscopes/math_osc.py:198-212 | `add_ch` keeps the existing channels and appends a fresh, disabled channel numbered count plus 1, without operands. It returns that channel's id. |
| MathOsc.MathOsc.RemoveCh | uniswag/devices/oscilloscopes/math_osc.py:214-248 | `remove_ch` succeeds exactly when stopped with more than one channel. It then drops the last channel, returns its id and clears every operand whose callback that channel held. A callback target's other operand is kept unless it is cleared too, and only the targets' operand fields may change, so their operator and shift stay. Otherwise nothing changes. |
| MathOsc.MathOsc.ChanSeq | uniswag/devices/oscilloscopes/math_osc.py:198-212 | The channel list as base channels, in order. |
| MathOsc.MathOsc.InitDeletion | uniswag/devices/oscilloscope.py:73-77 | Removing the math oscilloscope runs every registered callback, in channel order, so every operand that pointed at it is cleared. A target's operands change only by being cleared, and only the targets' operand fields may change. |
| MathOsc.MathOsc.Results | uniswag/devices/oscilloscopes/math_osc.py:70-71 | There is one `retrieve` result per channel. |
| MathOsc.MathOsc.ResultsSane | uniswag/devices/oscilloscopes/math_osc.py:314-357 | Every data result pairs each time with a voltage and is never empty. |
| MathOsc.Outcome | uniswag/devices/oscilloscopes/math_osc.py:46-135 | Defines what one iteration does: nothing when stopped, a fault when a channel raises, a skip when the last enabled channel has no data, else publish. MathOsc.MathOsc.Step is specified against it. |
| MathOsc.MathOsc.Step | uniswag/devices/oscilloscopes/math_osc.py:46-135 | A running iteration publishes the gathered snapshot unless a channel raises or the last enabled channel had no data. A stopped iteration publishes nothing. |
| TiepieGen.PreviewType | uniswag/devices/generators/tiepie_gen.py:128-140 | The instrument's sine, square, pulse and arbitrary types keep their names, a triangle previews as a ramp, and anything else is 'unknown'. The preview is periodic exactly for the four periodic instrument types. |
| TiepieGen.ArbLimit | uniswag/devices/generators/tiepie_gen.py:169 | `max(abs(min), abs(max))` is non-negative, bounds every sample's magnitude and is attained by some sample. |
| TiepieGen.Normalized | uniswag/devices/generators/tiepie_gen.py:169-174 | Normalisation gives one value per raw sample. |
| TiepieGen.ScaleBounded | uniswag/devices/generators/tiepie_gen.py:170-174 | A sample within the limit, scaled by `amp / limit` and moved by the offset, stays within one amplitude of the offset. |
| TiepieGen.ScalePeak | uniswag/devices/generators/tiepie_gen.py:170-174 | A sample at the limit lands at the offset plus or minus the amplitude. |
| TiepieGen.Factor | uniswag/devices/generators/tiepie_gen.py:169-175 | Defines the normalising factor: the amplitude over the largest sample magnitude, or 0 when all samples are 0. NormalizedBounded and NormalizedReachesAmplitude state what it achieves. |
| TiepieGen.NormalizedBounded | uniswag/devices/generators/tiepie_gen.py:169-175 | Every previewed arbitrary sample lies within one amplitude of the offset. |
| TiepieGen.NormalizedReachesAmplitude | uniswag/devices/generators/tiepie_gen.py:169-175 | Unless every sample is zero, some previewed sample reaches the offset plus or minus the amplitude. |
| TiepieGen.NormalizedZeroLimit | uniswag/devices/generators/tiepie_gen.py:171-174 | All-zero samples all preview at the offset. |
| TiepieGen.Instrument.constructor | uniswag/devices/generators/tiepie_gen.py:7-35 | The instrument object starts with the given limits and settings, not generating and not closed. |
| TiepieGen.TiepieGenChannel.Refresh | uniswag/devices/generators/tiepie_gen.py:125-193 | The preview variables derived from the instrument keep a positive period. |
| TiepieGen.TiepieGenChannel.constructor | uniswag/devices/generators/tiepie_gen.py:88-123 | A new channel is numbered as given, with its output off and one zero sample as arbitrary data. Its preview is refreshed from the instrument, and nothing else on the instrument changes. |
| TiepieGen.TiepieGenChannel.UpdatePreview | uniswag/devices/generators/tiepie_gen.py:125-193 | The update, whose time vector is built point by point, yields exactly the refreshed preview variables. |
| TiepieGen.TiepieGenChannel.SetEnabled | uniswag/devices/generators/tiepie_gen.py:196-204 | While the instrument is controllable, the output and the local flag follow the value. Otherwise nothing changes. |
| TiepieGen.TiepieGenChannel.SetArbData | uniswag/devices/generators/tiepie_gen.py:206-228 | Waveform data is accepted exactly while controllable, in the arbitrary type and with at least the minimum length. Accepted data is truncated to the maximum length, uploaded, kept and previewed. Rejected data changes nothing. |
| TiepieGen.TiepieGenChannel.SetSigType | uniswag/devices/generators/tiepie_gen.py:268-276 | While controllable, only the signal type changes and the preview is refreshed. Otherwise nothing changes. |
| TiepieGen.TiepieGenChannel.Amp | uniswag/devices/generators/tiepie_gen.py:279-290 | The amplitude reads '-' exactly for a DC signal. |
| TiepieGen.TiepieGenChannel.SetAmp | uniswag/devices/generators/tiepie_gen.py:293-305 | While controllable and not DC, only the amplitude changes, to the clamped value, which reads back. Otherwise nothing changes. |
| TiepieGen.TiepieGenChannel.SetOffset | uniswag/devices/generators/tiepie_gen.py:363-375 | While controllable, only the offset changes, to the clamped value, and the preview follows it. Otherwise nothing changes. |
| TiepieGen.TiepieGenChannel.Freq | uniswag/devices/generators/tiepie_gen.py:378-389 | The frequency reads '-' exactly for a DC signal. |
| TiepieGen.TiepieGenChannel.SetFreq | uniswag/devices/generators/tiepie_gen.py:392-404 | While controllable and not DC, only the frequency changes, to the clamped value, which reads back. The preview period becomes its reciprocal. Otherwise nothing changes. |
| TiepieGen.TiepieGenChannel.FreqMode | uniswag/devices/generators/tiepie_gen.py:424-435 | The frequency mode reads '-' exactly for DC and noise. |
| TiepieGen.TiepieGenChannel.SetFreqMode | uniswag/devices/generators/tiepie_gen.py:438-446 | While controllable and neither DC nor noise, only the mode changes, and it reads back. Otherwise nothing changes. |
| TiepieGen.TiepieGenChannel.SetPhase | uniswag/devices/generators/tiepie_gen.py:457-469 | While controllable, only the phase changes, to the clamped value. Otherwise nothing changes. |
| TiepieGen.TiepieGenChannel.Symmetry | uniswag/devices/generators/tiepie_gen.py:472-483 | The symmetry reads '-' exactly for DC, noise and arbitrary signals. |
| TiepieGen.TiepieGenChannel.SetSymmetry | uniswag/devices/generators/tiepie_gen.py:486-498 | While controllable and the type has a symmetry, only the symmetry changes, to the clamped value, which reads back. Otherwise nothing changes. |
| TiepieGen.TiepieGenChannel.SetPulseWidth | uniswag/devices/generators/tiepie_gen.py:509-521 | While controllable, only the pulse width changes, to the clamped value. Otherwise nothing changes. |
| TiepieGen.TiepieGenChannel.SetMode | uniswag/devices/generators/tiepie_gen.py:543-550 | While controllable, only the mode changes. Otherwise nothing changes. |
| TiepieGen.TiepieGenChannel.BurstCnt | uniswag/devices/generators/tiepie_gen.py:553-564 | The burst count reads '-' exactly outside the 'burst count' mode. |
| TiepieGen.TiepieGenChannel.SetBurstCnt | uniswag/devices/generators/tiepie_gen.py:567-578 | In the 'burst count' mode while controllable, only the burst count changes, to the clamped value, which reads back. Otherwise nothing changes. |
| TiepieGen.TiepieGenChannel.SetBurstSampleCnt | uniswag/devices/generators/tiepie_gen.py:589-600 | While controllable, only the burst sample count changes, to the clamped value, which reads back. The segment count is untouched. |
| TiepieGen.TiepieGenChannel.BurstSegCntAsWritten | uniswag/devices/generators/tiepie_gen.py:603-608 | The getter as written reads the sample count. |
| TiepieGen.TiepieGenChannel.BurstSegCnt | uniswag/devices/generators/tiepie_gen.py:603-608 | The getter as intended reads the segment count. |
| TiepieGen.TiepieGenChannel.SetBurstSegCnt | uniswag/devices/generators/tiepie_gen.py:611-622 | While controllable, only the segment count changes, to the clamped value. It reads back through the intended getter, and the sample count is unchanged. |
| TiepieGen.SegCntAsWritten | uniswag/devices/generators/tiepie_gen.py:603-608 | Defines the segment count as the getter reads it: the burst sample count. SegCntAsWrittenLosesWrite exhibits the lost write. |
| TiepieGen.SegCnt | uniswag/devices/generators/tiepie_gen.py:620 | Defines the segment count as the setter writes it. SegCntRoundTrip states that it reads back. |
| TiepieGen.SegCntAsWrittenLosesWrite | uniswag/devices/generators/tiepie_gen.py:603-622 | Writing segment count 2 with sample count 1 and reading it back through the getter as written does not give 2. |
| TiepieGen.SegCntRoundTrip | uniswag/devices/generators/tiepie_gen.py:603-622 | Through the intended getter, a written segment count reads back. Writing it never changes what the getter as written reports. |
| TiepieGen.TiepieGen.constructor | uniswag/devices/generators/tiepie_gen.py:7-35 | A TiePie generator has one disabled channel numbered 1, which shares the instrument, and it is not running. |
| TiepieGen.TiepieGen.Start | uniswag/devices/generators/tiepie_gen.py:48-69 | Starting succeeds exactly while controllable, not running and with an enabled channel. Only then does the instrument start generating. |
| TiepieGen.TiepieGen.Stop | uniswag/devices/generators/tiepie_gen.py:71-84 | Stopping succeeds exactly while controllable and running. Only then does the instrument stop. |
| TiepieGen.TiepieGen.InitDeletion | uniswag/devices/generators/tiepie_gen.py:37-38 | Removing the generator closes the instrument. |
| TektronixGen.ResourceFromSerNo | uniswag/devices/generators/tektronix_gen.py:46-52 | A found resource is one of the listed resources. |
| TektronixGen.ResourceFromSerNoSpec | uniswag/devices/generators/tektronix_gen.py:46-52 | The lookup returns the first resource whose fourth `::` field is the serial number. It reports none exactly when every resource carries another serial number. It raises only at a resource without a fourth field that comes before any match. |
| TektronixGen.ResourceFound | uniswag/devices/generators/tektronix_gen.py:49-51 | A found resource carries the serial number, and every resource before it carries another one. |
| TektronixGen.ResourceNone | uniswag/devices/generators/tektronix_gen.py:49-52 | The lookup reports none exactly when every resource carries another serial number. |
| TektronixGen.ResourceMissing | uniswag/devices/generators/tektronix_gen.py:50 | The lookup raises only at a resource with fewer than four fields that comes before any match. |
| TektronixGen.Code | uniswag/devices/generators/tektronix_gen.py:224-229 | Defines one sample's 14-bit code: its distance from the minimum over the range, times 16383, truncated. CodeBounds and CodeMonotone state its meaning. |
| TektronixGen.CodeBounds | uniswag/devices/generators/tektronix_gen.py:224-229 | A sample within the waveform's range gets a code in `[0, 16383]`: the minimum gets 0 and the maximum 16383. |
| TektronixGen.CodeMonotone | uniswag/devices/generators/tektronix_gen.py:224-229 | A larger sample never gets a smaller code. |
| TektronixGen.Truncated | uniswag/devices/generators/tektronix_gen.py:218 | An upload takes the first 8192 samples at most. |
| TektronixGen.QuantizeAsWritten | uniswag/devices/generators/tektronix_gen.py:214-229 | Defines the codes as written, with no codes (None) where the range is zero. FlatSignalHasNoCodes and QuantizeAgreesAsWritten relate it to Quantize. |
| TektronixGen.FlatSignalHasNoCodes | uniswag/devices/generators/tektronix_gen.py:214-229 | Two equal samples pass the length check, yet the code computation as written divides 0 by 0. |
| TektronixGen.Quantize | uniswag/devices/generators/tektronix_gen.py:218-229 | Each uploaded sample gets one code. A flat waveform uploads code 0 throughout. |
| TektronixGen.QuantizeAgreesAsWritten | uniswag/devices/generators/tektronix_gen.py:218-229 | Wherever the written computation is defined, the corrected codes are exactly the written ones. |
| TektronixGen.QuantizeBounds | uniswag/devices/generators/tektronix_gen.py:224-229 | Every uploaded code lies in `[0, 16383]`. |
| TektronixGen.QuantizeMonotone | uniswag/devices/generators/tektronix_gen.py:224-229 | Codes keep the order of the samples. |
| TektronixGen.QuantizeEnds | uniswag/devices/generators/tektronix_gen.py:224-229 | Unless the waveform is flat, its smallest sample gets code 0 and its largest code 16383. |
| TektronixGen.PreviewType | uniswag/devices/generators/tektronix_gen.py:158-170 | Sine, ramp, square and pulse keep their names. 'memory' plus one character is exactly the arbitrary type. Anything else is 'unknown'. |
| TektronixGen.Denormalized | uniswag/devices/generators/tektronix_gen.py:182-185 | The preview shows one voltage per code read back. |
| TektronixGen.DenormalizedWindow | uniswag/devices/generators/tektronix_gen.py:182-185 | Code 0 shows as offset minus amplitude and 16383 as offset plus amplitude. Every valid code lies in between. |
| TektronixGen.WindowPoint | uniswag/devices/generators/tektronix_gen.py:183-184 | The scaling factor maps the code range onto the window from offset minus to offset plus amplitude. |
| TektronixGen.UploadPreviewSpansWindow | uniswag/devices/generators/tektronix_gen.py:182-229 | After uploading a waveform that is not flat, the preview shows its smallest sample at offset minus amplitude and its largest at offset plus amplitude. |
| TektronixGen.SigTypesAvail | uniswag/devices/generators/tektronix_gen.py:144-150 | The AFG1022 and AFG31052 offer their library's signal types, and any other model offers only '-'. |
| TektronixGen.TektronixGenChannel.Refresh | uniswag/devices/generators/tektronix_gen.py:155-196 | The preview type follows the instrument's type. The preview amplitude is half the peak-to-peak amplitude, the duty cycle is a fraction, the symmetry is 0.5, and there is one preview point per uploaded code. |
| TektronixGen.TektronixGenChannel.constructor | uniswag/devices/generators/tektronix_gen.py:116-153 | A new channel carries its number and is disabled. It offers its model's signal types, and its preview is refreshed from the instrument. |
| TektronixGen.TektronixGenChannel.UpdatePreview | uniswag/devices/generators/tektronix_gen.py:155-196 | The update, whose time vector is built point by point, yields exactly the refreshed preview variables. |
| TektronixGen.TektronixGenChannel.SetEnabled | uniswag/devices/generators/tektronix_gen.py:199-205 | The output and the local flag follow the value. |
| TektronixGen.TektronixGenChannel.SetArbData | uniswag/devices/generators/tektronix_gen.py:210-240 | Fewer than two samples are refused and change nothing. Otherwise the codes of at most 8192 samples are uploaded and previewed. |
| TektronixGen.TektronixGenChannel.SetOffset | uniswag/devices/generators/tektronix_gen.py:281-285 | Only the offset changes, and the preview shows it. |
| TektronixGen.TektronixGenChannel.SetAmp | uniswag/devices/generators/tektronix_gen.py:296-300 | Only the peak-to-peak amplitude changes, and the preview shows half of it. |
| TektronixGen.TektronixGenChannel.SetSigType | uniswag/devices/generators/tektronix_gen.py:316-320 | Only the signal type changes, and the preview takes its preview name. |
| TektronixGen.TektronixGenChannel.SetPhase | uniswag/devices/generators/tektronix_gen.py:361-365 | Only the phase changes, and the preview shows it in degrees. |
| TektronixGen.TektronixGenChannel.SetPeriod | uniswag/devices/generators/tektronix_gen.py:531-535 | Only the period changes, and the preview shows it. |
| TektronixGen.TektronixGenChannel.DutyCycle | uniswag/devices/generators/tektronix_gen.py:480-485 | The getter gives the instrument's percentage as a fraction. |
| TektronixGen.TektronixGenChannel.SetDutyCycle | uniswag/devices/generators/tektronix_gen.py:488-492 | The fraction is written as a percentage, and it reads back unchanged through the getter and the preview. |
| TektronixGen.TektronixGenChannel.BurstOn | uniswag/devices/generators/tektronix_gen.py:368-379 | The getter reports bursts on only where bursts are offered and switched on. |
| TektronixGen.TektronixGenChannel.BurstMode | uniswag/devices/generators/tektronix_gen.py:399-410 | The burst mode reads '-' exactly where bursts are not offered. |
| TektronixGen.TektronixGenChannel.BurstCnt | uniswag/devices/generators/tektronix_gen.py:425-436 | The burst count reads '-' exactly where bursts are not offered. |
| TektronixGen.TektronixGenChannel.SetBurstOn | uniswag/devices/generators/tektronix_gen.py:382-391 | Where bursts are offered, only the burst switch changes and it reads back. Elsewhere nothing changes. |
| TektronixGen.TektronixGenChannel.SetBurstMode | uniswag/devices/generators/tektronix_gen.py:413-422 | Where bursts are offered, only the burst mode changes and it reads back. Elsewhere nothing changes. |
| TektronixGen.TektronixGenChannel.SetBurstCnt | uniswag/devices/generators/tektronix_gen.py:439-448 | Where bursts are offered, only the burst count changes and it reads back. Elsewhere nothing changes. |
| TektronixGen.TektronixGen.constructor | uniswag/devices/generators/tektronix_gen.py:12-44 | The generator holds the resource that the serial-number lookup found, if any. It has one channel per instrument channel, numbered from 1, each with a refreshed preview. |
| TektronixGen.TektronixGen.IsRunning | uniswag/devices/generators/tektronix_gen.py:58-59 | `is_running` is always true. Start and Stop state that it stays so. |
| TektronixGen.TektronixGen.Start | uniswag/devices/generators/tektronix_gen.py:58-62 | `start` never succeeds, and the generator always counts as running. |
| TektronixGen.TektronixGen.Stop | uniswag/devices/generators/tektronix_gen.py:58-65 | `stop` never succeeds, and the generator always counts as running. |
| TektronixGen.TektronixGen.InitDeletion | uniswag/devices/generators/tektronix_gen.py:54-55 | Removing the generator closes the instrument connection. |
| UsbDaemon.Format | uniswag/usb_device_daemon.py:229-318 | Defines how each vendor branch formats a listed device. FormatSpec states what each branch keeps and sets. |
| UsbDaemon.Route | uniswag/usb_device_daemon.py:219-289 | Defines the vendor branch a bind takes: TiePie, Keysight or Tektronix by vendor information. The VISA branch is taken only on Windows. Otherwise no branch is taken. UsbDaemon.Daemon.OnBind is specified against it. |
| UsbDaemon.FormatSpec | uniswag/usb_device_daemon.py:229-318 | Formatting a listed device keeps its name and serial number. Only the Tektronix branch sets a type, 'OSC' exactly when the model contains 'TBS'. Only the VISA branch sets a vendor. |
| UsbDaemon.FormatAll | uniswag/usb_device_daemon.py:229-318 | Each branch's formatting loop formats every listed device, in order. |
| UsbDaemon.VendorValuesMembers | uniswag/usb_device_daemon.py:211-214 | The vendor information is exactly the values of the properties whose name contains 'VENDOR'. |
| UsbDaemon.VendorInfo | uniswag/usb_device_daemon.py:211-214 | The collecting loop gathers exactly the values of the 'VENDOR' properties. |
| UsbDaemon.FirstNew | uniswag/usb_device_daemon.py:395-403 | The registration loop stops at the first listed device that is not yet registered, and finds none only when every listed device is registered. |
| UsbDaemon.ShortIdAsWritten | uniswag/usb_device_daemon.py:410-414 | Defines the short id as written: it raises (None) when the formatted device has no 'Type'. ShortIdAsWrittenRaises exhibits this on three branches. |
| UsbDaemon.ShortIdAsWrittenRaises | uniswag/usb_device_daemon.py:410-414 | On the TiePie, Keysight and VISA branches the listed devices carry no 'Type', so building the short id raises. |
| UsbDaemon.ShortIdOf | uniswag/usb_device_daemon.py:410-414 | The corrected short id identifies the same device: same name and serial number. |
| UsbDaemon.ShortIdOfSpec | uniswag/usb_device_daemon.py:410-414 | The corrected short id succeeds on every branch and keeps the name, the serial number and any type. Where the written one does not raise, the two agree. |
| UsbDaemon.Registration | uniswag/usb_device_daemon.py:395-421 | Defines what `_add_new_device` registers: the first unregistered listed device, under the corrected short id, with the branch's or its own vendor. RegistrationSpec states its meaning. |
| UsbDaemon.RegistrationSpec | uniswag/usb_device_daemon.py:372-422 | Nothing is registered exactly when every listed device is already registered. Otherwise one listed, unregistered device is registered with the branch's vendor, or its own vendor when the branch has none. |
| UsbDaemon.ByVendorMembers | uniswag/usb_device_daemon.py:363-370 | A vendor's devices are exactly the short ids stored under that vendor. |
| UsbDaemon.IndexOf | uniswag/usb_device_daemon.py:331 | `list.index` gives the first position of the path. |
| UsbDaemon.Delete | uniswag/usb_device_daemon.py:336-338 | `del s[i]` removes exactly the element at `i` and keeps the order of the rest. |
| UsbDaemon.DeleteDistinct | uniswag/usb_device_daemon.py:336-338 | Deleting from a list of distinct paths removes that path entirely. |
| UsbDaemon.Daemon.constructor | uniswag/usb_device_daemon.py:21-102 | The daemon starts with empty lists, no events and no cached VISA identifications. |
| UsbDaemon.Daemon.DevicesFilteredByVendor | uniswag/usb_device_daemon.py:347-370 | The filter returns exactly the short ids registered under the vendor. |
| UsbDaemon.Daemon.AddNewDevice | uniswag/usb_device_daemon.py:372-422 | At most one device is registered: the first unregistered listed device. It is appended to all three lists and reported with an 'add' event. Otherwise nothing changes. |
| UsbDaemon.Daemon.OnBind | uniswag/usb_device_daemon.py:204-322 | A bind event of an unseen USB path from a known vendor registers the branch's new device. Any other bind changes nothing. The lists stay aligned, with distinct paths. The device is registered under the corrected short id (ShortIdOf), and a VISA bind lists the VISA devices (see Findings). As written, the TiePie and Keysight branches raise `KeyError` while registering, and the VISA branch raises `TypeError` before it lists anything. |
| UsbDaemon.Daemon.OnUnbind | uniswag/usb_device_daemon.py:324-342 | An unbind of a registered USB path deletes that entry from all three lists and reports it with a 'remove' event. Anything else changes nothing. |
| UsbDaemon.Daemon.PruneBusy | uniswag/usb_device_daemon.py:487-493 | Every cached identification of a resource no longer listed is forgotten. |
| UsbDaemon.Daemon.ListConnectedVisaDevices | uniswag/usb_device_daemon.py:469-523 | The listing identifies every usable USB resource, querying only those not cached, and the cache is updated to match. As written no bind reaches it (see Findings); it is modelled as the listing the VISA branch is evidently meant to use. |
| UsbDaemon.BindAsWrittenSpec | uniswag/usb_device_daemon.py:298-466 | As written, a VISA bind raises whatever is connected, because the bare listing method is iterated and the `TypeError` escapes the `OSError` handler. A TiePie or Keysight bind raises exactly when the corrected bind registers a device. A Tektronix bind agrees with the corrected one. |
| UsbDaemon.VisaBindAsWrittenLosesDevice | uniswag/usb_device_daemon.py:298-299 | A Tektronix AFG1022 reported through VISA makes the written bind raise, while the corrected bind registers it as a Tektronix device. |
| UsbDaemon.VisaBindRegisters | uniswag/usb_device_daemon.py:288-322 | The corrected VISA bind registers a device exactly when some connected device is registered under neither Keysight nor Tektronix. It registers such a device by model and serial number, under the vendor its manufacturer string names. |
| UsbDaemon.Formatted | uniswag/usb_device_daemon.py:229-318 | A branch's formatted listing has one entry per listed device. |
| UsbDaemon.FormattedVendors | uniswag/usb_device_daemon.py:310-318 | On the branch without a vendor, every formatted device carries its own vendor. |
| UsbDaemon.UnbindUndoesBind | uniswag/usb_device_daemon.py:331-338 | Unbinding the path that a bind just registered restores all three lists. |
| UsbDaemon.Prune | uniswag/usb_device_daemon.py:487-493 | The pruned cache keeps exactly the entries of listed resources, unchanged. |
| UsbDaemon.VisaListing | uniswag/usb_device_daemon.py:495-523 | Defines the VISA listing over the first `n` resources: the identification of each usable resource that has one. VisaListingSpec states its meaning. |
| UsbDaemon.CacheAt | uniswag/usb_device_daemon.py:500-516 | Defines the cache after the first `n` resources: every successful new query of a usable resource is added. CacheAtInfo, CacheAtGrows, CacheAtKeys and CacheSpec state its meaning. |
| UsbDaemon.CacheAtInfo | uniswag/usb_device_daemon.py:500-516 | Every cached identification is the resource's identification. |
| UsbDaemon.CacheAtGrows | uniswag/usb_device_daemon.py:500-516 | The listing loop only adds to the cache. |
| UsbDaemon.CacheAtKeys | uniswag/usb_device_daemon.py:500-516 | The cache holds the old entries and the usable resources seen so far that answered. |
| UsbDaemon.CacheSpec | uniswag/usb_device_daemon.py:484-523 | After the listing, the cache holds exactly the listed resources that were cached before or are usable and answered. |
| UsbDaemon.VisaListingSpec | uniswag/usb_device_daemon.py:495-523 | The listing holds one identification per usable resource that has one, and nothing else. |
| Connector.SignOf | uniswag/front_to_back_connector.py:646-647 | The factor in the tolerance formula is the sign of the nonzero limit. |
| Connector.SignQuotient | uniswag/front_to_back_connector.py:646-647 | `(-x) / (-abs(x))` is 1 for a positive limit and -1 for a negative one. |
| Connector.NewLower | uniswag/front_to_back_connector.py:645-652 | The new lower limit never cuts off data. A nonzero limit stays exactly while the minimum lies between the limit and a tenth of the limit's size above it. A zero limit follows the minimum. |
| Connector.NewUpper | uniswag/front_to_back_connector.py:654-661 | The new upper limit is never below the maximum. A nonzero limit stays exactly while the maximum lies within a tenth of its size below it. A zero limit follows the maximum. |
| Connector.Adjusted | uniswag/front_to_back_connector.py:645-679 | The adjusted axis always covers the data's extremes. |
| Connector.AdjustedSettles | uniswag/front_to_back_connector.py:645-679 | With nonzero extremes, adjusting twice for the same extremes changes nothing more: the limits settle. |
| Connector.Sanitized | uniswag/front_to_back_connector.py:190-196 | Sanitising keeps the length of the id. |
| Connector.SanitizedSpec | uniswag/front_to_back_connector.py:190-196 | Every character of the result may appear in a file name (alphanumeric or one of the twelve allowed characters). A character is kept exactly when it is allowed; the others become '_'. |
| Connector.SanitizedIdempotent | uniswag/front_to_back_connector.py:190-196 | Sanitising an already sanitised id changes nothing. |
| Connector.FileId | uniswag/front_to_back_connector.py:190-196 | The loop over 'Vendor_Name_SerNo' builds the sanitised id, a valid file name. |
| Connector.CallbackValue | uniswag/front_to_back_connector.py:1287-1292 | The callback gets no value when none was given, None for 'NaN' or the empty text, and the text itself otherwise. The same rule holds in the other three `access_*_property` methods. |
| Connector.LastIndex | uniswag/front_to_back_connector.py:911-915 | The search loop ends holding the last position of the number, and none exactly when it is absent. |
| Connector.RemoveAt | uniswag/front_to_back_connector.py:947 | `del` removes one element. |
| Connector.DistinctRemoveAt | uniswag/front_to_back_connector.py:947 | Deleting from a list without repeats keeps it so, and removes exactly the deleted number. |
| Connector.RemoveFirstAt | uniswag/front_to_back_connector.py:958 | `list.remove` deletes at the first position of the number. |
| Connector.Toggled | uniswag/front_to_back_connector.py:917-958 | Defines the update of an entry's shown numbers: an absent number is appended, a present one deleted at its last position. ToggledSpec and ToggledTwice state its meaning. |
| Connector.ToggledSpec | uniswag/front_to_back_connector.py:917-958 | Toggling a channel number in a list of distinct shown numbers flips its membership and leaves every other number alone. The list keeps no repeats, and deleting at the last position agrees with `enabled_channel_nos.remove`. |
| Connector.ToggledTwice | uniswag/front_to_back_connector.py:917-958 | Toggling an absent number twice restores the list. |
| Connector.Picked | uniswag/front_to_back_connector.py:1136-1142 | The collected numbers are at most the channels. |
| Connector.PickedSpec | uniswag/front_to_back_connector.py:1136-1142 | A number is collected exactly when a channel carrying it is enabled. Nothing is collected exactly when no channel is enabled. |
| Connector.PickedPrefix | uniswag/front_to_back_connector.py:1136-1142 | Each loop step appends the channel's number exactly when it is enabled. |
| Connector.DeviceIndex | uniswag/front_to_back_connector.py:900-901 | The loop over the device list finds the first device with the id, and none exactly when no device has it. |
| Connector.ChannelIndex | uniswag/front_to_back_connector.py:1211-1212 | The first channel with the number, and none exactly when no channel has it. |
| Connector.PyIndex | uniswag/front_to_back_connector.py:935-941 | `device.ch[channel_no - 1]` succeeds exactly for positions from minus the length up to the length, counting negative ones from the end. |
| Connector.Fallback | uniswag/front_to_back_connector.py:466-471 | The fallback channel belongs to the device. It is the channel numbered one below the removed one if there is one, else the first channel. |
| Connector.Cleared | uniswag/front_to_back_connector.py:373-399 | A removed selected oscilloscope clears the oscilloscope and its channel. Otherwise a removed selected generator clears the generator and its channel. Any other removal leaves the selection. |
| Connector.ClearedForgets | uniswag/front_to_back_connector.py:373-399 | After a removal the removed device is no longer selected. |
| Connector.ClearedAllForgets | uniswag/front_to_back_connector.py:368-399 | After a batch removal none of the removed devices is selected, and any selection left is the one before. |
| Connector.ClearedAllKeeps | uniswag/front_to_back_connector.py:368-399 | Removing more devices never brings a cleared selection back. |
| Connector.LastPosition | uniswag/front_to_back_connector.py:911-915 | The search loop computes the last position of the number. |
| Connector.SetEnabledAt | uniswag/front_to_back_connector.py:935-941 | Setting one channel's flag changes no other channel of the device. |
| Connector.ToggleOutputs | uniswag/front_to_back_connector.py:1113-1140 | Each channel ends with the flag the toggle demands, and the reported numbers are those of the channels enabled afterwards. |
| Connector.Connector.constructor | uniswag/front_to_back_connector.py:30-133 | The connector starts with nothing shown, nothing selected, no stop requested and both charts' axes at [0, 1]. |
| Connector.Connector.AddVisibleOsc | uniswag/front_to_back_connector.py:765-842 | An unknown device shows nothing. Without a channel number every channel is enabled and shown, numbered 1 to the channel count. With one, only the channel at that position is. The device's entry becomes exactly the shown numbers. |
| Connector.Connector.RemoveVisibleOsc | uniswag/front_to_back_connector.py:844-877 | Every channel of the shown oscilloscope is disabled, a full stop of the device is requested and it is no longer shown. |
| Connector.Connector.UpdateVisibleOsc | uniswag/front_to_back_connector.py:879-960 | The number's membership in the entry flips and its channel is enabled or disabled to match. An entry left empty is dropped and its device stopped. The reported numbers are the entry's. |
| Connector.Connector.VisibilityToggled | uniswag/front_to_back_connector.py:988-1019 | A hidden device becomes shown and a shown one hidden when no channel number is given. Otherwise the toggled number is shown afterwards exactly when it was not before, and no other number changes. |
| Connector.Connector.RemoveVisibleCh | uniswag/front_to_back_connector.py:1021-1066 | The number is no longer shown, and an emptied entry is dropped and its device stopped. An unknown device or number changes nothing. |
| Connector.Connector.OutputToggled | uniswag/front_to_back_connector.py:1091-1152 | Without a number, all channels are disabled if any was enabled and all are enabled otherwise. With one, exactly the channels carrying it flip. The enabled numbers are reported, and a device left with none enabled is stopped. |
| Connector.Connector.ToggleOutputOf | uniswag/front_to_back_connector.py:1103-1148 | On one device, the flags, the reported numbers and the requested stop follow the toggle rule. |
| Connector.Connector.DevicesRemoved | uniswag/front_to_back_connector.py:366-412 | After the removal branch no removed device is selected or shown, and the other selections remain. |
| Connector.Connector.DeviceRemoved | uniswag/front_to_back_connector.py:368-409 | After one removal the device is neither selected nor shown. |
| Connector.Connector.ChannelRemoved | uniswag/front_to_back_connector.py:445-471 | Removing the selected channel of the selected oscilloscope moves the selection to the fallback channel. A missing channel selection or an empty channel list raises. Any other removal changes nothing. |
| Connector.Connector.SetSelectedDevice | uniswag/front_to_back_connector.py:1155-1181 | The first listed device with the id becomes the selected oscilloscope or generator, by its type. An unknown id changes nothing. |
| Connector.Connector.SetSelectedChannel | uniswag/front_to_back_connector.py:1184-1232 | When the id names the selected device of its type, that device's first channel with the number becomes selected. Otherwise nothing changes. |
| Connector.Connector.SetChartAxisLimits | uniswag/front_to_back_connector.py:615-691 | A 'Norm' chart moves the normal chart's axes for the new extremes. Any other chart type moves the spectrum chart's axes. The other chart stays as it was. |
| OscProperties.SplitOnSeparators | uniswag/device_properties/osc_properties.py:87 | Splitting on the separator class `[][\'", ]` always gives at least one piece. |
| OscProperties.NonEmptyPieces | uniswag/device_properties/osc_properties.py:664 | `filter(None, ...)` keeps exactly the non-empty pieces. |
| OscProperties.SplitAtSeparator | uniswag/device_properties/osc_properties.py:661 | A separator ends one piece and starts the next, so the split of `a + sep + b` is the split of `a` followed by that of `b`. |
| OscProperties.SplitWord | uniswag/device_properties/osc_properties.py:661 | A text without separators is one piece. |
| OscProperties.PiecesFree | uniswag/device_properties/osc_properties.py:661 | No piece contains a separator. |
| OscProperties.TokensAtSeparator | uniswag/device_properties/osc_properties.py:661-664 | The tokens of `a + sep + b` are those of `a` followed by those of `b`. |
| OscProperties.TokensOfWord | uniswag/device_properties/osc_properties.py:661-664 | A non-empty text without separators is a single token. |
| OscProperties.TokensSpec | uniswag/device_properties/osc_properties.py:661-664 | Every token is non-empty and free of separators. |
| OscProperties.TokensOfPair | uniswag/device_properties/osc_properties.py:661-664 | A two-element list written in Python's notation splits into its two elements. |
| OscProperties.TokensOfPythonList | uniswag/device_properties/osc_properties.py:661-664 | "[1.5, 2]" splits into "1.5" and "2". |
| OscProperties.Converted | uniswag/device_properties/osc_properties.py:666-681 | A converted list has one value per token and is never empty. |
| OscProperties.ListInput | uniswag/device_properties/osc_properties.py:657-681 | A list is written only for a given input, and has one value per token of it. |
| OscProperties.ConvertTokens | uniswag/device_properties/osc_properties.py:666-681 | The conversion loop yields the converted list, or nothing once a token fails to parse. |
| OscProperties.ParseListInput | uniswag/device_properties/osc_properties.py:657-681 | The list handling yields exactly the list input. |
| OscProperties.ListInputSpec | uniswag/device_properties/osc_properties.py:657-681 | A list is written exactly when at least one token remains and every token parses. The i-th value is the i-th token's. |
| OscProperties.NumberInput | uniswag/device_properties/osc_properties.py:243-249 | A number is written exactly when there is an input and it parses, and it is the parsed value. |
| OscProperties.BoolInput | uniswag/device_properties/osc_properties.py:579-586 | Nothing is written without input. Only the text 'true' sets the flag; any other text clears it. |
| OscProperties.SampleFreqAccess | uniswag/device_properties/osc_properties.py:242-252 | A parsed frequency goes through the TiePie setter, which clamps it to [1, maximum]. Unparsable input changes nothing. The value read back is reported. |
| OscProperties.RecLenAccess | uniswag/device_properties/osc_properties.py:258-268 | A parsed record length goes through the TiePie setter, which clamps it to [1, maximum]. Unparsable input changes nothing. The value read back is reported. |
| OscProperties.TrigLvlAccess | uniswag/device_properties/osc_properties.py:657-685 | An accepted list on a channel with a trigger sets the levels, truncated to the channel's level count. Otherwise nothing changes. The report is what the `trig_lvl` getter gives: '-' (None) exactly without a trigger, and otherwise the levels, which after a write are the truncated input. |
| OscProperties.TrigHystAccess | uniswag/device_properties/osc_properties.py:691-719 | Outside the window kinds, an accepted list sets the hystereses, truncated to the hysteresis count and clamped to [0, 1], keeps the levels, and reports the stored hystereses. In a window kind it keeps the hystereses and rewrites the levels to the highest level and that level minus the first value times the range, and with a nonzero range and ordered levels it reports `[value[0]]`. Without input or a trigger nothing changes. The report is what the `trig_hyst` getter gives: '-' exactly without a trigger, and a raise exactly in a window kind with no levels before the call or a zero range. |
| OscProperties.TrigTimeAccess | uniswag/device_properties/osc_properties.py:744-772 | An accepted list sets the trigger times, truncated to the time count and clamped to [0, 1], when the channel has a trigger, the kind is not an edge kind and the condition is not 'none'. Otherwise, or without input, the times are unchanged. The report is what the `trig_time` getter gives: the times exactly in that applicable case, and '-' (None) otherwise. |
| OscProperties.StartNStopTiepie | uniswag/device_properties/osc_properties.py:132-152 | A stopped TiePie oscilloscope is started and a running one stopped. It reports running after starting exactly when the hardware was idle and a channel is enabled. After stopping it still runs unless the hardware was idle outside 'repeat' mode. |
| OscProperties.StartNStopMath | uniswag/device_properties/osc_properties.py:132-152 | The math oscilloscope runs afterwards exactly when it was stopped and has an enabled channel. |
| OscProperties.RemoveChAccess | uniswag/device_properties/osc_properties.py:108-118 | A channel is removed exactly when the math oscilloscope is stopped and has more than one channel. Then the last channel goes, and the reset callbacks clear the operands they name and change no other field. If the math oscilloscope's entry in the front end shows that number, it loses the number. An entry left empty is dropped and the oscilloscope is added to the full stops. Every other entry and the full stops stay as they were. If it was the selected channel of the selected oscilloscope, the selection falls back to the channel numbered one less, or else to the first. A refused removal changes nothing. |
| GenProperties.SplitOnce | uniswag/device_properties/gen_properties.py:184 | `split(sep, maxsplit=1)` gives one or two pieces. |
| GenProperties.SplitOnceSpec | uniswag/device_properties/gen_properties.py:184-186 | There are two pieces exactly when the separator occurs. The first piece ends at its first occurrence, the second is everything after it, and the pieces join back to the text. |
| GenProperties.FilePath | uniswag/device_properties/gen_properties.py:183-192 | Defines the path `_arb_data_thread` opens. FilePathSpec states its meaning. |
| GenProperties.FilePathSpec | uniswag/device_properties/gen_properties.py:183-192 | The opened file is what follows the first `:\` if there is one. Otherwise it is what follows the first `:` if there is one, otherwise the whole path. It is always a tail of the path. |
| GenProperties.IsCsv | uniswag/device_properties/gen_properties.py:195 | Defines `file[-4:] == '.csv'` with Python's slicing of a short text. IsCsvSpec states its meaning. |
| GenProperties.IsCsvSpec | uniswag/device_properties/gen_properties.py:195 | `file[-4:] == '.csv'` holds exactly for names ending in '.csv', short names included. |
| GenProperties.CsvValues | uniswag/device_properties/gen_properties.py:196-233 | An empty file gives no data. A first row with several fields gives those fields' values, unparsable ones as 0. Otherwise the data are the first fields of the rows after the header, an unparsable or missing field as 0. |
| GenProperties.ReadCsv | uniswag/device_properties/gen_properties.py:200-233 | The reading loop, with its early break and the header pop, computes exactly the file's waveform. |
| GenProperties.ColumnDropsHeader | uniswag/device_properties/gen_properties.py:222-233 | A one-column file with a header gives the column's values without the header. |
| GenProperties.ArbDataAccess | uniswag/device_properties/gen_properties.py:179-240 | Only an existing '.csv' file is read. The preview is refreshed exactly when the TiePie channel accepts the waveform: the channel is controllable, in 'arbitrary' mode, and the data meet the minimum length. The waveform is then stored, truncated to the maximum length. Otherwise nothing changes. |
| GenProperties.StartNStopTiepie | uniswag/device_properties/gen_properties.py:86-106 | A stopped TiePie generator starts, running afterwards exactly when it is controllable and has an enabled channel. A running one stops, still running only when it is not controllable. The reported state is the generator's. |
| GenProperties.StartNStopTektronix | uniswag/device_properties/gen_properties.py:86-106 | A Tektronix generator always reports running, because its start and stop change nothing. |

## Left out

- Vendor SDKs and instruments (libtiepie, PyVISA, the Hantek DLL): their answers are parameters or fields of an instrument object. Their values are not modelled beyond the limits and clamping the drivers apply.
- Threads, locks, barriers and `time.sleep` polling: every operation is modelled as one atomic step. Interleavings and deadlocks are not modelled.
- Qt signals, chart series, colours, file export of CSV and PNG, and `print`: these are outputs to the front end or the console with no effect on the modelled state. Only the values passed to them are modelled.
- Floating point: numbers are `real`. Rounding, NaN and infinities are not modelled, except where the flat-signal finding depends on them.
- Python's `float()` and `int()` on text are the `parse` parameter, which may fail. `str.isalnum` is modelled for ASCII only.
- `os.path.normpath`, `os.path.exists` and the CSV reader: existence and the rows read are parameters of `GenProperties.ArbDataAccess`.
- The platform check `sys.platform == 'win32'` is the `windows` parameter. The WMI and pyudev event sources are left out; events arrive as method calls.
- `_get_non_formatted_device_list` polls the vendor libraries with a timeout, until more devices are listed than registered. Its result is the `connected` parameter of `UsbDaemon.Daemon.OnBind`. On the VISA branch the source raises in this loop (see Findings); OnBind models the corrected branch, and UsbDaemon.BindAsWritten models the written one.
- The frozenset key of the connector's visible-oscilloscope dictionary is the device id itself, so two ids with the same values in a different role are not told apart.
- Connector.Connector.OutputToggled: the source's loop has no `break`, so it toggles every listed device with the id and reports each one. The model toggles only the first; device ids are unique in the device list in practice.
- Setting a channel's `is_enabled` from the connector is modelled as setting a flag. Any further reaction of the vendor driver to it is not modelled.
- The `update_signal_preview` emits, the math-channel property reload, the generator preview thread and the signals `channel_list_update` sends are front-end refreshes. They are not modelled. The selection fallback in the 'remove' branch of `channel_list_update` is modelled, as Connector.Connector.ChannelRemoved.
- OscProperties.RemoveChAccess: in the source the connector's selected oscilloscope is the math oscilloscope object itself. The model keeps the connector's `Device` record of it apart from MathOsc's own channel list, so the fallback channel is chosen from that record. The record's channel list is not shortened together with MathOsc.ch. An exception raised by the channel-list update is not passed on.
- TiepieGen.TiepieGenChannel.SetAmp: reading or writing a setting the instrument lacks raises `OSError` in the source, with the device lock still held. Examples are `amplitude_max`, `freq`, `phase`, `symmetry` and `pulse_width`. The model consults the `missing` settings only when the preview is refreshed. The same holds for Amp, SetOffset, Freq, SetFreq, FreqMode, SetFreqMode, SetPhase, Symmetry, SetSymmetry, SetPulseWidth, SetMode and the burst getters and setters.
- Generator.SignalPreview: the waveforms are the `wave` parameter. It stands for numpy's sine and scipy's square and sawtooth, evaluated with the phase in degrees over 360 and the symmetry or duty cycle. The contract fixes how time points are laid out and how each voltage is scaled and offset from the waveform value. It does not fix the waveform shapes.
- UsbDaemon.Daemon.ListConnectedVisaDevices: an `*IDN?` answer with fewer than three comma-separated parts raises `IndexError`, which the `except` clause does not catch, so the listing aborts. The `query` parameter folds every failed identification into no answer, and the listing goes on.
- The property threads are modelled for one driver each: TiePie for the oscilloscope settings, the math oscilloscope for channel removal, TiePie and Tektronix for generator start and stop. The other drivers' setters are modelled in their own modules.
- FFT: only the number of spectrum points is modelled, not their values.
- Int parsing of channel numbers in the front-end callbacks is taken as given: channel numbers arrive as integers.
- TektronixGen.TektronixGen.constructor: requires that the instrument reports every field. The source raises on a missing field, and that path is not modelled.
- TektronixGen.TektronixGenChannel.SetPhase: the instrument stores radians via `math.radians` and `math.degrees`. The model keeps degrees, taking the conversion as exact.
- TiepieGen.TiepieGenChannel.Refresh: its contract only states that the period stays positive. It serves as the reference the setters are specified against.
- MathOsc.MathOsc.Step: does not model the `_was_stopped` notification that a stopped iteration sends.
- The property threads that only hand a converted value to a driver setter and read it back are not modelled one by one; the setters are modelled in the driver modules. `_range_thread` converts without a `try`, so an unparsable range raises inside its thread. That path is not modelled.

## Findings

| source | as written | input that shows it | evidently intended | confidence | as-written member | corrected member |
|---|---|---|---|---|---|---|
| uniswag/usb_device_daemon.py:410-414 | The short id reads `plugged_in_device['Type']`. Only the Tektronix branch's formatted devices carry a 'Type', so every TiePie or Keysight registration raises `KeyError`. (A VISA bind never gets this far: see the next row.) | A bind of a TiePie device: its formatted entry has 'Name' and 'SerNo' but no 'Type'. | The short id holds name and serial number, plus the type where one is known. | not executed | UsbDaemon.ShortIdAsWrittenRaises | UsbDaemon.ShortIdOfSpec |
| uniswag/usb_device_daemon.py:298-299 | The VISA branch passes the bare method `self._list_connected_visa_devices` where a list of listing functions is expected. The loop `for function in ...` of `_get_non_formatted_device_list` (line 453) raises `TypeError` on it, which the `except OSError` at line 457 does not catch, so the bind raises before anything is listed or registered. | A VISA bind on Windows of a Tektronix AFG1022, with nothing registered. | The listing method is passed in a one-element list, as on the other branches, and the new device is registered under the vendor its manufacturer names. | not executed | UsbDaemon.VisaBindAsWrittenLosesDevice | UsbDaemon.VisaBindRegisters |
| uniswag/devices/generators/tiepie_gen.py:603-608 | The `burst_seg_cnt` getter returns `burst_sample_cnt`. | Burst sample count 1, then `burst_seg_cnt = 2`: the getter reads 1. | The getter returns `burst_segment_cnt`, the count its setter writes. | not executed | TiepieGen.SegCntAsWrittenLosesWrite | TiepieGen.SegCntRoundTrip |
| uniswag/devices/generators/tektronix_gen.py:224-229 | The codes divide by `max - min`. For a flat waveform that is 0/0, and the integer cast of NaN is undefined. | `arb_data([0.5, 0.5])`: two equal samples pass the length check. | A flat waveform uploads a constant code, here 0. | not executed | TektronixGen.FlatSignalHasNoCodes | TektronixGen.QuantizeBounds |
