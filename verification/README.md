# infocenter core in Dafny

A functional model of the sequential logic inside the `infocenter` home
dashboard service:

- the Xiaomi gateway transport: envelope encoding, classification of received
  datagrams into acknowledgements and events, the pending-request table, the
  heartbeat/report consumer tables, request framing with the encrypted `key`,
  `Start`, and the two request helpers;
- the `sensor_ht` and `weather.v1` payload decoders, with Go's
  `strconv.ParseInt(s, 10, 32)` written out;
- the gateway bootstrap (`Gateway.Init`) over abstract request outcomes, and
  the delivery of later events to the sensors it built;
- the Bluetooth thermometer's `T=.. H=..` notification parser;
- the presentation layer: battery percentage, the condition table, the
  current-weather and forecast mapping, unit conversions, the `/sensors`
  listing and the weather image paths.

Goroutines, channels, sockets and timers are replaced by inputs: how opening
the sockets went (`Transport.Sockets`), what the network did to a request
(`Transport.Network`: the send failed, silence until the deadline, or one
decoded datagram), and what `json.Unmarshal` made of a text (an `Option`).
AES-CBC, `json.Marshal` of request parameters and `strconv.ParseFloat` are
function-typed parameters. Readings of the gateway sensors are integers
(millivolts, hundredths, raw pressure); floating point elsewhere is `real`.
Clock readings are a `now: nat` parameter.

Files: `wrappers.dfy` (Option/Result), `errors.dfy` (error chains as `%w`
builds them), `decimal.dfy` (ParseInt and `%d`), `text.dfy` (Split, Join,
TrimSpace), `hex.dfy` (`%X`), `address.dfy` (IPv4 literals), `envelope.dfy`,
`pending.dfy`, `events.dfy`, `transport.dfy`, `sensors.dfy`, `gateway.dfy`,
`ble.dfy`, `weather.dfy`, `web.dfy`.

Where the code differs from what a reader might expect, the model follows the code:

- The AES key is the configured token; the plaintext that is encrypted into
  `key` is the session token the gateway sent back (`gatewayToken`), under the
  fixed IV (service/devices/xiaomi/transport/process_commands.go:73-75).
- A failing bootstrap keeps the sensors appended before the failure
  (service/devices/xiaomi/xiaomi.go:59,66).
- `RequestReadDevice` reports its failure with the text of the device-list
  request, and `NewWeatherV1` with the text of `sensor_ht`; the model keeps
  those reasons (`GetDevicesList`, `CreateSensor`).
- A failed `Init` of the weather service leaves it with no conditions, not
  with the table it had before (service/weather/weather.go:54).
- The gateway bootstrap calls `Start` as it is written, so it carries the start
  defect listed under Findings (`Gateway.BootstrapStartTimeout`).

## Model

| member | source | states |
|---|---|---|
| Decimal.ParseInt32 | service/devices/xiaomi/device/sensor_ht.go:103 | a parsed value lies in the int32 range; every failure is a syntax or a range error |
| Decimal.ParseInt32Spec | service/devices/xiaomi/device/sensor_ht.go:103-106 | parsing succeeds exactly on an optional sign followed by at least one digit whose signed value is an int32, and returns that value |
| Decimal.ScanUint32Value | service/devices/xiaomi/device/sensor_ht.go:103 | the digit scan with its early 32-bit overflow check accepts exactly all-digit text whose value fits 32 bits, and returns that value |
| Decimal.FormatNat | service/weather/weather.go:188 | `%d` of a natural number is non-empty, all digits, without a leading zero |
| Decimal.FormatNatValue | service/weather/weather.go:188 | the digits of `%d` denote the number |
| Decimal.FormatInt | service/weather/weather.go:188 | `%d` text is non-empty and starts with `-` exactly for negative numbers |
| Decimal.ParseFormatInt32 | service/weather/weather.go:188 | `%d` and ParseInt are inverse on the int32 range |
| Errors.WrapKeepsCause | service/devices/xiaomi/transport/request_get_devices.go:10-12 | wrapping with `%w` keeps every reason of the wrapped error reachable |
| Errors.RootIsMentioned | service/devices/xiaomi/transport/request_get_devices.go:10-12 | the innermost cause of an error chain is mentioned in it |
| Text.Split | service/devices/bluetooth/xiaomi_th.go:154 | one more part than separators, and no part contains the separator |
| Text.JoinSplit | service/devices/bluetooth/xiaomi_th.go:154 | joining the parts with the separator gives the text back |
| Text.SplitJoin | service/devices/bluetooth/xiaomi_th.go:154 | splitting separator-free parts joined by the separator gives the parts back |
| Text.SplitFree | service/devices/bluetooth/xiaomi_th.go:154 | text without the separator is one part |
| Text.SplitPrefix | service/devices/bluetooth/xiaomi_th.go:154 | a separator-free prefix followed by the separator is the first part |
| Text.TrimLeft | service/devices/bluetooth/xiaomi_th.go:149 | the result is a suffix, only white space was cut, and it does not start with white space |
| Text.TrimRight | service/devices/bluetooth/xiaomi_th.go:149 | the result is a prefix, only white space was cut, and it does not end with white space |
| Text.TrimSpace | service/devices/bluetooth/xiaomi_th.go:147-152 | the result is a middle slice with only white space cut off either side, and neither end is white space |
| Text.TrimSpaceUntouched | service/devices/bluetooth/xiaomi_th.go:149 | text that neither starts nor ends with white space is unchanged |
| Hex.UpperHex | service/devices/xiaomi/transport/process_commands.go:84 | `%X` writes two characters per byte |
| Hex.DecodeUpperHex | service/devices/xiaomi/transport/process_commands.go:84 | reading the `%X` text back gives the encrypted bytes, so the key text loses nothing |
| Address.ParseIPv4 | service/devices/xiaomi/transport/transport.go:41-44 | an address is accepted exactly when it is four dot-separated decimal octets without leading zeros, and then prints back as the same text |
| Address.ParseFormatIPv4 | service/devices/xiaomi/transport/transport.go:41 | printing an address and parsing it gives the address back |
| Envelope.Fields | service/devices/xiaomi/transport/model.go:5-11 | `cmd` is always written; `sid`, `model`, `data` and `token` are written exactly when non-empty |
| Envelope.DecodeFields | service/devices/xiaomi/transport/model.go:5-11 | decoding the written members gives the envelope back, so omitting empty members loses nothing |
| PendingTable.Queue | service/devices/xiaomi/transport/process_commands.go:25-36 | registering a name fails exactly when it is present, leaving the table alone; otherwise exactly that name is added |
| PendingTable.Get | service/devices/xiaomi/transport/process_commands.go:38-43 | the waiter is found exactly when the name is registered |
| PendingTable.Drop | service/devices/xiaomi/transport/process_commands.go:45-53 | removes the name and nothing else and returns what was registered under it |
| PendingTable.DropIdempotent | service/devices/xiaomi/transport/process_commands.go:45-53 | dropping twice is dropping once; dropping an absent name changes nothing |
| PendingTable.QueueThenDrop | service/devices/xiaomi/transport/process_commands.go:25-53 | queue then drop of a free name restores the table and returns the waiter |
| PendingTable.OneWaiterPerName | service/devices/xiaomi/transport/process_commands.go:29-31 | a second registration of a name fails until the name is dropped |
| EventRouter.RegisterHeartbeat | service/devices/xiaomi/transport/process_events.go:7-12 | sets the SID's heartbeat consumer, keeps the others and leaves the report table alone |
| EventRouter.RegisterReport | service/devices/xiaomi/transport/process_events.go:14-19 | sets the SID's report consumer, keeps the others and leaves the heartbeat table alone |
| EventRouter.ProcessEvent | service/devices/xiaomi/transport/process_events.go:21-44 | `heartbeat`/`report` invoke the consumer registered for the SID with the envelope's data; no consumer means nothing happens; any other command is unknown |
| EventRouter.LaterRegistrationWins | service/devices/xiaomi/transport/process_events.go:7-12 | of two registrations for one SID only the later is invoked |
| EventRouter.TablesIndependent | service/devices/xiaomi/transport/process_events.go:7-19 | registering in one table never changes how the other kind of event is routed |
| Transport.New | service/devices/xiaomi/transport/transport.go:35-58 | succeeds exactly for a 16/24/32-byte token and an IP literal; the token is checked first and its error is wrapped; a new transport has no identity and empty tables |
| Transport.CutAckSuffix | service/devices/xiaomi/transport/transport.go:190 | one trailing `_ack` is removed exactly when present |
| Transport.Classify | service/devices/xiaomi/transport/transport.go:190-196 | an envelope is an acknowledgement exactly when its command ends in `_ack`, with the suffix removed; otherwise an unchanged event |
| Transport.AckOfName | service/devices/xiaomi/transport/transport.go:190-194 | a name with `_ack` appended is classified as the acknowledgement of exactly that name |
| Transport.DoubleSuffix | service/devices/xiaomi/transport/transport.go:190 | `x_ack_ack` acknowledges `x_ack` |
| Transport.Receive | service/devices/xiaomi/transport/transport.go:181-197 | an undecodable datagram is dropped; acknowledgements go to the waiter of their name or are unexpected; events go to the router |
| Transport.ProcessIncomingCmd | service/devices/xiaomi/transport/process_commands.go:11-23 | an acknowledgement without a waiter is reported as unexpected with the envelope; with one, that name's waiter receives the envelope and its `data` text |
| Transport.RequestData | service/devices/xiaomi/transport/process_commands.go:81-86 | the parameters always hold `key`, which overrides a caller's `key`; nil parameters give only `key` |
| Transport.Frame | service/devices/xiaomi/transport/process_commands.go:76-86 | the written envelope carries the SID and command, and `data` is the JSON text of the parameters |
| Transport.Request | service/devices/xiaomi/transport/process_commands.go:55-116 | a duplicate name fails with nothing written; otherwise the name is registered and the envelope written; a failed send reports an error and keeps the name |
| Transport.Await | service/devices/xiaomi/transport/process_commands.go:118-134 | timeout and answer both drop the name and deliver exactly one response |
| Transport.Exchange | service/devices/xiaomi/transport/process_commands.go:55-134 | one request with its wait never changes the identity or routes; only a send failure leaves the table changed |
| Transport.ExchangeAcknowledged | service/devices/xiaomi/transport/process_commands.go:118-134 | the acknowledgement of a pending request reaches the caller with the suffix removed and its data |
| Transport.SendFailureBlocksName | service/devices/xiaomi/transport/process_commands.go:100-111 | after a failed send the next request with that name fails as a duplicate and writes nothing |
| Transport.StartAsWritten | service/devices/xiaomi/transport/transport.go:110-113 | as the code is written and as the gateway calls it: the same state effects as the corrected `Start`, but a failed bootstrap request returns an error without a cause |
| Transport.Start | service/devices/xiaomi/transport/transport.go:86-123 | sends `get_id_list` with an empty SID; on success the reply's SID and token become the gateway's and its heartbeat consumer is registered; on failure identity and routes stay as they were |
| Transport.StartLearnsIdentity | service/devices/xiaomi/transport/transport.go:110-118 | an acknowledged start stores the reply's SID and token and routes the gateway's heartbeat |
| Transport.StartAsWrittenLosesCause | service/devices/xiaomi/transport/transport.go:110-113 | on a timed-out bootstrap the code's error does not mention the timeout, the corrected one does |
| Transport.RequestGetChildDevicesIDs | service/devices/xiaomi/transport/request_get_devices.go:7-21 | sends `get_id_list` to the gateway SID; a failed request is wrapped as the cause of the device-list error; an undecodable reply is a parse error; a decodable one gives the decoded list as received |
| Transport.RequestReadDevice | service/devices/xiaomi/transport/request_read_device.go:12-22 | sends `read` to the SID; an error wraps the request's; success returns the reply's model and data |
| Transport.ReadDeviceReply | service/devices/xiaomi/transport/request_read_device.go:18-21 | an acknowledged read returns the envelope's model and data unchanged |
| Device.ParseField | service/devices/xiaomi/device/sensor_ht.go:102-110 | a present field must parse as an int32; an absent one keeps the prior value |
| Device.ParseClimate | service/devices/xiaomi/device/sensor_ht.go:97-120 | voltage, temperature, humidity in that order; an absent field keeps its value; the first bad field stops the parse and earlier fields stay stored |
| Device.ParseHT | service/devices/xiaomi/device/sensor_ht.go:90-130 | malformed JSON changes nothing; success refreshes the timestamp, an error never does |
| Device.ParseWeather | service/devices/xiaomi/device/weather_v1.go:98-148 | as `sensor_ht`, then an unscaled pressure; a bad pressure is reported after the other three are stored |
| Device.LastUpdateAt | service/devices/xiaomi/device/sensor_ht.go:40-47 | the zero time exactly until the first successful parse |
| Device.RegisterSensor | service/devices/xiaomi/device/sensor_ht.go:72-73 | both consumers of the sensor are registered under its SID |
| Device.NewSensorHT | service/devices/xiaomi/device/sensor_ht.go:57-76 | the sensor is what the initial payload makes of zero readings; on failure the parse error is wrapped with the SID and nothing is registered; on success both consumers are registered |
| Device.NewWeatherV1 | service/devices/xiaomi/device/weather_v1.go:60-80 | as `NewSensorHT`, with zero pressure before the payload and the weather station's parse |
| Device.OnEventHT | service/devices/xiaomi/device/sensor_ht.go:49-55 | a heartbeat or report applies the payload as `parseData` does and discards the error: the SID is kept and malformed JSON leaves the sensor unchanged |
| Device.OnEventWeather | service/devices/xiaomi/device/weather_v1.go:52-58 | the same for the weather station, through its own `parseData` |
| Device.ExampleHT | service/devices/xiaomi/device/sensor_ht.go:97-126 | payload 3000/"215"/"612" gives those readings; a later payload with only temperature "220" changes only the temperature |
| Device.PartialUpdate | service/devices/xiaomi/device/sensor_ht.go:102-120 | a good temperature before a bad humidity is stored while humidity and timestamp are not |
| Gateway.NewGateway | service/devices/xiaomi/xiaomi.go:14-23 | fails exactly when the transport cannot be created, wrapping its error; otherwise an empty collection |
| Gateway.ReadOne | service/devices/xiaomi/xiaomi.go:47-67 | a failed read stops the loop naming the device; `sensor_ht` and `weather.v1` append the sensor built from the device's data, or stop with that model's constructor error; any other model is skipped without an error; a stop leaves the collection untouched |
| Gateway.Init | service/devices/xiaomi/xiaomi.go:34-73 | the loop computes the bootstrap: start (as written), list, then each device in list order with the per-device dispatch of `ReadOne`; the first failure stops it; it only ever appends |
| Gateway.ReadChildrenAppends | service/devices/xiaomi/xiaomi.go:46-68 | the loop only appends, and the appended SIDs are a subsequence of the device list in list order |
| Gateway.ReadChildrenErrors | service/devices/xiaomi/xiaomi.go:47-64 | a loop error is a read error for a named SID or a sensor construction error |
| Gateway.BootstrapStartTimeout | service/devices/xiaomi/xiaomi.go:35-38 | when the bootstrap request times out, `Init` fails with the start and device-list messages only, without the timeout, and no device is read |
| Gateway.BootstrapErrors | service/devices/xiaomi/xiaomi.go:35-43 | a start failure aborts before any device is read with the collection unchanged; every error names the failed step |
| Gateway.FailureKeepsEarlierSensors | service/devices/xiaomi/xiaomi.go:46-66 | a second device failing keeps the sensor built for the first |
| Gateway.ReadOneWired | service/devices/xiaomi/xiaomi.go:52-66 | a built sensor is routed under its own SID to the slot it was appended at |
| Gateway.ReadChildrenWired | service/devices/xiaomi/xiaomi.go:46-68 | the loop keeps every route pointing at the sensor of that SID |
| Gateway.BootstrapWired | service/devices/xiaomi/xiaomi.go:34-73 | the whole bootstrap keeps every route sound, whatever the network does |
| Gateway.OnEvent | service/devices/xiaomi/device/sensor_ht.go:49-55 | a gateway sensor handles an event with the decoder of its own model and keeps its SID and model |
| Gateway.DeliverEvent | service/devices/xiaomi/transport/process_events.go:21-44 | an event routed to a sensor's consumer replaces that sensor by the result of its `parseData` on the event's data; no other sensor changes; SIDs, size and transport stay |
| Gateway.EventReachesItsSensor | service/devices/xiaomi/transport/process_events.go:23-40 | on a soundly routed gateway a sensor event reaches the sensor with the event's SID and no other |
| XiaomiTH.NewXiaomiTH | service/devices/bluetooth/xiaomi_th.go:36-49 | a new device reads temperature 0, humidity 0 and battery 0 |
| XiaomiTH.Payload | service/devices/bluetooth/xiaomi_th.go:147-152 | one trailing NUL is removed before trimming |
| XiaomiTH.TokenValue | service/devices/bluetooth/xiaomi_th.go:164-180 | a token sets a quantity exactly when it is longer than two bytes, starts with the tag and the text after two bytes parses |
| XiaomiTH.HandleDataNotify | service/devices/bluetooth/xiaomi_th.go:142-187 | an empty notification or one that is not exactly two space-separated tokens changes nothing; otherwise the reading is decoded from the tokens |
| XiaomiTH.DecodeTwo | service/devices/bluetooth/xiaomi_th.go:159-181 | each quantity comes from the last token carrying a parsable value for it, else 0 |
| XiaomiTH.NotifyReplacesWholesale | service/devices/bluetooth/xiaomi_th.go:159-186 | an accepted notification gives the same reading whatever the previous one was |
| XiaomiTH.NulTerminatorIgnored | service/devices/bluetooth/xiaomi_th.go:147-152 | a NUL terminator makes no difference unless the text already ends with NUL |
| XiaomiTH.TwoTokens | service/devices/bluetooth/xiaomi_th.go:147-157 | two tokens without white space joined by a space pass the trim and split as those two tokens |
| XiaomiTH.TaggedToken | service/devices/bluetooth/xiaomi_th.go:169-180 | `<tag>=<number>` sets only the quantity of its tag |
| XiaomiTH.NotifyTemperatureHumidity | service/devices/bluetooth/xiaomi_th.go:154-186 | `T=<a> H=<b>` sets temperature and humidity from the parsed texts, 0 for a rejected text |
| XiaomiTH.SamplePayload | service/devices/bluetooth/xiaomi_th_test.go:16-21 | `T=27.3 H=30.4` gives 27.3 and 30.4 |
| XiaomiTH.SamplePayloadNulTerminated | service/devices/bluetooth/xiaomi_th_test.go:9-14 | the NUL-terminated sample gives the same reading |
| Weather.BuildConditions | service/weather/weather.go:252-255 | the table's codes are exactly the map's keys, each mapped to an entry with that code |
| Weather.LastEntryWins | service/weather/weather.go:253-255 | of entries sharing a code the last one is kept |
| Weather.ParseConditions | service/weather/weather.go:245-258 | a decode failure is an error; otherwise the map indexes the table by code, the last entry for a code winning |
| Weather.GetCondition | service/weather/weather.go:178-191 | day text by day, night text by night; an unknown code gives empty text and image `0` |
| Weather.ImageCodeIsIcon | service/weather/weather.go:188 | the image code reads back as the entry's icon number |
| Weather.Round | service/weather/weather.go:261 | the nearest integer, halves away from zero |
| Weather.ToUint16 | service/weather/weather.go:261 | a conversion to uint16 keeps values in range |
| Weather.MBarToMmHg | service/weather/weather.go:260-262 | the pressure is a uint16 |
| Weather.MBarToMmHgAccuracy | service/weather/weather.go:260-262 | in range the result is within half a millimetre of mercury of the exact conversion |
| Weather.KphToMps | service/weather/weather.go:264-266 | metres per second times 3.6 is the speed in km/h; non-negative speeds shrink |
| Weather.KphToMpsMonotone | service/weather/weather.go:264-266 | the conversion preserves order |
| Weather.FillCurrentWeather | service/weather/weather.go:193-215 | day exactly when `is_day` is positive; condition by that phase; winds converted; humidity cut to 8 bits; the rest copied |
| Weather.FillDay | service/weather/weather.go:221-239 | always the day text; snow in millimetres; rain and snow flags exactly when positive; the rest copied |
| Weather.FillForecast | service/weather/weather.go:217-243 | one item per day, in order |
| Weather.NewService | service/weather/weather.go:26-38 | empty current weather and empty forecast |
| Weather.InitService | service/weather/weather.go:51-57 | a table decode failure is returned and leaves the service with no conditions, whatever it held; otherwise the table is built from the decoded entries |
| Weather.UpdateCurrent | service/weather/weather.go:120-136 | a failed fetch changes nothing; otherwise the mapped weather replaces the stored one |
| Weather.UpdateForecast | service/weather/weather.go:138-154 | a failed fetch changes nothing; otherwise the mapped forecast replaces the stored one |
| Web.BatteryLevel | service/web/calculations.go:10-20 | 100 exactly from 3.10 V up, 0 up to 2.82 V, in between the truncated linear fraction; always 0..100 |
| Web.BatteryLevelMonotone | service/web/calculations.go:10-20 | a higher voltage never shows a lower percentage |
| Web.FromChild | service/devices/xiaomi/device/sensor_ht.go:97-120 | every gateway sensor is a device identified by its SID and last update; its voltage is the stored millivolts / 1000, temperature and humidity the stored hundredths / 100; only the weather station reports pressure, unscaled |
| Web.FromChildRecoversReadings | service/devices/xiaomi/device/sensor_ht.go:97-120 | the listed volts and units scale back exactly to the stored millivolts and hundredths |
| Web.FromThermometer | service/devices/bluetooth/xiaomi_th.go:27-34 | the Bluetooth thermometer is not a `Device` |
| Web.FillUpSensor | service/web/server.go:107-127 | each optional field is set exactly when the capability is present; the battery as a percentage |
| Web.SensorsHandler | service/web/server.go:73-94 | the loop lists exactly the devices, in order |
| Web.ListingLength | service/web/server.go:79-94 | one entry per device |
| Web.ListingAllDevices | service/web/server.go:79-94 | when all objects are devices every one is listed, in order |
| Web.GatewayListing | service/web/server.go:76-94 | the gateway's collection is listed completely, in order, each entry filled from that sensor's readings under its own SID |
| Web.ImagePath | service/web/server.go:158 | prefix `/img/weather/64x64/`, suffix `.png` |
| Web.ImagePathRoundTrip | service/web/server.go:151-158 | the path determines the phase and the image code |
| Web.CurrentWeatherView | service/web/server.go:148-172 | the image is `/img/weather/64x64/` + `day` or `night` (night exactly when it is not day) + `/` + the condition's code + `.png`; other fields copied |
| Web.ForecastItemView | service/web/server.go:179-195 | the image is the day path `/img/weather/64x64/day/<code>.png` for the item's code; other fields copied |
| Web.WeatherForecast | service/web/server.go:174-199 | one view per forecast item, in order |

## Left out

- Sockets and receive loops (`Start` dialing, `reader`, `multicastReader`, `sendMessage`): their outcomes are the `Sockets` and `Network` inputs.
- Goroutines, channels, mutexes and the two-second timeout: the model is sequential, and each wait sees at most one datagram; other traffic arriving during a wait is not modelled.
- AES-CBC encryption is an uninterpreted parameter; `CryptBlocks` panicking on a session token whose length is not a multiple of 16 is not modelled.
- `json.Marshal` and `json.Unmarshal` are not modelled: marshalling the parameters is a parameter and decoded values are `Option` inputs; the marshal error branch of `request` cannot fire for a string-only envelope and is left out.
- `strconv.ParseFloat` is an abstract partial function; float32 and float64 rounding are not modelled (exact reals and integers instead).
- `time.Now` is the `now` parameter; `LastUpdateSec` of the sensor listing depends on the wall clock and is left out.
- `Stop` of the transport, gateway and weather service, the weather polling workers, `performGet`, and the HTTP server's `Init`, `Stop`, `resetHandler` and JSON writing are lifecycle and I/O.
- Bluetooth scanning, `Connect` and `Disconnect` are device I/O; the condition table's `languages` are never read and are not modelled.
- Gateway.Sensors: returns the collection as it stands and has no contract of its own.
- Transport.New: accepts dotted-quad IPv4 literals only; an IPv6 literal, including the IPv4-mapped form such as `::ffff:192.168.1.10`, is rejected in `New` with the address error, while the code accepts it there and either uses it (the mapped form) or fails later when dialling the gateway.
- Text.TrimSpace: trims ASCII white space only; Unicode spaces such as U+0085 and U+00A0 are not trimmed.
- Weather.MBarToMmHg: Go leaves converting an out-of-range float to `uint16` to the platform; the model keeps the low 16 bits of the rounded value, so only in-range accuracy is stated.
- Web.FromChild: divides by 1000 and 100 exactly instead of in float32.

## Findings

| source | as written | input that shows it | evidently intended | confidence | as-written member | corrected member |
|---|---|---|---|---|---|---|
| service/devices/xiaomi/transport/transport.go:112 | the bootstrap error wraps `err`, the (nil) result of the multicast listen, instead of `resp.err` | sockets open, the `get_id_list` request times out: the returned error says only "failed to call gateway devices list" and carries no cause | wrap `resp.err`, so the timeout or send failure is reported | high, not executed | Transport.StartAsWritten, Transport.StartAsWrittenLosesCause, Gateway.BootstrapStartTimeout | Transport.Start |
