# Aquaculture edge node: acquisition, pending log and command scheduling

This project models in Dafny the core of a small aquaculture edge node written in Python:

- the acquisition side, which turns raw `code:value` lines from the measurement device
  into readings appended to a local JSON file, each with the next integer id;
- the sync side, which uploads the readings not yet synced, marks every record synced and
  prunes old synced records;
- the retry-by-file sender, which posts pending readings tank by tank and empties its
  file only when every post succeeded;
- the typed `Lista` container and the four record classes it builds from dictionaries;
- the bookkeeping of the per-device reading scheduler;
- the three variants of the timed-command loop, and the MQTT forward rule;
- the expected-alert rule of the alert test script.

Values are JSON scalars (`Json.Value`) and records are `map<string, Value>`. A file is
either missing, blank, unreadable or a list of records (`Json.FileState`). Serial ports,
MQTT, HTTP, MongoDB, clocks and parsers are parameters:

- a line source is a `seq<string>`;
- `stamp`/`now` functions stand for `datetime.now()`;
- `parseFloat`, `parseIso` and `isoTime` stand for `float()`, `datetime.fromisoformat`
  and its `strftime("%H:%M")`;
- `realText` stands for `str()` of a float;
- `respond(k)` is the backend's answer to the k-th post;
- `escrito(k)` says whether the k-th serial send completed.

Each loop that updates a variable, a list or a file becomes a Dafny method with a `while`
loop. The two loops that only build or inspect a value are functions: the document loop at
`Mongo/sync.py:41-43` is `Sync.Batch`, and the report loop at
`Clases/sensor_scheduler.py:23-27` is a quantifier over the loaded devices in
`Scheduler.LoadDevices`. Each method is proved against a specification function (`Commands.Pass`, `Sync.Kept`, `Listas.Admitted`,
`HttpSender.SendOrder`, `Arduino.AcceptedLines`, ...). The lemmas about those functions
state what the source promises. Objects whose fields the source updates in place
(`Lista`, `SensorScheduler`) are classes.

Behaviour the model exhibits as the code is written:

- After a prune removes the record with the largest id, the next reading reuses an id
  that was already handed out (`Pipeline.PruneReissuesId`).
- A synced record stamped in UTC with a trailing `Z` becomes an offset date-time. Comparing
  it with the naive cutoff raises, and the bare `except` keeps it, so such records are
  never pruned (`Sync.ZuluDateKept`).
- The sync pass writes back the snapshot it loaded. A reading appended by the acquisition
  side in between is lost (`Sync.SyncWritesOnlySynced`). Marking is blind and not by id,
  and nothing is locked.
- Every reading cycle of the scheduler passes `sensor_filter`, which `leer_serial_una_vez`
  does not accept. Every cycle therefore ends in the handler (`Scheduler.RunCycle`); the
  call would bind without that one argument (`Scheduler.SensorFilterRefused`).
- A device dictionary carrying `reading_interval` is refused by `Device(**d)`, so the
  registry writes no intervals. The scheduler then always uses 300 s
  (`Pipeline.RegistryFileUsesDefaultInterval`). A non-numeric interval makes the whole
  device load fall back to no devices (`Scheduler.LoadDevices`).
- `UserConfig` takes `**kwargs`, but a dictionary with a `"self"` key still raises
  (`UserConfigs.Decode`).
- In `prubamqtt.py` and `pruebas.py` the key holds no date, so a daily time fires only on
  its first day (`Commands.TimeOnlyKeyIgnoresDay`, `Prubamqtt.MatchedNeverAgain`).
- `test_alertas.py` imports `guardar_dato`, which `Clases/arduino.py` does not define, and
  `masprubas.py` imports `obtener_configuraciones` and `guardar_configuraciones_json`, which
  `Clases/metodos.py` does not define. As written, both scripts stop at the import. The model
  describes what their code does once the names resolve.

## Model

| member | source | states |
|---|---|---|
| Json.LoadRecords | Mongo/sync.py:7-19 | a missing, blank or unreadable file loads as the empty list, a decoded one as its records; the same rule as `cargar_datos_existentes` |
| Json.FromPairsKeys | Clases/arduino.py:65-75 | a dictionary written pair by pair has exactly the keys of its pairs |
| Json.FromPairsAt | Clases/arduino.py:65-75 | each key of such a dictionary holds the value of its last pair |
| Text.JoinSplitOn | Clases/arduino.py:53 | joining the parts of `split(c)` with `c` gives back the string |
| Text.SplitOnOnce | Clases/arduino.py:53 | a string with exactly one separator splits into the two sides, neither holding the separator |
| Text.Strip | prubamqtt.py:86 | `strip()` is a factor of the string with no whitespace at either end; it is empty iff the string is all whitespace |
| Arduino.MaxIdBounds | Clases/arduino.py:32 | the `max` of the ids exists iff every id is an integer, bounds every id and is one of them |
| Arduino.NextIdBounds | Clases/arduino.py:29-32 | the next id is 1 for an empty list, otherwise strictly greater than every existing id (a missing id counting as 0) and one past one of them |
| Arduino.DeviceMap | Clases/arduino.py:7-11 | the device map exists iff every device has `code` and `id` |
| Arduino.DeviceMapHasCodes | Clases/arduino.py:11 | every device's code is a key of the map |
| Arduino.DeviceMapOnlyCodes | Clases/arduino.py:11 | every key of the map is some device's code |
| Arduino.DeviceMapLastWins | Clases/arduino.py:11 | each code maps to the id of the last device carrying it |
| Arduino.ClassifyCases | Clases/arduino.py:52-60 | a line without ':' is an invalid format; one with several ':' fails the unpack; a `code:value` line is accepted iff the code is mapped and the value parses, and is otherwise an unknown sensor or not numeric |
| Arduino.NewReadingFields | Clases/arduino.py:65-75 | the new record has exactly the nine keys, the next id, the device id as both `id_tank` and `deviceId`, the code's part before '/' as `sensor`, unit "N/A" and `synced` false |
| Arduino.NextIdAfterAppend | Clases/arduino.py:63-77 | appending the record built with the next id advances the next id by one |
| Arduino.AcceptedLines | Clases/arduino.py:47-60 | the positions a session stores are increasing and each is a line classified accepted |
| Arduino.AcceptedLinesMembers | Clases/arduino.py:47-60 | a line is stored iff it is accepted and no earlier line fails the unpack: every accepted line before the first unpack error is stored, and none after it |
| Arduino.StoreReading | Clases/arduino.py:62-80 | an accepted line reloads the file and rewrites it as the old records plus one new record with the next id; when the ids cannot be compared the file is left as it was |
| Arduino.WrittenStep | Clases/arduino.py:63-80 | storing one more line extends the written file by that line's record, with consecutive ids |
| Arduino.ReadLine | Clases/arduino.py:48-89 | one pass of the reading loop over a line keeps the session invariant: the lines stored so far are a prefix of the accepted lines, and the counter counts them |
| Arduino.ReadSession | Clases/arduino.py:35-93 | a session appends, in order and after the existing records, one record per accepted line with consecutive ids from the next id, and `datos_leidos` equals the number of accepted lines; nothing else is written |
| Sync.Unsynced | Mongo/sync.py:35 | the unsynced records are exactly the records whose `synced` is false or missing |
| Sync.UnsyncedAppend | Mongo/sync.py:35 | the filter distributes over concatenation, so the batch keeps file order |
| Sync.WithoutSynced | Mongo/sync.py:42 | a document equals its record with only the `synced` key removed |
| Sync.Batch | Mongo/sync.py:35-45 | one document per unsynced record, in order, each without `synced` and otherwise equal to its record |
| Sync.MarkedAllFields | Mongo/sync.py:47-49 | after marking every record is synced, synced records are untouched and no field other than `synced` changes |
| Sync.MarkedAllIdempotent | Mongo/sync.py:47-49 | marking twice is marking once, and nothing is left unsynced |
| Sync.MarkAll | Mongo/sync.py:47-49 | the in-place marking loop yields the marked list |
| Sync.ReplaceZ | Mongo/sync.py:82 | `replace('Z', '+00:00')` leaves no 'Z' and grows the text by five characters per 'Z' |
| Sync.ReplaceZKeeps | Mongo/sync.py:82 | a date without 'Z' reaches the parser unchanged |
| Sync.KeptMembers | Mongo/sync.py:77-88 | the kept records are exactly the records pruning keeps |
| Sync.KeptAppend | Mongo/sync.py:77-88 | pruning keeps the relative order of the kept records |
| Sync.KeepCases | Mongo/sync.py:78-88 | unsynced records are always kept; a synced record with a naive date is kept iff its date is strictly later than the cutoff; one without a string date is kept |
| Sync.ZuluDateKept | Mongo/sync.py:82-88 | a synced record whose date parses with an offset is always kept |
| Sync.Prune | Mongo/sync.py:67-89 | the loop yields the kept records and counts the removed ones |
| Sync.PruneFile | Mongo/sync.py:90-92 | the file is rewritten with the kept records only when something was removed |
| Sync.SyncPass | Mongo/sync.py:30-59 | with nothing unsynced no batch is sent and the file is untouched; otherwise the batch is sent and the file becomes the marked records after pruning with 7 days |
| Sync.KeptAll | Mongo/sync.py:77-92 | a prune that removes nothing keeps the list itself |
| Sync.SyncWritesOnlySynced | Mongo/sync.py:47-56 | the records the pass writes are all synced, so an unsynced reading appended meanwhile is not among them |
| Listas.Build | Clases/lista.py:23 | an object built from a dictionary is of the list's class |
| Listas.Admitted | Clases/lista.py:11-28 | the admitted objects are of the list's class and no more than the items |
| Listas.AdmittedAppend | Clases/lista.py:11-16 | admitting two lists of items one after the other admits the concatenation |
| Listas.Lista.constructor | Clases/lista.py:4-9 | the class defaults to `Lista`; the given data, if any, is added to an empty list |
| Listas.Lista.AgregarElemento | Clases/lista.py:18-28 | an instance of the class is appended unchanged; a dictionary the class accepts is appended as the built object; anything else leaves the list as it was |
| Listas.Lista.AgregarElementos | Clases/lista.py:11-16 | the admitted items are appended after the existing elements, in order; a non-list counts as one item |
| Listas.Lista.Cargar | Clases/lista.py:44-48 | a load raises iff the file cannot be read or decoded, and then leaves the list as it was; otherwise the list becomes exactly the admitted loaded items |
| Listas.Lista.Diccionario | Clases/lista.py:37-38 | one attribute dictionary per element, in order |
| Devices.Dict | Clases/device.py:10-11 | the dictionary has exactly the six attributes |
| Devices.Decode | Clases/device.py:2-8 | a dictionary decodes iff it has id, tankId, code and name and no key beyond the six parameters; the attributes are the given values over `None` defaults |
| Devices.DecodeDict | Clases/device.py:2-11 | decoding a device's dictionary rebuilds the device |
| Devices.Str | Clases/device.py:13-14 | the text is the name, " (ID: ", the id, ", Tank: ", the tank id and ")", each value rendered with `str()` |
| Alertas.Dict | Clases/alerta.py:12-13 | the dictionary has exactly the eight attributes |
| Alertas.Decode | Clases/alerta.py:2-10 | a dictionary decodes iff it has the seven required keys and no key beyond `synced`; `synced` defaults to False |
| Alertas.DecodeDict | Clases/alerta.py:2-13 | decoding an alert's dictionary rebuilds the alert |
| Alertas.Str | Clases/alerta.py:15-16 | the text is "Alerta - ", the code, ": ", the value, " - ", the message, " (", the date and ")", each value rendered with `str()` |
| DataSensores.Dict | Clases/dataSensores.py:10-11 | the dictionary has keys id, tankId, name, value, unit and date |
| DataSensores.Decode | Clases/dataSensores.py:2-8 | a dictionary decodes iff its keys are exactly the six parameters; `id_tank` is stored as `tankId`, `sensor` as `name`, the rest unchanged |
| DataSensores.DecodeDictFails | Clases/dataSensores.py:2-11 | decoding a reading's own dictionary always fails |
| DataSensores.Str | Clases/dataSensores.py:13-14 | the text is "Sensor: ", the name, ", Value: ", the value, " ", the unit, ", Date: " and the date, each value rendered with `str()` |
| UserConfigs.Dict | Clases/user_config.py:11-12 | the dictionary has exactly the three attributes |
| UserConfigs.Decode | Clases/user_config.py:2-6 | every dictionary without a "self" key decodes; the three named keys are taken, None when absent, and every other key is discarded |
| UserConfigs.DecodeDict | Clases/user_config.py:2-12 | decoding a configuration's dictionary rebuilds it |
| UserConfigs.Str | Clases/user_config.py:14-15 | `__str__` always raises |
| Scheduler.Interval | Clases/sensor_scheduler.py:24 | the interval is the device's `reading_interval`, 300 when absent |
| Scheduler.LoadDevices | Clases/sensor_scheduler.py:15-34 | a load that raises gives no devices; a loaded list gives itself iff every interval is numeric (the report line's `interval/60` succeeds), and no devices otherwise |
| Scheduler.ThreadsForKeys | Clases/sensor_scheduler.py:82-87 | the thread map's keys are exactly the truthy device codes |
| Scheduler.ThreadsForLastWins | Clases/sensor_scheduler.py:82-87 | each code runs the thread of the last device carrying it |
| Scheduler.RunCycle | Clases/sensor_scheduler.py:45-62 | every cycle of a reading thread ends in the handler |
| Scheduler.SensorFilterRefused | Clases/sensor_scheduler.py:50-54 | the call is refused, and only because of `sensor_filter`: without that argument it would bind to `leer_serial_una_vez`'s parameters |
| Scheduler.SensorScheduler.constructor | Clases/sensor_scheduler.py:8-13 | the scheduler starts stopped, with no threads and no devices |
| Scheduler.SensorScheduler.IniciarProgramacion | Clases/sensor_scheduler.py:66-89 | already running: nothing changes; otherwise the devices are reloaded, the scheduler runs iff there are some, and the thread map is built from them |
| Scheduler.SensorScheduler.DetenerProgramacion | Clases/sensor_scheduler.py:91-103 | the scheduler is stopped and the thread map emptied; the devices stay |
| Scheduler.SensorScheduler.ObtenerEstado | Clases/sensor_scheduler.py:105-122 | one entry per device in order, with code, name and default-300 interval; active only for a code holding a live thread; the active count is the number of live threads |
| Scheduler.SensorScheduler.RecargarDispositivos | Clases/sensor_scheduler.py:124-133 | stop then start: the devices are reloaded and the threads rebuilt from them; the serial port and the devices file stay as they were |
| HttpSender.PayloadFields | Clases/http_sender.py:26-34 | the payload has the given tank id, copies sensor, code and value, maps deviceId to device_id and date to timestamp, and defaults unit to "N/A" and timestamp to now |
| HttpSender.EnviarDatosSensor | Clases/http_sender.py:17-60 | the result is true iff the backend answered 200 with a body that decodes as JSON; another status, a 200 whose body is not JSON, timeouts, connection errors and other errors give false |
| HttpSender.EnviarLoteDatos | Clases/http_sender.py:62-93 | the list goes out unchanged under "sensor_data" with the current timestamp; true iff the answer is 200, whatever its body |
| HttpSender.TanksMembers | Clases/http_sender.py:117-122 | the tanks listed are exactly the tanks of the pending readings |
| HttpSender.TanksDistinct | Clases/http_sender.py:117-122 | no tank is listed twice |
| HttpSender.GroupMembers | Clases/http_sender.py:117-122 | a tank's group holds exactly that tank's readings |
| HttpSender.SendOrderPermutation | Clases/http_sender.py:125-130 | posting group by group posts every pending reading exactly once |
| HttpSender.Delivered | Clases/http_sender.py:127-130 | the count of successes (200 with a JSON body) is at most the number of posts, and equals it iff every post succeeded |
| HttpSender.GroupByTank | Clases/http_sender.py:117-122 | the grouping loop yields the tanks in first-appearance order and, for each, its readings in file order |
| HttpSender.EnviarTanque | Clases/http_sender.py:126-130 | posting one tank's readings appends their payloads in order and keeps the counts |
| HttpSender.EnviarGrupos | Clases/http_sender.py:125-130 | the posts are the payloads of the groups in turn; sent counts the posts answered 200 with a JSON body and sent plus failed counts the posts |
| HttpSender.ProcesarYEnviarDatosPendientes | Clases/http_sender.py:96-143 | a missing, undecodable or empty file sends nothing; otherwise every reading is posted once, grouped by tank; sent + failed = pending; the file is emptied iff failed is 0 and sent is positive, that is iff every post was answered 200 with a JSON body |
| Commands.PassSent | masprubas.py:69-72 | the sent set only grows, and only by the keys of recorded attempts |
| Commands.PassAttempts | masprubas.py:67-72 | every attempted configuration matched, came from the list, and had a key not sent before the pass |
| Commands.PassGrows | masprubas.py:69-72 | the sent set never shrinks |
| Commands.PassSkipsSent | masprubas.py:69-74 | a configuration whose key is already sent is not attempted |
| Commands.PassRecordedOnce | masprubas.py:69-72 | after an attempt is recorded, no later attempt in the pass has its key |
| Commands.PassCoversMatches | masprubas.py:67-72 | when every attempt is recorded, every matching configuration's key is in the set after the pass |
| Commands.PassQuiet | masprubas.py:67-68 | with nothing matching, the pass attempts nothing and keeps the set |
| Commands.PassReachesFirst | pruebas.py:29-31 | a matching configuration whose key is unsent and not shared with an earlier one is attempted |
| Commands.AttemptedNeverAgain | masprubas.py:69-72 | a key recorded in one pass blocks its configurations in every later pass, whatever the time |
| Commands.RunPass | masprubas.py:52-74 | the loop yields the pass's sent set and attempts |
| Commands.Writes | masprubas.py:30 | one serial line per attempt, in order |
| Commands.CommandText | masprubas.py:30 | the line handed to the serial sender is the code, rendered with `str()`, followed by a newline |
| Commands.TimeOnlyOncePerProcess | prubamqtt.py:56-64 | a configuration whose code-and-time key is sent is never attempted again, on any day |
| Commands.TimeOnlyKeyIgnoresDay | prubamqtt.py:54-60 | two configurations with the same code and time share their key and match at the same minutes whatever their days |
| Commands.OnMessage | prubamqtt.py:85-90 | a payload is forwarded, stripped, iff it is not all whitespace |
| Commands.OnMessageIdempotent | masprubas.py:93-97 | a forwarded command is already stripped |
| Masprubas.NormalizeTime | masprubas.py:57-63 | a string time holding 'T' or longer than five characters becomes its ISO parse's HH:MM, or stays when the parse fails; any other value stays |
| Masprubas.NormalizeTimeIdempotent | masprubas.py:58-63 | normalising a normalised time changes nothing |
| Masprubas.FiresExactly | masprubas.py:49-68 | a configuration fires iff its code is non-empty, its day is today and its normalised time is now |
| Masprubas.KeyTellsDays | masprubas.py:66 | keys of the same code and time on two different days differ |
| Masprubas.OncePerKey | masprubas.py:66-72 | each key fires at most once for the life of the loop |
| Masprubas.Revisar | masprubas.py:45-77 | a pass that cannot load the file keeps the set and writes nothing; otherwise the set and the serial lines are those of the pass with date-and-time matching, recording every attempt |
| Prubamqtt.Revisar | prubamqtt.py:46-68 | as above with time-only matching and the code-and-time key, recording every attempt |
| Prubamqtt.MatchedNeverAgain | prubamqtt.py:53-64 | a matching configuration is never attempted in a later pass, delivered or not |
| Pruebas.Revisar | pruebas.py:15-61 | as above, recording an attempt only when its serial send completed |
| Pruebas.RetriedAfterFailure | pruebas.py:30-56 | a key whose every attempt failed stays unsent, so the next pass at the same minute attempts it again |
| Pruebas.DeliveredNeverAgain | pruebas.py:30-52 | once a send with a key completes, that key is never attempted again |
| TestAlertas.AlertaFueraDeRango | test_alertas.py:102-105 | an alert is expected iff the code has a range and the value lies outside it; a value equal to a bound expects none |
| TestAlertas.EsperadasAppend | test_alertas.py:94-107 | the expected count splits over concatenated case lists |
| TestAlertas.EsperadasExtremos | test_alertas.py:94-107 | the count equals the number of cases iff every case alerts, and is 0 iff none does |
| TestAlertas.ContarAlertas | test_alertas.py:50-107 | a range table that fails to load ends the test; otherwise the counter equals the number of cases that alert |
| TestAlertas.CasosTemperatura | test_alertas.py:74-80 | with range 17.0 to 26.0, 20.5 expects no alert and 10.0 and 30.0 expect one each |
| TestAlertas.CasosTds | test_alertas.py:86-88 | with no limits, or no entry, 50.0 and 5000.0 expect no alert |
| TestAlertas.EsperadasDescritas | test_alertas.py:72-107 | over the ranges the case descriptions state, six of the eleven cases expect an alert |
| Pipeline.GuardarDispositivos | Clases/metodos.py:34-39 | the registry writes one dictionary per admitted device, in order, each with exactly the six `Device` keys |
| Pipeline.IntervalDropsDevice | Clases/device.py:2 | a device dictionary with `reading_interval` is never admitted |
| Pipeline.RegistryFileUsesDefaultInterval | Clases/sensor_scheduler.py:24 | a devices file written by the registry loads as written and every device uses 300 s |
| Pipeline.PruneReissuesId | Clases/arduino.py:29-32 | after a prune removes the record with the largest id, the next id is at most that id |
| Pipeline.PruneReissuesIdExample | Mongo/sync.py:77-92 | an instance: next id 3 before the prune, 2 after it |

## Left out

- Serial I/O: opening the port, `in_waiting`, `readline`, writes and sleeps. A session is
  the sequence of lines it received; a send outcome is the `escrito` oracle.
- The time limit of `leer_serial_una_vez` and the endless loop of `leer_serial_y_guardar`:
  a session is the lines received before it ended. An exception other than the unpack
  error is not modelled.
- MQTT client setup, subscription and the broker loop: only the `on_message` forward rule.
- HTTP transport: the backend's answer is the `respond` oracle; `obtener_dispositivos`
  and `obtener_configuraciones` are not part of this model.
- `Mongo/mongo.py`: the insert swallows every error, so the sync pass goes on as if it had
  succeeded; the model has no insert outcome.
- Threads, daemon flags, `join` timeouts and the `while True` loops: single passes and the
  scheduler's bookkeeping only. `Handle` is an opaque thread and liveness is a parameter.
- JSON encoding, file writes, `datetime.now()`, `fromisoformat`, `strftime` and `float()`:
  parameters. Dates are integer seconds and values are `real`, not IEEE floats.
- `str()` of a float: the `realText` parameter.
- `main.py` and the rest of `Clases/metodos.py` (UUID, device fetch, serial read): glue.
- `guardar_dato`, which `test_alertas.py` calls once per case, is not part of this model.
- `alertasMapa.json` is not part of this model. `TestAlertas.EsperadasDescritas` uses the
  ranges the case descriptions state: tmp 17-26, pH 5-9, level 200-2000, TDS unlimited.
- `leer_alertas_generadas` and every print.
- A JSON file is taken to decode to a list (`Json.FileState`). A file whose top level is
  another value cannot be expressed: in the source it makes `dato.get` raise and end the
  acquisition session, or leaves the scheduler with no devices.
- Records hold scalar values only, and configuration lists hold dictionaries only. A
  non-dictionary element makes the Python pass raise part-way, which the model does not
  capture.
- Arduino.IdOf: a float or bool id is treated as an error (None), though Python's `max`
  would accept it.
- Python's equality of `1`, `1.0` and `True` as dictionary keys is not modelled: values of
  different kinds are different keys.
- `Listas.Lista.AgregarElemento`: a nested `Lista` built from a dictionary is modelled as
  always empty; it cannot hold anything when the values are scalars.
- The `respuestas` list of `pruebas.py`: only printed.
- `mostrar_elementos` and `Lista.guardar`: printing and a file write of `diccionario()`.
