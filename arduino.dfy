/** `Clases/arduino.py`: turning raw `code:value` lines from the measurement device into
    records appended to the local readings file. */
module Arduino {
  import opened Json
  import opened Text

  /** The id a record contributes to `max(dato.get("id", 0) ...)`: a missing id counts as 0;
      an id that is not an integer is None (see README for what that leaves out). */
  function IdOf(r: Record): Option<int> {
    if "id" !in r then Some(0)
    else match r["id"]
      case Int(i) => Some(i)
      case _ => None
  }

  /** The largest id of a non-empty list; None when some id is not an integer. */
  function MaxId(rs: seq<Record>): Option<int>
    requires rs != []
  {
    var last := IdOf(rs[|rs| - 1]);
    if |rs| == 1 then last
    else
      match MaxId(rs[..|rs| - 1])
      case None => None
      case Some(front) =>
        if last.None? then None
        else if front < last.value then last
        else Some(front)
  }

  /** MaxId is defined exactly when every id is an integer, bounds every id and is one of
      them. */
  lemma {:induction false} MaxIdBounds(rs: seq<Record>)
    requires rs != []
    ensures MaxId(rs).Some? <==> forall j :: 0 <= j < |rs| ==> IdOf(rs[j]).Some?
    ensures MaxId(rs).Some? ==> forall j :: 0 <= j < |rs| ==> IdOf(rs[j]).value <= MaxId(rs).value
    ensures MaxId(rs).Some? ==> exists j :: 0 <= j < |rs| && IdOf(rs[j]) == MaxId(rs)
  {
    if |rs| > 1 {
      var front := rs[..|rs| - 1];
      MaxIdBounds(front);
      assert forall j :: 0 <= j < |front| ==> front[j] == rs[j];
      if MaxId(rs).Some? {
        var f := MaxId(front).value;
        var j :| 0 <= j < |front| && IdOf(front[j]) == Some(f);
        assert IdOf(rs[j]) == Some(f);
      }
    }
  }

  /** `obtener_siguiente_id`: 1 for an empty list, otherwise one more than the largest id.
      None where Python raises. */
  function NextId(rs: seq<Record>): Option<int> {
    if rs == [] then Some(1)
    else
      match MaxId(rs)
      case None => None
      case Some(m) => Some(m + 1)
  }

  /** The next id is 1 for an empty list, exists exactly when every id is an integer, is
      strictly greater than every id in the list and is one past one of them. */
  lemma NextIdBounds(rs: seq<Record>)
    ensures rs == [] ==> NextId(rs) == Some(1)
    ensures NextId(rs).Some? <==> forall j :: 0 <= j < |rs| ==> IdOf(rs[j]).Some?
    ensures NextId(rs).Some? ==> forall j :: 0 <= j < |rs| ==> IdOf(rs[j]).value < NextId(rs).value
    ensures NextId(rs).Some? && rs != [] ==> exists j :: 0 <= j < |rs| && IdOf(rs[j]) == Some(NextId(rs).value - 1)
  {
    if rs != [] {
      MaxIdBounds(rs);
    }
  }

  /** `cargar_mapa_dispositivos`, given the list read from the devices file; None where a
      device lacks "code" or "id" (`KeyError`). */
  function DeviceMap(devices: seq<Record>): (m: Option<map<Value, Value>>)
    ensures m.Some? <==> forall j :: 0 <= j < |devices| ==> "code" in devices[j] && "id" in devices[j]
  {
    if devices == [] then Some(map[])
    else
      var last := devices[|devices| - 1];
      match DeviceMap(devices[..|devices| - 1])
      case None => None
      case Some(front) =>
        if "code" in last && "id" in last then Some(front[last["code"] := last["id"]]) else None
  }

  /** Every device's code is a key of the map. */
  lemma {:induction false} DeviceMapHasCodes(devices: seq<Record>)
    requires DeviceMap(devices).Some?
    ensures forall j :: 0 <= j < |devices| ==> devices[j]["code"] in DeviceMap(devices).value
  {
    if devices != [] {
      var n := |devices| - 1;
      DeviceMapHasCodes(devices[..n]);
      assert forall j :: 0 <= j < n ==> devices[j] == devices[..n][j];
    }
  }

  /** Every key of the map is some device's code. */
  lemma {:induction false} DeviceMapOnlyCodes(devices: seq<Record>, c: Value)
    requires DeviceMap(devices).Some? && c in DeviceMap(devices).value
    ensures exists j :: 0 <= j < |devices| && devices[j]["code"] == c
  {
    var n := |devices| - 1;
    if c != devices[n]["code"] {
      DeviceMapOnlyCodes(devices[..n], c);
      var j :| 0 <= j < n && devices[..n][j]["code"] == c;
      assert devices[j] == devices[..n][j];
    }
  }

  /** Each code maps to the id of the last device carrying it: a later device overrides
      an earlier one with the same code. */
  lemma {:induction false} DeviceMapLastWins(devices: seq<Record>, j: nat)
    requires DeviceMap(devices).Some? && j < |devices|
    requires forall l :: j < l < |devices| ==> devices[l]["code"] != devices[j]["code"]
    ensures devices[j]["code"] in DeviceMap(devices).value
    ensures DeviceMap(devices).value[devices[j]["code"]] == devices[j]["id"]
  {
    var n := |devices| - 1;
    if j < n {
      var front := devices[..n];
      assert front[j] == devices[j];
      forall l | j < l < n ensures front[l]["code"] != front[j]["code"] {
        assert front[l] == devices[l];
      }
      DeviceMapLastWins(front, j);
    }
  }

  /** What one received line leads to. */
  datatype LineOutcome =
    | InvalidFormat                         // no ':' (logged, skipped)
    | UnpackError                           // more than one ':': `a, b = split` raises and ends the session
    | UnknownSensor(code: string)           // code not in the device map (logged, skipped)
    | NotNumeric(code: string)              // `float(valor)` raises ValueError (logged, skipped)
    | Accepted(code: string, value: real)

  /** The checks `leer_serial_una_vez` applies to a received line, in order: the split on
      ':', the lookup of the code and `float()` of the value, which `parseFloat` stands for. */
  function Classify(line: string, mapa: map<Value, Value>, parseFloat: string -> Option<real>): (o: LineOutcome)
    ensures o.Accepted? ==> Str(o.code) in mapa
  {
    if ':' !in line then InvalidFormat
    else
      var parts := SplitOn(line, ':');
      if |parts| != 2 then UnpackError
      else
        var code := parts[0];
        if Str(code) !in mapa then UnknownSensor(code)
        else match parseFloat(parts[1])
          case None => NotNumeric(code)
          case Some(v) => Accepted(code, v)
  }

  /** A line without ':' is an invalid format and one with several ':' cannot be unpacked;
      a line with exactly one ':' is "code:value", and is accepted exactly when the code is
      a known device and the value parses as a number. */
  lemma ClassifyCases(line: string, mapa: map<Value, Value>, parseFloat: string -> Option<real>)
    ensures var o := Classify(line, mapa, parseFloat);
      && (o == InvalidFormat <==> ':' !in line)
      && (o == UnpackError <==> Count(line, ':') > 1)
      && (Count(line, ':') == 1 ==>
            var code := SplitOn(line, ':')[0]; var valor := SplitOn(line, ':')[1];
            && line == code + ":" + valor
            && ':' !in code
            && (o.UnknownSensor? <==> Str(code) !in mapa)
            && (o.NotNumeric? <==> Str(code) in mapa && parseFloat(valor).None?)
            && (o.Accepted? <==> Str(code) in mapa && parseFloat(valor).Some?)
            && (o.Accepted? ==> o.code == code && Some(o.value) == parseFloat(valor)))
  {
    if Count(line, ':') == 1 {
      SplitOnOnce(line, ':');
    }
  }

  /** `nuevo_dato`, the record built for an accepted line, key by key in the order the
      source writes them. */
  function NewReading(id: int, deviceId: Value, code: string, value: real, date: string): Record {
    FromPairs(ReadingPairs(id, deviceId, code, value, date))
  }

  function ReadingPairs(id: int, deviceId: Value, code: string, value: real, date: string): seq<(string, Value)> {
    [("id", Int(id)), ("id_tank", deviceId), ("sensor", Str(SplitOn(code, '/')[0])), ("deviceId", deviceId),
     ("code", Str(code)), ("value", Real(value)), ("unit", Str("N/A")), ("date", Str(date)),
     ("synced", Bool(false))]
  }

  /** The new record carries the next id, the device's id both as tank and as device, the
      sensor name (the code up to its first '/'), unit "N/A" and `synced` false. */
  lemma NewReadingFields(id: int, deviceId: Value, code: string, value: real, date: string)
    ensures var r := NewReading(id, deviceId, code, value, date);
      && r.Keys == {"id", "id_tank", "sensor", "deviceId", "code", "value", "unit", "date", "synced"}
      && r["id"] == Int(id) && r["id_tank"] == deviceId && r["deviceId"] == deviceId
      && r["code"] == Str(code) && r["value"] == Real(value) && r["date"] == Str(date)
      && r["sensor"].Str? && r["sensor"].s <= code && '/' !in r["sensor"].s
      && r["unit"] == Str("N/A") && r["synced"] == Bool(false)
  {
    var ps := ReadingPairs(id, deviceId, code, value, date);
    FromPairsKeys(ps);
    assert (set j | 0 <= j < |ps| :: ps[j].0) == {"id", "id_tank", "sensor", "deviceId", "code", "value", "unit", "date", "synced"} by {
      assert ps[0].0 == "id" && ps[1].0 == "id_tank" && ps[2].0 == "sensor" && ps[3].0 == "deviceId";
      assert ps[4].0 == "code" && ps[5].0 == "value" && ps[6].0 == "unit" && ps[7].0 == "date" && ps[8].0 == "synced";
    }
    forall j | 0 <= j < |ps| ensures ps[j].0 in FromPairs(ps) && FromPairs(ps)[ps[j].0] == ps[j].1 {
      FromPairsAt(ps, j);
    }
    assert ps[0].0 == "id" && ps[1].0 == "id_tank" && ps[2].0 == "sensor" && ps[3].0 == "deviceId";
    assert ps[4].0 == "code" && ps[5].0 == "value" && ps[6].0 == "unit" && ps[7].0 == "date" && ps[8].0 == "synced";
  }

  /** Appending a freshly built record advances the next id by exactly one. */
  lemma NextIdAfterAppend(rs: seq<Record>, id: int, rec: Record)
    requires NextId(rs) == Some(id)
    requires "id" in rec && rec["id"] == Int(id)
    ensures NextId(rs + [rec]) == Some(id + 1)
  {
    var rs' := rs + [rec];
    assert rs'[..|rs'| - 1] == rs;
    assert forall j :: 0 <= j < |rs| ==> rs'[j] == rs[j];
  }

  /** The positions of the lines a session accepts: those classified `Accepted` before the
      first line that ends the session with an unpack error. */
  function AcceptedLines(lines: seq<string>, mapa: map<Value, Value>, parseFloat: string -> Option<real>): (acc: seq<nat>)
    ensures forall k :: 0 <= k < |acc| ==> acc[k] < |lines| && Classify(lines[acc[k]], mapa, parseFloat).Accepted?
    ensures forall k, l :: 0 <= k < l < |acc| ==> acc[k] < acc[l]
  {
    Accepting(lines, mapa, parseFloat, 0)
  }

  function Accepting(lines: seq<string>, mapa: map<Value, Value>, parseFloat: string -> Option<real>, from: nat): (acc: seq<nat>)
    requires from <= |lines|
    ensures forall k :: 0 <= k < |acc| ==> from <= acc[k] < |lines| && Classify(lines[acc[k]], mapa, parseFloat).Accepted?
    ensures forall k, l :: 0 <= k < l < |acc| ==> acc[k] < acc[l]
    decreases |lines| - from
  {
    if from == |lines| then []
    else match Classify(lines[from], mapa, parseFloat)
      case UnpackError => []
      case Accepted(_, _) => [from] + Accepting(lines, mapa, parseFloat, from + 1)
      case _ => Accepting(lines, mapa, parseFloat, from + 1)
  }

  /** A position is collected from `from` on iff its line is accepted and no line between
      `from` and it fails the unpack. */
  lemma {:induction false} AcceptingMembers(lines: seq<string>, mapa: map<Value, Value>,
                                            parseFloat: string -> Option<real>, from: nat, i: nat)
    requires from <= |lines|
    ensures i in Accepting(lines, mapa, parseFloat, from) <==>
      from <= i < |lines| && Classify(lines[i], mapa, parseFloat).Accepted?
      && forall l :: from <= l < i ==> !Classify(lines[l], mapa, parseFloat).UnpackError?
    decreases |lines| - from
  {
    var acc := Accepting(lines, mapa, parseFloat, from);
    if from == |lines| {
      assert acc == [];
    } else if Classify(lines[from], mapa, parseFloat).UnpackError? {
      assert acc == [];
      if from <= i < |lines| && Classify(lines[i], mapa, parseFloat).Accepted? {
        assert from < i && Classify(lines[from], mapa, parseFloat).UnpackError?;
      }
    } else {
      var rest := Accepting(lines, mapa, parseFloat, from + 1);
      AcceptingMembers(lines, mapa, parseFloat, from + 1, i);
      if Classify(lines[from], mapa, parseFloat).Accepted? {
        assert acc == [from] + rest;
      } else {
        assert acc == rest;
      }
    }
  }

  /** A session stores a line iff the line is accepted and no earlier line fails the
      unpack: the scan is complete up to the first unpack error and stops there. */
  lemma AcceptedLinesMembers(lines: seq<string>, mapa: map<Value, Value>, parseFloat: string -> Option<real>, i: nat)
    ensures i in AcceptedLines(lines, mapa, parseFloat) <==>
      i < |lines| && Classify(lines[i], mapa, parseFloat).Accepted?
      && forall l :: 0 <= l < i ==> !Classify(lines[l], mapa, parseFloat).UnpackError?
  {
    AcceptingMembers(lines, mapa, parseFloat, 0, i);
  }

  lemma AcceptingStep(lines: seq<string>, mapa: map<Value, Value>, parseFloat: string -> Option<real>, i: nat, done: seq<nat>)
    requires i < |lines| && !Classify(lines[i], mapa, parseFloat).UnpackError?
    ensures Classify(lines[i], mapa, parseFloat).Accepted? ==>
      done + Accepting(lines, mapa, parseFloat, i) == (done + [i]) + Accepting(lines, mapa, parseFloat, i + 1)
    ensures !Classify(lines[i], mapa, parseFloat).Accepted? ==>
      Accepting(lines, mapa, parseFloat, i) == Accepting(lines, mapa, parseFloat, i + 1)
  {
  }

  /** The record an accepted line becomes, given its id and the time it was stamped with. */
  function ReadingOf(id: int, line: string, mapa: map<Value, Value>, parseFloat: string -> Option<real>, date: string): (r: Record)
    requires Classify(line, mapa, parseFloat).Accepted?
    ensures "id" in r && r["id"] == Int(id)
  {
    var o := Classify(line, mapa, parseFloat);
    NewReadingFields(id, mapa[Str(o.code)], o.code, o.value, date);
    NewReading(id, mapa[Str(o.code)], o.code, o.value, date)
  }

  /** What `leer_serial_una_vez` does with an accepted line: reload the file, build the record with the next
      id and rewrite the file with the record appended. Where the ids cannot be compared
      (`stored` false) the exception leaves the file as it was. */
  method StoreReading(file: FileState, line: string, mapa: map<Value, Value>,
                      parseFloat: string -> Option<real>, date: string)
    returns (file': FileState, stored: bool)
    requires Classify(line, mapa, parseFloat).Accepted?
    ensures stored <==> NextId(LoadRecords(file)).Some?
    ensures !stored ==> file' == file
    ensures stored ==> file' == Content(LoadRecords(file) + [ReadingOf(NextId(LoadRecords(file)).value, line, mapa, parseFloat, date)])
    ensures stored ==> NextId(file'.records) == Some(NextId(LoadRecords(file)).value + 1)
  {
    var existing := LoadRecords(file);
    var id := NextId(existing);
    if id.None? {
      return file, false;
    }
    var rec := ReadingOf(id.value, line, mapa, parseFloat, date);
    NextIdAfterAppend(existing, id.value, rec);
    file' := Content(existing + [rec]);
    stored := true;
  }

  /** `records` holds `before` followed by one record per line listed in `done`, built
      from that line with consecutive ids starting at `base`. */
  ghost predicate AppendedInOrder(records: seq<Record>, before: seq<Record>, base: int, done: seq<nat>,
                                  lines: seq<string>, stamp: nat -> string, mapa: map<Value, Value>,
                                  parseFloat: string -> Option<real>)
  {
    && |records| == |before| + |done|
    && records[..|before|] == before
    && forall k :: 0 <= k < |done| ==>
         && done[k] < |lines|
         && Classify(lines[done[k]], mapa, parseFloat).Accepted?
         && records[|before| + k] == ReadingOf(base + k, lines[done[k]], mapa, parseFloat, stamp(done[k]))
  }

  lemma AppendedInOrderStep(records: seq<Record>, before: seq<Record>, base: int, done: seq<nat>, i: nat,
                            lines: seq<string>, stamp: nat -> string, mapa: map<Value, Value>,
                            parseFloat: string -> Option<real>)
    requires AppendedInOrder(records, before, base, done, lines, stamp, mapa, parseFloat)
    requires i < |lines| && Classify(lines[i], mapa, parseFloat).Accepted?
    ensures AppendedInOrder(records + [ReadingOf(base + |done|, lines[i], mapa, parseFloat, stamp(i))],
                            before, base, done + [i], lines, stamp, mapa, parseFloat)
  {
    var records' := records + [ReadingOf(base + |done|, lines[i], mapa, parseFloat, stamp(i))];
    assert records'[..|before|] == records[..|before|];
    forall k | 0 <= k < |done| + 1
      ensures records'[|before| + k] == ReadingOf(base + k, lines[(done + [i])[k]], mapa, parseFloat, stamp((done + [i])[k]))
    {
      if k < |done| { assert records'[|before| + k] == records[|before| + k]; }
    }
  }

  /** The file `current` after the lines in `done` were stored into `file`: untouched while
      nothing is stored, then `file`'s records followed by one new record per stored line,
      with the next id just past the last one written. */
  ghost predicate Written(current: FileState, file: FileState, done: seq<nat>,
                          lines: seq<string>, stamp: nat -> string, mapa: map<Value, Value>,
                          parseFloat: string -> Option<real>)
  {
    var before := LoadRecords(file);
    if done == [] then current == file
    else
      && NextId(before).Some?
      && current.Content?
      && NextId(current.records) == Some(NextId(before).value + |done|)
      && AppendedInOrder(current.records, before, NextId(before).value, done, lines, stamp, mapa, parseFloat)
  }

  /** While nothing is stored the file reads as before; afterwards its ids are usable. */
  lemma WrittenLoads(current: FileState, file: FileState, done: seq<nat>,
                     lines: seq<string>, stamp: nat -> string, mapa: map<Value, Value>,
                     parseFloat: string -> Option<real>)
    requires Written(current, file, done, lines, stamp, mapa, parseFloat)
    ensures done == [] ==> LoadRecords(current) == LoadRecords(file)
    ensures done != [] ==> NextId(LoadRecords(current)) == Some(NextId(LoadRecords(file)).value + |done|)
  {
  }

  /** Storing line `i` into the file extends what was written by that line. */
  lemma WrittenStep(current: FileState, current': FileState, file: FileState, done: seq<nat>, i: nat,
                    lines: seq<string>, stamp: nat -> string, mapa: map<Value, Value>,
                    parseFloat: string -> Option<real>)
    requires Written(current, file, done, lines, stamp, mapa, parseFloat)
    requires i < |lines| && Classify(lines[i], mapa, parseFloat).Accepted?
    requires NextId(LoadRecords(current)).Some?
    requires current' == Content(LoadRecords(current) + [ReadingOf(NextId(LoadRecords(current)).value, lines[i], mapa, parseFloat, stamp(i))])
    requires NextId(current'.records) == Some(NextId(LoadRecords(current)).value + 1)
    ensures Written(current', file, done + [i], lines, stamp, mapa, parseFloat)
  {
    var before := LoadRecords(file);
    var existing := LoadRecords(current);
    WrittenBase(current, file, done, lines, stamp, mapa, parseFloat);
    var base := if done == [] then NextId(existing).value else NextId(before).value;
    var rec := ReadingOf(base + |done|, lines[i], mapa, parseFloat, stamp(i));
    assert current'.records == existing + [rec];
    AppendedInOrderStep(existing, before, base, done, i, lines, stamp, mapa, parseFloat);
    assert NextId(current'.records) == Some(base + |done + [i]|);
    WrittenIntro(current', file, done + [i], lines, stamp, mapa, parseFloat);
  }

  lemma WrittenIntro(current: FileState, file: FileState, done: seq<nat>,
                     lines: seq<string>, stamp: nat -> string, mapa: map<Value, Value>,
                     parseFloat: string -> Option<real>)
    requires done != [] && NextId(LoadRecords(file)).Some? && current.Content?
    requires NextId(current.records) == Some(NextId(LoadRecords(file)).value + |done|)
    requires AppendedInOrder(current.records, LoadRecords(file), NextId(LoadRecords(file)).value, done, lines, stamp, mapa, parseFloat)
    ensures Written(current, file, done, lines, stamp, mapa, parseFloat)
  {
  }

  /** What was written so far, read back through the load rule. */
  lemma WrittenBase(current: FileState, file: FileState, done: seq<nat>,
                    lines: seq<string>, stamp: nat -> string, mapa: map<Value, Value>,
                    parseFloat: string -> Option<real>)
    requires Written(current, file, done, lines, stamp, mapa, parseFloat)
    requires NextId(LoadRecords(current)).Some?
    ensures var before := LoadRecords(file); var existing := LoadRecords(current);
      var base := if done == [] then NextId(existing).value else NextId(before).value;
      && NextId(before) == Some(base) && NextId(existing) == Some(base + |done|)
      && AppendedInOrder(existing, before, base, done, lines, stamp, mapa, parseFloat)
  {
    if done == [] {
      assert LoadRecords(current) == LoadRecords(file);
    } else {
      assert LoadRecords(current) == current.records;
    }
  }

  /** Where a session stands after the lines before `i`: `done` lists the lines stored so
      far and `count` counts them; a session that has not stopped still has to accept the
      rest of `AcceptedLines`, and one that stopped has either stored all of them or hit
      unusable ids before writing anything. */
  ghost predicate Progress(lines: seq<string>, stamp: nat -> string, mapa: map<Value, Value>,
                           parseFloat: string -> Option<real>, file: FileState, current: FileState,
                           i: nat, stopped: bool, done: seq<nat>, count: nat)
  {
    var before := LoadRecords(file);
    var acc := AcceptedLines(lines, mapa, parseFloat);
    && i <= |lines|
    && (stopped ==> done == acc || (NextId(before).None? && acc != [] && done == []))
    && (!stopped ==> acc == done + Accepting(lines, mapa, parseFloat, i))
    && count == |done|
    && Written(current, file, done, lines, stamp, mapa, parseFloat)
  }

  /** One pass of the reading loop of `leer_serial_una_vez` over line `i`. */
  method ReadLine(lines: seq<string>, stamp: nat -> string, mapa: map<Value, Value>,
                  parseFloat: string -> Option<real>, ghost file: FileState, current: FileState,
                  i: nat, ghost done: seq<nat>, count: nat)
    returns (current': FileState, stopped: bool, ghost done': seq<nat>, count': nat)
    requires i < |lines| && Progress(lines, stamp, mapa, parseFloat, file, current, i, false, done, count)
    ensures Progress(lines, stamp, mapa, parseFloat, file, current', i + 1, stopped, done', count')
  {
    ghost var acc := AcceptedLines(lines, mapa, parseFloat);
    current', stopped, done', count' := current, false, done, count;
    var outcome := Classify(lines[i], mapa, parseFloat);
    if outcome.UnpackError? {
      stopped := true;
    } else if outcome.Accepted? {
      AcceptingStep(lines, mapa, parseFloat, i, done);
      WrittenLoads(current, file, done, lines, stamp, mapa, parseFloat);
      var stored;
      current', stored := StoreReading(current, lines[i], mapa, parseFloat, stamp(i));
      if !stored {
        assert done == [] && current' == file;
        assert acc == [i] + Accepting(lines, mapa, parseFloat, i + 1);
        stopped := true;
      } else {
        WrittenStep(current, current', file, done, i, lines, stamp, mapa, parseFloat);
        done' := done + [i];
        count' := count + 1;
      }
    } else {
      AcceptingStep(lines, mapa, parseFloat, i, done);
    }
  }

  /** One reading session of `leer_serial_una_vez` (and, without the counter, of
      `leer_serial_y_guardar`) over the lines the device sent before the session ended.
      `stamp(i)` is `datetime.now().isoformat()` when line `i` is stored. Each accepted
      line reloads the file, appends one record and rewrites the file; nothing else
      touches the file, and the counter `datosLeidos` counts the accepted lines. When the
      file's ids are unusable the first accepted line raises before anything is written. */
  method ReadSession(lines: seq<string>, stamp: nat -> string, mapa: map<Value, Value>,
                     parseFloat: string -> Option<real>, file: FileState)
    returns (file': FileState, datosLeidos: nat)
    ensures var before := LoadRecords(file); var acc := AcceptedLines(lines, mapa, parseFloat);
      NextId(before).None? && acc != [] ==> file' == file && datosLeidos == 0
    ensures var before := LoadRecords(file); var acc := AcceptedLines(lines, mapa, parseFloat);
      NextId(before).Some? || acc == [] ==>
        && datosLeidos == |acc|
        && (acc == [] ==> file' == file)
        && (acc != [] ==>
              && file'.Content?
              && AppendedInOrder(file'.records, before, NextId(before).value, acc, lines, stamp, mapa, parseFloat))
  {
    file', datosLeidos := file, 0;
    var i := 0;
    var stopped := false;
    ghost var done: seq<nat> := [];
    while i < |lines| && !stopped
      invariant Progress(lines, stamp, mapa, parseFloat, file, file', i, stopped, done, datosLeidos)
      decreases |lines| - i
    {
      file', stopped, done, datosLeidos := ReadLine(lines, stamp, mapa, parseFloat, file, file', i, done, datosLeidos);
      i := i + 1;
    }
    assert done == AcceptedLines(lines, mapa, parseFloat) || (NextId(LoadRecords(file)).None? && done == []);
  }
}
