/** A sensor reading object, as `Clases/dataSensores.py` builds it from a dictionary. */
module DataSensores {
  import opened Json
  import opened Signature

  /** The attributes; `tankId` and `name` are stored from the parameters `id_tank` and `sensor`. */
  datatype DataSensor = DataSensor(id: Value, tankId: Value, name: Value, value: Value, unit: Value, date: Value)

  /** `__init__(self, id, id_tank, sensor, value, unit, date)` */
  const SensorParams := Params({"id", "id_tank", "sensor", "value", "unit", "date"}, {}, false)

  /** `s.__dict__`, which is what `diccionario` returns. */
  function Dict(s: DataSensor): (r: Record)
    ensures r.Keys == {"id", "tankId", "name", "value", "unit", "date"}
  {
    map["id" := s.id, "tankId" := s.tankId, "name" := s.name, "value" := s.value, "unit" := s.unit, "date" := s.date]
  }

  /** `dataSensores(**r)`; None where the call raises `TypeError`. */
  function Decode(r: Record): (s: Option<DataSensor>)
    ensures s.Some? <==> r.Keys == {"id", "id_tank", "sensor", "value", "unit", "date"}
    ensures s.Some? ==> s.value.tankId == r["id_tank"] && s.value.name == r["sensor"]
    ensures s.Some? ==> s.value.id == r["id"] && s.value.value == r["value"] && s.value.unit == r["unit"] && s.value.date == r["date"]
  {
    if Accepts(SensorParams, r.Keys) then
      Some(DataSensor(r["id"], r["id_tank"], r["sensor"], r["value"], r["unit"], r["date"]))
    else
      None
  }

  /** There is no round trip: `diccionario` renames two keys, and the renamed keys are
      not parameters of the constructor. */
  lemma DecodeDictFails(s: DataSensor)
    ensures Decode(Dict(s)).None?
  {
    assert "id_tank" !in Dict(s).Keys;
  }

  /** The template of `__str__` renders as its parts written out in order. */
  lemma FormatTemplate(name: string, value: string, unit: string, date: string)
    ensures Format(["Sensor: ", name, ", Value: ", value, " ", unit, ", Date: ", date])
         == "Sensor: " + name + ", Value: " + value + " " + unit + ", Date: " + date
  {
    var parts := ["Sensor: ", name, ", Value: ", value, " ", unit, ", Date: ", date];
    assert parts[8..] == [];
    assert Format(parts[7..]) == date by { FormatStep(parts, 7); }
    assert Format(parts[6..]) == ", Date: " + date by { FormatStep(parts, 6); }
    assert Format(parts[5..]) == unit + (", Date: " + date) by { FormatStep(parts, 5); }
    assert Format(parts[4..]) == " " + (unit + (", Date: " + date)) by { FormatStep(parts, 4); }
    assert Format(parts[3..]) == value + (" " + (unit + (", Date: " + date)))
      by { FormatStep(parts, 3); }
    assert Format(parts[2..]) == ", Value: " + (value + (" " + (unit + (", Date: " + date))))
      by { FormatStep(parts, 2); }
    assert Format(parts[1..]) == name + (", Value: " + (value + (" " + (unit + (", Date: " + date)))))
      by { FormatStep(parts, 1); }
    assert Format(parts[0..]) == "Sensor: " + (name + (", Value: " + (value + (" " + (unit + (", Date: " + date))))))
      by { FormatStep(parts, 0); }
    assert parts[0..] == parts;
  }

  /** `__str__`, the f-string "Sensor: {name}, Value: {value} {unit}, Date: {date}". */
  function Str(s: DataSensor, realText: real -> string): (r: string)
    ensures r == "Sensor: " + Show(s.name, realText) + ", Value: " + Show(s.value, realText) + " "
                 + Show(s.unit, realText) + ", Date: " + Show(s.date, realText)
  {
    FormatTemplate(Show(s.name, realText), Show(s.value, realText), Show(s.unit, realText),
                   Show(s.date, realText));
    Format(["Sensor: ", Show(s.name, realText), ", Value: ", Show(s.value, realText), " ",
            Show(s.unit, realText), ", Date: ", Show(s.date, realText)])
  }
}
