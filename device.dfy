/** A device of the registry, as `Clases/device.py` builds it from a dictionary. */
module Devices {
  import opened Json
  import opened Signature

  datatype Device = Device(id: Value, tankId: Value, code: Value, name: Value, createdAt: Value, updatedAt: Value)

  /** `__init__(self, id, tankId, code, name, createdAt=None, updatedAt=None)` */
  const DeviceParams := Params({"id", "tankId", "code", "name"}, {"createdAt", "updatedAt"}, false)

  /** `d.__dict__`, which is what `diccionario` returns. */
  function Dict(d: Device): (r: Record)
    ensures r.Keys == {"id", "tankId", "code", "name", "createdAt", "updatedAt"}
  {
    map["id" := d.id, "tankId" := d.tankId, "code" := d.code, "name" := d.name,
        "createdAt" := d.createdAt, "updatedAt" := d.updatedAt]
  }

  /** `Device(**r)`; None where the call raises `TypeError`. The new object's attributes
      are the defaults overridden by the given dictionary. */
  function Decode(r: Record): (d: Option<Device>)
    ensures d.Some? <==> {"id", "tankId", "code", "name"} <= r.Keys <= {"id", "tankId", "code", "name", "createdAt", "updatedAt"}
    ensures d.Some? ==> Dict(d.value) == map["createdAt" := Null, "updatedAt" := Null] + r
  {
    if Accepts(DeviceParams, r.Keys) then
      Some(Device(r["id"], r["tankId"], r["code"], r["name"], Get(r, "createdAt", Null), Get(r, "updatedAt", Null)))
    else
      None
  }

  /** Decoding what `diccionario` returns rebuilds the same device. */
  lemma DecodeDict(d: Device)
    ensures Decode(Dict(d)) == Some(d)
  {
  }

  /** The template of `__str__` renders as its parts written out in order. */
  lemma FormatTemplate(name: string, id: string, tankId: string)
    ensures Format([name, " (ID: ", id, ", Tank: ", tankId, ")"])
         == name + " (ID: " + id + ", Tank: " + tankId + ")"
  {
    var parts := [name, " (ID: ", id, ", Tank: ", tankId, ")"];
    assert parts[6..] == [];
    assert Format(parts[5..]) == ")" by { FormatStep(parts, 5); }
    assert Format(parts[4..]) == tankId + ")" by { FormatStep(parts, 4); }
    assert Format(parts[3..]) == ", Tank: " + (tankId + ")") by { FormatStep(parts, 3); }
    assert Format(parts[2..]) == id + (", Tank: " + (tankId + ")")) by { FormatStep(parts, 2); }
    assert Format(parts[1..]) == " (ID: " + (id + (", Tank: " + (tankId + ")")))
      by { FormatStep(parts, 1); }
    assert Format(parts[0..]) == name + (" (ID: " + (id + (", Tank: " + (tankId + ")"))))
      by { FormatStep(parts, 0); }
    assert parts[0..] == parts;
  }

  /** `__str__`, the f-string "{name} (ID: {id}, Tank: {tankId})". */
  function Str(d: Device, realText: real -> string): (r: string)
    ensures r == Show(d.name, realText) + " (ID: " + Show(d.id, realText) + ", Tank: " + Show(d.tankId, realText) + ")"
  {
    FormatTemplate(Show(d.name, realText), Show(d.id, realText), Show(d.tankId, realText));
    Format([Show(d.name, realText), " (ID: ", Show(d.id, realText), ", Tank: ",
            Show(d.tankId, realText), ")"])
  }
}
