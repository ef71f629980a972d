/** An alert record, as `Clases/alerta.py` builds it from a dictionary. */
module Alertas {
  import opened Json
  import opened Signature

  datatype Alerta = Alerta(id: Value, tankId: Value, deviceId: Value, code: Value, value: Value,
                           message: Value, date: Value, synced: Value)

  /** `__init__(self, id, tankId, deviceId, code, value, message, date, synced=False)` */
  const AlertaParams := Params({"id", "tankId", "deviceId", "code", "value", "message", "date"}, {"synced"}, false)

  /** `a.__dict__`, which is what `diccionario` returns. */
  function Dict(a: Alerta): (r: Record)
    ensures r.Keys == {"id", "tankId", "deviceId", "code", "value", "message", "date", "synced"}
  {
    map["id" := a.id, "tankId" := a.tankId, "deviceId" := a.deviceId, "code" := a.code,
        "value" := a.value, "message" := a.message, "date" := a.date, "synced" := a.synced]
  }

  /** `Alerta(**r)`; None where the call raises `TypeError`. */
  function Decode(r: Record): (a: Option<Alerta>)
    ensures a.Some? <==>
      {"id", "tankId", "deviceId", "code", "value", "message", "date"} <= r.Keys <=
      {"id", "tankId", "deviceId", "code", "value", "message", "date", "synced"}
    ensures a.Some? ==> Dict(a.value) == map["synced" := Bool(false)] + r
  {
    if Accepts(AlertaParams, r.Keys) then
      Some(Alerta(r["id"], r["tankId"], r["deviceId"], r["code"], r["value"], r["message"], r["date"],
                  Get(r, "synced", Bool(false))))
    else
      None
  }

  /** Decoding what `diccionario` returns rebuilds the same alert. */
  lemma DecodeDict(a: Alerta)
    ensures Decode(Dict(a)) == Some(a)
  {
  }

  /** The template of `__str__` renders as its parts written out in order. */
  lemma FormatTemplate(code: string, value: string, message: string, date: string)
    ensures Format(["Alerta - ", code, ": ", value, " - ", message, " (", date, ")"])
         == "Alerta - " + code + ": " + value + " - " + message + " (" + date + ")"
  {
    var parts := ["Alerta - ", code, ": ", value, " - ", message, " (", date, ")"];
    assert parts[9..] == [];
    assert Format(parts[8..]) == ")" by { FormatStep(parts, 8); }
    assert Format(parts[7..]) == date + ")" by { FormatStep(parts, 7); }
    assert Format(parts[6..]) == " (" + (date + ")") by { FormatStep(parts, 6); }
    assert Format(parts[5..]) == message + (" (" + (date + ")")) by { FormatStep(parts, 5); }
    assert Format(parts[4..]) == " - " + (message + (" (" + (date + ")"))) by { FormatStep(parts, 4); }
    assert Format(parts[3..]) == value + (" - " + (message + (" (" + (date + ")"))))
      by { FormatStep(parts, 3); }
    assert Format(parts[2..]) == ": " + (value + (" - " + (message + (" (" + (date + ")")))))
      by { FormatStep(parts, 2); }
    assert Format(parts[1..]) == code + (": " + (value + (" - " + (message + (" (" + (date + ")"))))))
      by { FormatStep(parts, 1); }
    assert Format(parts[0..]) == "Alerta - " + (code + (": " + (value + (" - " + (message + (" (" + (date + ")")))))))
      by { FormatStep(parts, 0); }
    assert parts[0..] == parts;
  }

  /** `__str__`, the f-string "Alerta - {code}: {value} - {message} ({date})". */
  function Str(a: Alerta, realText: real -> string): (r: string)
    ensures r == "Alerta - " + Show(a.code, realText) + ": " + Show(a.value, realText) + " - "
                 + Show(a.message, realText) + " (" + Show(a.date, realText) + ")"
  {
    FormatTemplate(Show(a.code, realText), Show(a.value, realText), Show(a.message, realText),
                   Show(a.date, realText));
    Format(["Alerta - ", Show(a.code, realText), ": ", Show(a.value, realText), " - ",
            Show(a.message, realText), " (", Show(a.date, realText), ")"])
  }
}
