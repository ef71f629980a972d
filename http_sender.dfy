/** `Clases/http_sender.py`: posting readings to the backend, and the retry-by-file pass
    that sends every pending reading grouped by tank and empties the file only when
    every post succeeded. The network is an oracle of responses. */
module HttpSender {
  import opened Json

  /** How a POST ends: an HTTP status with whether its body decodes as JSON, or one of the
      exceptions the sender catches. */
  datatype Response = Status(code: int, jsonBody: bool) | Timeout | ConnectionError | OtherError

  /** `enviar_datos_sensor` reports success for status 200 only when the body decodes:
      the success branch logs `response.json()`, and a body that is not JSON raises into
      the `except Exception` handler, which reports false. */
  predicate Ok(r: Response) {
    r.Status? && r.code == 200 && r.jsonBody
  }

  /** The fields of the single-reading payload, in the order the `payload` literal of `enviar_datos_sensor`
      writes them;
      `nowText` is `datetime.now().isoformat()`. */
  function PayloadPairs(tankId: Value, data: Record, nowText: string): seq<(string, Value)> {
    [("tank_id", tankId), ("sensor", Get(data, "sensor", Null)), ("device_id", Get(data, "deviceId", Null)),
     ("code", Get(data, "code", Null)), ("value", Get(data, "value", Null)),
     ("unit", Get(data, "unit", Str("N/A"))), ("timestamp", Get(data, "date", Str(nowText)))]
  }

  function Payload(tankId: Value, data: Record, nowText: string): Record {
    FromPairs(PayloadPairs(tankId, data, nowText))
  }

  /** The payload carries the given tank id, copies sensor, code and value, renames
      `deviceId` to `device_id` and `date` to `timestamp`, and defaults the unit to "N/A"
      and the timestamp to now; a field the reading lacks is None. */
  lemma PayloadFields(tankId: Value, data: Record, nowText: string)
    ensures var p := Payload(tankId, data, nowText);
      && p.Keys == {"tank_id", "sensor", "device_id", "code", "value", "unit", "timestamp"}
      && p["tank_id"] == tankId
      && p["sensor"] == Get(data, "sensor", Null) && p["code"] == Get(data, "code", Null)
      && p["value"] == Get(data, "value", Null) && p["device_id"] == Get(data, "deviceId", Null)
      && p["unit"] == (if "unit" in data then data["unit"] else Str("N/A"))
      && p["timestamp"] == (if "date" in data then data["date"] else Str(nowText))
  {
    var ps := PayloadPairs(tankId, data, nowText);
    FromPairsKeys(ps);
    assert ps[0].0 == "tank_id" && ps[1].0 == "sensor" && ps[2].0 == "device_id" && ps[3].0 == "code";
    assert ps[4].0 == "value" && ps[5].0 == "unit" && ps[6].0 == "timestamp";
    assert (set j | 0 <= j < |ps| :: ps[j].0) == {"tank_id", "sensor", "device_id", "code", "value", "unit", "timestamp"};
    forall j | 0 <= j < |ps| ensures ps[j].0 in FromPairs(ps) && FromPairs(ps)[ps[j].0] == ps[j].1 {
      FromPairsAt(ps, j);
    }
  }

  /** `enviar_datos_sensor`: builds the payload and reports whether the backend answered 200
      with a JSON body; another status, a 200 whose body does not decode, a timeout, a
      connection error or any other failure reports false. */
  method EnviarDatosSensor(tankId: Value, data: Record, response: Response, nowText: string)
    returns (ok: bool, payload: Record)
    ensures ok <==> response.Status? && response.code == 200 && response.jsonBody
    ensures payload == Payload(tankId, data, nowText)
  {
    payload := Payload(tankId, data, nowText);
    ok := false;
    if response.Status? && response.code == 200 {
      ok := response.jsonBody;
    }
  }

  /** The body `enviar_lote_datos` posts. */
  datatype BatchBody = BatchBody(sensorData: seq<Record>, timestamp: string)

  /** `enviar_lote_datos`: the list goes out unchanged under "sensor_data", stamped with
      now; the result is whether the backend answered 200, whatever the body, which this
      function never decodes. */
  method EnviarLoteDatos(datosSensores: seq<Record>, response: Response, nowText: string)
    returns (ok: bool, body: BatchBody)
    ensures ok <==> response.Status? && response.code == 200
    ensures body.sensorData == datosSensores && body.timestamp == nowText
  {
    body := BatchBody(datosSensores, nowText);
    ok := response.Status? && response.code == 200;
  }

  /** `dato.get('id_tank')`, the key a pending reading is grouped under. */
  function TankOf(r: Record): Value {
    Get(r, "id_tank", Null)
  }

  /** The tanks of `ps` in order of first appearance: the key order of `datos_por_tanque`. */
  function Tanks(ps: seq<Record>): seq<Value> {
    if ps == [] then []
    else
      var front := Tanks(ps[..|ps| - 1]);
      var t := TankOf(ps[|ps| - 1]);
      if t in front then front else front + [t]
  }

  /** `datos_por_tanque[t]`: the readings of tank `t`, in file order. */
  function Group(ps: seq<Record>, t: Value): seq<Record> {
    if ps == [] then []
    else
      var front := Group(ps[..|ps| - 1], t);
      var last := ps[|ps| - 1];
      if TankOf(last) == t then front + [last] else front
  }

  /** One more reading adds its tank at the end when the tank is new. */
  lemma TanksSnoc(ps: seq<Record>, x: Record)
    ensures Tanks(ps + [x]) == if TankOf(x) in Tanks(ps) then Tanks(ps) else Tanks(ps) + [TankOf(x)]
  {
    assert (ps + [x])[..|ps|] == ps;
  }

  /** One more reading joins the end of its own tank's group and no other. */
  lemma GroupSnoc(ps: seq<Record>, x: Record, t: Value)
    ensures Group(ps + [x], t) == if TankOf(x) == t then Group(ps, t) + [x] else Group(ps, t)
  {
    assert (ps + [x])[..|ps|] == ps;
  }

  /** The tanks listed are exactly the tanks of the readings. */
  lemma {:induction false} TanksMembers(ps: seq<Record>, t: Value)
    ensures t in Tanks(ps) <==> exists j :: 0 <= j < |ps| && TankOf(ps[j]) == t
  {
    if ps != [] {
      var n := |ps| - 1;
      var front := ps[..n];
      TanksMembers(front, t);
      assert t in Tanks(ps) <==> t in Tanks(front) || TankOf(ps[n]) == t;
      if t in Tanks(front) {
        var j :| 0 <= j < n && TankOf(front[j]) == t;
        assert TankOf(ps[j]) == t;
      }
      if exists j :: 0 <= j < |ps| && TankOf(ps[j]) == t {
        var j :| 0 <= j < |ps| && TankOf(ps[j]) == t;
        if j < n {
          assert TankOf(front[j]) == t;
        }
      }
    }
  }

  /** No tank is listed twice. */
  lemma {:induction false} TanksDistinct(ps: seq<Record>)
    ensures forall a, b :: 0 <= a < b < |Tanks(ps)| ==> Tanks(ps)[a] != Tanks(ps)[b]
  {
    if ps != [] {
      var n := |ps| - 1;
      assert ps == ps[..n] + [ps[n]];
      TanksSnoc(ps[..n], ps[n]);
      TanksDistinct(ps[..n]);
    }
  }

  /** A tank's group holds exactly the readings of that tank. */
  lemma {:induction false} GroupMembers(ps: seq<Record>, t: Value, r: Record)
    ensures r in Group(ps, t) <==> r in ps && TankOf(r) == t
  {
    if ps != [] {
      var n := |ps| - 1;
      assert ps == ps[..n] + [ps[n]];
      GroupSnoc(ps[..n], ps[n], t);
      GroupMembers(ps[..n], t, r);
    }
  }

  /** The groups of the tanks `ts`, one after the other. */
  function Grouped(ps: seq<Record>, ts: seq<Value>): seq<Record> {
    if ts == [] then [] else Group(ps, ts[0]) + Grouped(ps, ts[1..])
  }

  /** The order in which `procesar_y_enviar_datos_pendientes` posts the pending readings:
      tank by tank in order of first appearance, each tank's readings in file order. */
  function SendOrder(ps: seq<Record>): seq<Record> {
    Grouped(ps, Tanks(ps))
  }

  lemma {:induction false} GroupedSnocTank(ps: seq<Record>, ts: seq<Value>, t: Value)
    ensures Grouped(ps, ts + [t]) == Grouped(ps, ts) + Group(ps, t)
    decreases |ts|
  {
    if ts == [] {
      assert Grouped(ps, [t]) == Group(ps, t) + Grouped(ps, []);
    } else {
      assert (ts + [t])[1..] == ts[1..] + [t];
      GroupedSnocTank(ps, ts[1..], t);
    }
  }

  /** Adding a reading adds it once to the groups of the tanks listed, if its tank is one. */
  lemma {:induction false} GroupedSnocRecord(ps: seq<Record>, x: Record, ts: seq<Value>)
    requires forall a, b :: 0 <= a < b < |ts| ==> ts[a] != ts[b]
    ensures multiset(Grouped(ps + [x], ts)) ==
      multiset(Grouped(ps, ts)) + (if TankOf(x) in ts then multiset{x} else multiset{})
    decreases |ts|
  {
    if ts != [] {
      assert (ps + [x])[..|ps + [x]| - 1] == ps;
      GroupedSnocRecord(ps, x, ts[1..]);
      assert TankOf(x) in ts <==> TankOf(x) == ts[0] || TankOf(x) in ts[1..];
      assert TankOf(x) == ts[0] ==> TankOf(x) !in ts[1..];
    }
  }

  /** No tank other than those of the readings has a non-empty group. */
  lemma {:induction false} GroupEmpty(ps: seq<Record>, t: Value)
    requires t !in Tanks(ps)
    ensures Group(ps, t) == []
  {
    if ps != [] {
      var n := |ps| - 1;
      assert ps == ps[..n] + [ps[n]];
      TanksSnoc(ps[..n], ps[n]);
      GroupSnoc(ps[..n], ps[n], t);
      GroupEmpty(ps[..n], t);
    }
  }

  /** Grouping only reorders: every pending reading is posted exactly once. */
  lemma {:induction false} SendOrderPermutation(ps: seq<Record>)
    ensures multiset(SendOrder(ps)) == multiset(ps)
    ensures |SendOrder(ps)| == |ps|
  {
    if ps != [] {
      var n := |ps| - 1;
      var front := ps[..n];
      var x := ps[n];
      assert ps == front + [x];
      SendOrderPermutation(front);
      var ts := Tanks(front);
      TanksDistinct(front);
      GroupedSnocRecord(front, x, ts);
      TanksSnoc(front, x);
      if TankOf(x) !in ts {
        GroupedSnocTank(ps, ts, TankOf(x));
        GroupEmpty(front, TankOf(x));
        GroupSnoc(front, x, TankOf(x));
        assert multiset(Grouped(ps, ts + [TankOf(x)])) == multiset(Grouped(ps, ts)) + multiset{x};
      }
    }
    assert |SendOrder(ps)| == |multiset(SendOrder(ps))|;
  }

  /** How many of the first `n` posts succeeded: answered with 200 and a JSON body. */
  function Delivered(respond: nat -> Response, n: nat): (d: nat)
    ensures d <= n
    ensures d == n <==> forall k :: 0 <= k < n ==> Ok(respond(k))
  {
    if n == 0 then 0 else Delivered(respond, n - 1) + (if Ok(respond(n - 1)) then 1 else 0)
  }

  /** The pending file as `procesar_y_enviar_datos_pendientes` finds it. */
  datatype PendingFile = Absent | Undecodable | Pending(records: seq<Record>)

  /** `procesar_y_enviar_datos_pendientes`. `respond(k)` answers the k-th post and
      `now(k)` is the time it is built. An absent or undecodable file, or an empty list,
      sends nothing. Otherwise every reading is posted once, in `SendOrder`, each under
      its own tank id; the file is emptied exactly when every post succeeded and left as
      it was otherwise, including the readings that did go through. */
  method ProcesarYEnviarDatosPendientes(file: PendingFile, respond: nat -> Response, now: nat -> string)
    returns (file': PendingFile, datosEnviados: nat, datosFallidos: nat, posted: seq<Record>)
    ensures !file.Pending? || file.records == [] ==>
      file' == file && datosEnviados == 0 && datosFallidos == 0 && posted == []
    ensures file.Pending? && file.records != [] ==>
      var order := SendOrder(file.records);
      && |posted| == |order| == |file.records|
      && (forall k :: 0 <= k < |order| ==> posted[k] == Payload(TankOf(order[k]), order[k], now(k)))
      && datosEnviados == Delivered(respond, |order|)
      && datosEnviados + datosFallidos == |file.records|
      && file' == (if datosFallidos == 0 && datosEnviados > 0 then Pending([]) else file)
      && (file' == Pending([]) <==> forall k :: 0 <= k < |order| ==> Ok(respond(k)))
  {
    file', datosEnviados, datosFallidos, posted := file, 0, 0, [];
    if !file.Pending? || file.records == [] {
      return;
    }
    var pendientes := file.records;
    var tanques, datosPorTanque := GroupByTank(pendientes);
    posted, datosEnviados, datosFallidos := EnviarGrupos(pendientes, tanques, datosPorTanque, respond, now);
    SendOrderPermutation(pendientes);
    if datosFallidos == 0 && datosEnviados > 0 {
      file' := Pending([]);
    }
  }

  /** The outer loop of `procesar_y_enviar_datos_pendientes`: post each tank's group in turn. */
  method EnviarGrupos(pendientes: seq<Record>, tanques: seq<Value>, datosPorTanque: map<Value, seq<Record>>,
                      respond: nat -> Response, now: nat -> string)
    returns (posted: seq<Record>, datosEnviados: nat, datosFallidos: nat)
    requires forall t :: t in tanques ==> t in datosPorTanque && datosPorTanque[t] == Group(pendientes, t)
    ensures PostedFor(posted, Grouped(pendientes, tanques), now)
    ensures datosEnviados + datosFallidos == |posted| && datosEnviados == Delivered(respond, |posted|)
  {
    posted, datosEnviados, datosFallidos := [], 0, 0;
    ghost var order: seq<Record> := [];
    var g := 0;
    while g < |tanques|
      invariant 0 <= g <= |tanques|
      invariant order == Grouped(pendientes, tanques[..g])
      invariant PostedFor(posted, order, now)
      invariant datosEnviados + datosFallidos == |posted|
      invariant datosEnviados == Delivered(respond, |posted|)
    {
      var tankId := tanques[g];
      var datosTanque := datosPorTanque[tankId];
      GroupOfTank(pendientes, tankId);
      posted, datosEnviados, datosFallidos :=
        EnviarTanque(tankId, datosTanque, respond, now, posted, order, datosEnviados, datosFallidos);
      order := order + datosTanque;
      GroupedSnocTank(pendientes, tanques[..g], tankId);
      assert tanques[..g + 1] == tanques[..g] + [tankId];
      g := g + 1;
    }
    assert tanques[..g] == tanques;
  }

  /** Every reading of a tank's group belongs to that tank. */
  lemma GroupOfTank(ps: seq<Record>, t: Value)
    ensures forall j :: 0 <= j < |Group(ps, t)| ==> TankOf(Group(ps, t)[j]) == t
  {
    var g := Group(ps, t);
    forall j | 0 <= j < |g| ensures TankOf(g[j]) == t {
      GroupMembers(ps, t, g[j]);
    }
  }

  /** `posted` holds, in order, the payloads of the readings in `order`, the k-th stamped
      with `now(k)`. */
  ghost predicate PostedFor(posted: seq<Record>, order: seq<Record>, now: nat -> string) {
    && |posted| == |order|
    && forall k :: 0 <= k < |order| ==> posted[k] == Payload(TankOf(order[k]), order[k], now(k))
  }

  /** The inner loop of `procesar_y_enviar_datos_pendientes`: post the readings of one tank, in order, counting
      successes and failures. */
  method EnviarTanque(tankId: Value, datosTanque: seq<Record>, respond: nat -> Response, now: nat -> string,
                      posted: seq<Record>, ghost order: seq<Record>, enviados: nat, fallidos: nat)
    returns (posted': seq<Record>, enviados': nat, fallidos': nat)
    requires forall j :: 0 <= j < |datosTanque| ==> TankOf(datosTanque[j]) == tankId
    requires PostedFor(posted, order, now)
    requires enviados + fallidos == |posted| && enviados == Delivered(respond, |posted|)
    ensures PostedFor(posted', order + datosTanque, now)
    ensures enviados' + fallidos' == |posted'| && enviados' == Delivered(respond, |posted'|)
  {
    posted', enviados', fallidos' := posted, enviados, fallidos;
    var j := 0;
    while j < |datosTanque|
      invariant 0 <= j <= |datosTanque|
      invariant PostedFor(posted', order + datosTanque[..j], now)
      invariant enviados' + fallidos' == |posted'| && enviados' == Delivered(respond, |posted'|)
    {
      var dato := datosTanque[j];
      var ok, payload := EnviarDatosSensor(tankId, dato, respond(|posted'|), now(|posted'|));
      if ok {
        enviados' := enviados' + 1;
      } else {
        fallidos' := fallidos' + 1;
      }
      PostedForSnoc(posted', order + datosTanque[..j], now, dato, payload);
      assert order + datosTanque[..j + 1] == (order + datosTanque[..j]) + [dato];
      posted' := posted' + [payload];
      j := j + 1;
    }
    assert datosTanque[..j] == datosTanque;
  }

  lemma PostedForSnoc(posted: seq<Record>, order: seq<Record>, now: nat -> string, x: Record, payload: Record)
    requires PostedFor(posted, order, now) && payload == Payload(TankOf(x), x, now(|order|))
    ensures PostedFor(posted + [payload], order + [x], now)
  {
    forall k | 0 <= k < |order| + 1
      ensures (posted + [payload])[k] == Payload(TankOf((order + [x])[k]), (order + [x])[k], now(k))
    {
      if k < |order| {
        assert (posted + [payload])[k] == posted[k] && (order + [x])[k] == order[k];
      }
    }
  }

  /** The grouping loop of `procesar_y_enviar_datos_pendientes`: the tanks in order of first appearance and, for
      each, its readings in file order. */
  method GroupByTank(pendientes: seq<Record>) returns (tanques: seq<Value>, datosPorTanque: map<Value, seq<Record>>)
    ensures tanques == Tanks(pendientes)
    ensures forall t :: t in datosPorTanque <==> t in tanques
    ensures forall t :: t in datosPorTanque ==> datosPorTanque[t] == Group(pendientes, t)
  {
    tanques, datosPorTanque := [], map[];
    var i := 0;
    while i < |pendientes|
      invariant 0 <= i <= |pendientes|
      invariant tanques == Tanks(pendientes[..i])
      invariant forall t :: t in datosPorTanque <==> t in tanques
      invariant forall t :: t in datosPorTanque ==> datosPorTanque[t] == Group(pendientes[..i], t)
    {
      var dato := pendientes[i];
      ghost var prefix := pendientes[..i];
      assert pendientes[..i + 1] == prefix + [dato];
      datosPorTanque, tanques := AddToGroup(prefix, dato, tanques, datosPorTanque);
      i := i + 1;
    }
    assert pendientes[..i] == pendientes;
  }

  /** One iteration of the grouping loop: open the reading's tank if it is new, then append
      the reading to its group. */
  method AddToGroup(ghost prefix: seq<Record>, dato: Record, tanques: seq<Value>, datosPorTanque: map<Value, seq<Record>>)
    returns (datosPorTanque': map<Value, seq<Record>>, tanques': seq<Value>)
    requires tanques == Tanks(prefix)
    requires forall t :: t in datosPorTanque <==> t in tanques
    requires forall t :: t in datosPorTanque ==> datosPorTanque[t] == Group(prefix, t)
    ensures tanques' == Tanks(prefix + [dato])
    ensures forall t :: t in datosPorTanque' <==> t in tanques'
    ensures forall t :: t in datosPorTanque' ==> datosPorTanque'[t] == Group(prefix + [dato], t)
  {
    var tankId := TankOf(dato);
    TanksSnoc(prefix, dato);
    datosPorTanque', tanques' := datosPorTanque, tanques;
    if tankId !in datosPorTanque' {
      GroupEmpty(prefix, tankId);
      datosPorTanque' := datosPorTanque'[tankId := []];
      tanques' := tanques' + [tankId];
    }
    datosPorTanque' := datosPorTanque'[tankId := datosPorTanque'[tankId] + [dato]];
    forall t | t in datosPorTanque' ensures datosPorTanque'[t] == Group(prefix + [dato], t) {
      GroupSnoc(prefix, dato, t);
    }
  }
}
