/** `Clases/sensor_scheduler.py`: the bookkeeping of the per-device reading threads. The
    threads themselves are opaque handles; their loops are reduced to what one cycle does. */
module Scheduler {
  import opened Json
  import opened Signature

  /** A started reading thread, for the device it was created with. */
  datatype Handle = Thread(device: Record)

  /** `device.get('reading_interval', 300)` */
  function Interval(device: Record): (v: Value)
    ensures "reading_interval" !in device ==> v == Int(300)
    ensures "reading_interval" in device ==> v == device["reading_interval"]
  {
    Get(device, "reading_interval", Int(300))
  }

  /** Whether `interval/60` in the load report can be computed: a number or a bool. */
  predicate Numeric(v: Value) {
    v.Int? || v.Real? || v.Bool?
  }

  /** `cargar_dispositivos`, given what `json.load` produced (None where opening or
      decoding raised). The report loop divides each interval by 60, so a device whose
      interval is not a number makes the whole load fall back to no devices. */
  function LoadDevices(loaded: Option<seq<Record>>): (devices: seq<Record>)
    ensures loaded.None? ==> devices == []
    ensures loaded.Some? && (forall j :: 0 <= j < |loaded.value| ==> Numeric(Interval(loaded.value[j]))) ==>
      devices == loaded.value
    ensures loaded.Some? && !(forall j :: 0 <= j < |loaded.value| ==> Numeric(Interval(loaded.value[j]))) ==>
      devices == []
  {
    match loaded
    case None => []
    case Some(ds) => if forall j :: 0 <= j < |ds| ==> Numeric(Interval(ds[j])) then ds else []
  }

  /** The thread map the start loop builds from `devices` into an empty map: one entry per
      truthy code, a later device overriding an earlier one with the same code. */
  function ThreadsFor(devices: seq<Record>): map<Value, Handle> {
    if devices == [] then map[]
    else
      var front := ThreadsFor(devices[..|devices| - 1]);
      var last := devices[|devices| - 1];
      var code := Get(last, "code", Null);
      if Truthy(code) then front[code := Thread(last)] else front
  }

  /** The keys of the thread map are exactly the truthy codes of the devices. */
  lemma {:induction false} ThreadsForKeys(devices: seq<Record>, code: Value)
    ensures code in ThreadsFor(devices) <==>
      Truthy(code) && exists j :: 0 <= j < |devices| && Get(devices[j], "code", Null) == code
  {
    if devices != [] {
      var n := |devices| - 1;
      ThreadsForKeys(devices[..n], code);
      if exists j :: 0 <= j < n && Get(devices[..n][j], "code", Null) == code {
        var j :| 0 <= j < n && Get(devices[..n][j], "code", Null) == code;
        assert devices[j] == devices[..n][j];
      }
      if exists j :: 0 <= j < |devices| && Get(devices[j], "code", Null) == code {
        var j :| 0 <= j < |devices| && Get(devices[j], "code", Null) == code;
        if j < n {
          assert devices[..n][j] == devices[j];
        }
      }
    }
  }

  /** Each code runs the thread of the last device carrying it. */
  lemma {:induction false} ThreadsForLastWins(devices: seq<Record>, j: nat)
    requires j < |devices| && Truthy(Get(devices[j], "code", Null))
    requires forall l :: j < l < |devices| ==> Get(devices[l], "code", Null) != Get(devices[j], "code", Null)
    ensures Get(devices[j], "code", Null) in ThreadsFor(devices)
    ensures ThreadsFor(devices)[Get(devices[j], "code", Null)] == Thread(devices[j])
  {
    var n := |devices| - 1;
    if j < n {
      var front := devices[..n];
      assert front[j] == devices[j];
      forall l | j < l < n ensures Get(front[l], "code", Null) != Get(front[j], "code", Null) {
        assert front[l] == devices[l];
      }
      ThreadsForLastWins(front, j);
    }
  }

  /** `leer_serial_una_vez(puerto=..., baudios=..., archivo_salida=..., timeout_lectura=...)` */
  const ReadOnceParams := Params({}, {"puerto", "baudios", "archivo_salida", "timeout_lectura"}, false)

  /** The keyword arguments each cycle of a reading thread passes to `leer_serial_una_vez`. */
  const CycleKeys := {"puerto", "timeout_lectura", "sensor_filter"}

  /** What one cycle of `leer_sensor_periodico` comes to. */
  datatype Cycle = ReadDone | ReadFailed

  /** One cycle: the call binds or raises `TypeError`, which the cycle's handler catches
      before sleeping for the device's interval. No cycle of any thread ever reads: every
      one ends in the handler, and the readings file is never touched by the scheduler. */
  function RunCycle(device: Record): (c: Cycle)
    ensures c == ReadFailed
  {
    if Accepts(ReadOnceParams, CycleKeys) then ReadDone else ReadFailed
  }

  /** The failure is due to `sensor_filter` alone: it is not a parameter of
      `leer_serial_una_vez`, and the same call without it would bind. */
  lemma SensorFilterRefused()
    ensures !Accepts(ReadOnceParams, CycleKeys)
    ensures Accepts(ReadOnceParams, CycleKeys - {"sensor_filter"})
  {
    assert "sensor_filter" in CycleKeys && "sensor_filter" !in ReadOnceParams.optional;
  }

  lemma {:induction false} SubsetSize<T>(a: set<T>, b: set<T>)
    requires a <= b
    ensures |a| <= |b|
    decreases |b|
  {
    if a != {} {
      var x :| x in a;
      SubsetSize(a - {x}, b - {x});
    }
  }

  /** One entry of `obtener_estado()["sensors"]`. */
  datatype SensorStatus = SensorStatus(code: Value, name: Value, interval: Value, active: bool)

  /** The dictionary `obtener_estado` returns. */
  datatype Estado = Estado(running: bool, totalDevices: nat, activeThreads: nat, sensors: seq<SensorStatus>)

  class SensorScheduler {
    var puertoSerial: string
    var devicesFile: string
    var sensorThreads: map<Value, Handle>
    var running: bool
    var devices: seq<Record>

    /** No thread is registered while the scheduler is stopped. */
    ghost predicate Valid()
      reads this
    {
      !running ==> sensorThreads == map[]
    }

    /** `SensorScheduler(puerto_serial="COM6", devices_file="Jsons_DATA/devices.json")` */
    constructor (puerto: string, file: string)
      ensures Valid()
      ensures puertoSerial == puerto && devicesFile == file
      ensures sensorThreads == map[] && !running && devices == []
    {
      puertoSerial, devicesFile := puerto, file;
      sensorThreads, running, devices := map[], false, [];
    }

    /** `iniciar_programacion`, with `loaded` standing for what `json.load` of the devices
        file gives. Already running: nothing happens. Otherwise the devices are reloaded;
        with none the scheduler stays stopped, and with some it runs one thread per truthy
        code. */
    method IniciarProgramacion(loaded: Option<seq<Record>>)
      requires Valid()
      modifies this
      ensures Valid()
      ensures puertoSerial == old(puertoSerial) && devicesFile == old(devicesFile)
      ensures old(running) ==> running && devices == old(devices) && sensorThreads == old(sensorThreads)
      ensures !old(running) ==> devices == LoadDevices(loaded)
      ensures !old(running) ==> running == (devices != [])
      ensures !old(running) ==> sensorThreads == ThreadsFor(devices)
    {
      if running {
        return;
      }
      devices := LoadDevices(loaded);
      if devices == [] {
        return;
      }
      running := true;
      var i := 0;
      while i < |devices|
        invariant 0 <= i <= |devices|
        invariant running && devices == LoadDevices(loaded)
        invariant puertoSerial == old(puertoSerial) && devicesFile == old(devicesFile)
        invariant sensorThreads == ThreadsFor(devices[..i])
      {
        var device := devices[i];
        var sensorCode := Get(device, "code", Null);
        assert devices[..i + 1][..i] == devices[..i];
        if Truthy(sensorCode) {
          sensorThreads := sensorThreads[sensorCode := Thread(device)];
        }
        i := i + 1;
      }
      assert devices[..i] == devices;
    }

    /** `detener_programacion`: stop and forget every thread (the joins are not modelled). */
    method DetenerProgramacion()
      modifies this
      ensures Valid()
      ensures !running && sensorThreads == map[]
      ensures devices == old(devices) && puertoSerial == old(puertoSerial) && devicesFile == old(devicesFile)
    {
      running := false;
      sensorThreads := map[];
    }

    /** `obtener_estado`, given which threads are alive. */
    function ObtenerEstado(isAlive: Handle -> bool): (e: Estado)
      reads this
      requires Valid()
      ensures e.running == running && e.totalDevices == |devices|
      ensures e.activeThreads == |set c | c in sensorThreads && isAlive(sensorThreads[c])|
      ensures e.activeThreads <= |sensorThreads|
      ensures !running ==> e.activeThreads == 0
      ensures |e.sensors| == |devices|
      ensures forall j :: 0 <= j < |devices| ==>
        && e.sensors[j].code == Get(devices[j], "code", Null)
        && e.sensors[j].name == Get(devices[j], "name", Null)
        && e.sensors[j].interval == Interval(devices[j])
        && (e.sensors[j].active <==> Get(devices[j], "code", Null) in sensorThreads
                                      && isAlive(sensorThreads[Get(devices[j], "code", Null)]))
      ensures !running ==> forall j :: 0 <= j < |e.sensors| ==> !e.sensors[j].active
    {
      var alive := set c | c in sensorThreads && isAlive(sensorThreads[c]);
      SubsetSize(alive, sensorThreads.Keys);
      var threads := sensorThreads;
      Estado(running, |devices|, |alive|,
             seq(|devices|, j requires 0 <= j < |devices| reads this =>
               var code := Get(devices[j], "code", Null);
               SensorStatus(code, Get(devices[j], "name", Null), Interval(devices[j]),
                            code in threads && isAlive(threads[code]))))
    }

    /** `recargar_dispositivos`: stop, then start again from the file. */
    method RecargarDispositivos(loaded: Option<seq<Record>>)
      modifies this
      ensures Valid()
      ensures devices == LoadDevices(loaded)
      ensures running == (devices != [])
      ensures sensorThreads == ThreadsFor(devices)
      ensures puertoSerial == old(puertoSerial) && devicesFile == old(devicesFile)
    {
      DetenerProgramacion();
      IniciarProgramacion(loaded);
    }
  }
}
