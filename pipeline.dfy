/** Facts that hold across files: what the device registry writes and the scheduler reads,
    and how pruning the readings file interacts with id assignment. */
module Pipeline {
  import opened Json
  import opened Listas
  import Devices
  import Scheduler
  import Arduino
  import Sync

  /** The keys of a `Device`'s attribute dictionary. */
  const DeviceKeys := {"id", "tankId", "code", "name", "createdAt", "updatedAt"}

  /** `guardar_dispositivos_json` up to the write: the devices the API returned go through a
      `Lista(Device)`, and the file receives its `diccionario()`. */
  method GuardarDispositivos(dispositivos: Input) returns (guardado: seq<Record>)
    ensures |guardado| == |Admitted(DeviceClass, Items(dispositivos))|
    ensures forall j :: 0 <= j < |guardado| ==>
      guardado[j] == Devices.Dict(Admitted(DeviceClass, Items(dispositivos))[j].device)
    ensures forall j :: 0 <= j < |guardado| ==> guardado[j].Keys == DeviceKeys
  {
    var lista := new Lista(Some(DeviceClass), None);
    lista.AgregarElementos(dispositivos);
    var dicts := lista.Diccionario();
    ghost var admitted := Admitted(DeviceClass, Items(dispositivos));
    assert lista.elementos == admitted;
    guardado := seq(|dicts|, j requires 0 <= j < |dicts| => if dicts[j].Fields? then dicts[j].fields else map[]);
    forall j | 0 <= j < |guardado|
      ensures guardado[j] == Devices.Dict(admitted[j].device)
    {
      assert KindOf(admitted[j]) == DeviceClass;
      assert dicts[j] == PlainOf(admitted[j]);
    }
  }

  /** A device dictionary carrying `reading_interval` is not a valid `Device(**d)` call, so
      the registry drops it without a word. */
  lemma IntervalDropsDevice(r: Record)
    requires "reading_interval" in r
    ensures Admit(DeviceClass, Dict(r)) == None
  {
  }

  /** A devices file written by the registry loads in the scheduler as written, and every
      device runs on the default interval of 300 seconds. */
  lemma RegistryFileUsesDefaultInterval(saved: seq<Record>)
    requires forall j :: 0 <= j < |saved| ==> saved[j].Keys == DeviceKeys
    ensures Scheduler.LoadDevices(Some(saved)) == saved
    ensures forall j :: 0 <= j < |saved| ==> Scheduler.Interval(saved[j]) == Int(300)
  {
    assert forall j :: 0 <= j < |saved| ==> "reading_interval" !in saved[j];
  }

  /** Ids are not unique over time: when pruning removes the record holding the largest id,
      the next id handed out after the prune is at most that id, which was already used. */
  lemma {:induction false} PruneReissuesId(rs: seq<Record>, cutoff: int, parseIso: string -> Option<Sync.Instant>, j: nat)
    requires j < |rs| && !Sync.Keep(rs[j], cutoff, parseIso)
    requires Arduino.NextId(rs).Some? && Arduino.IdOf(rs[j]) == Some(Arduino.NextId(rs).value - 1)
    requires Arduino.IdOf(rs[j]).value >= 1
    requires forall l :: 0 <= l < |rs| && l != j ==>
      Arduino.IdOf(rs[l]).Some? && Arduino.IdOf(rs[l]).value < Arduino.IdOf(rs[j]).value
    ensures Arduino.NextId(Sync.Kept(rs, cutoff, parseIso)).Some?
    ensures Arduino.NextId(Sync.Kept(rs, cutoff, parseIso)).value <= Arduino.IdOf(rs[j]).value
  {
    var kept := Sync.Kept(rs, cutoff, parseIso);
    Arduino.NextIdBounds(kept);
    forall m | 0 <= m < |kept|
      ensures Arduino.IdOf(kept[m]).Some? && Arduino.IdOf(kept[m]).value < Arduino.IdOf(rs[j]).value
    {
      assert kept[m] in kept;
      Sync.KeptMembers(rs, cutoff, parseIso, kept[m]);
      var l :| 0 <= l < |rs| && rs[l] == kept[m];
    }
    if kept != [] {
      var top :| 0 <= top < |kept| && Arduino.IdOf(kept[top]) == Some(Arduino.NextId(kept).value - 1);
      assert Arduino.IdOf(kept[top]).value < Arduino.IdOf(rs[j]).value;
    }
  }

  /** The two-reading file of the instance below: an unsynced reading with id 1, and a
      synced reading with id 2 dated "2024-01-01". */
  function ExampleFile(): seq<Record> {
    [map["id" := Int(1)], map["id" := Int(2), "synced" := Bool(true), "date" := Str("2024-01-01")]]
  }

  lemma ExampleNextId()
    ensures Arduino.NextId(ExampleFile()) == Some(3)
  {
    var rs := ExampleFile();
    assert Arduino.IdOf(rs[0]) == Some(1) && Arduino.IdOf(rs[1]) == Some(2);
    assert rs[..1] == [rs[0]];
    assert Arduino.MaxId([rs[0]]) == Some(1);
  }

  lemma ExampleKeep(parseIso: string -> Option<Sync.Instant>, cutoff: int)
    requires parseIso("2024-01-01") == Some(Sync.Naive(0)) && cutoff >= 0
    ensures Sync.Keep(ExampleFile()[0], cutoff, parseIso) && !Sync.Keep(ExampleFile()[1], cutoff, parseIso)
  {
    ExampleDropsSecond(parseIso, cutoff);
    assert !Sync.IsSynced(ExampleFile()[0]);
  }

  lemma ExampleDropsSecond(parseIso: string -> Option<Sync.Instant>, cutoff: int)
    requires parseIso("2024-01-01") == Some(Sync.Naive(0)) && cutoff >= 0
    ensures !Sync.Keep(ExampleFile()[1], cutoff, parseIso)
  {
    var second := ExampleFile()[1];
    var date := "2024-01-01";
    assert Sync.IsSynced(second) && second["date"] == Str(date);
    Sync.ReplaceZKeeps(date);
    assert parseIso(Sync.ReplaceZ(second["date"].s)) == Some(Sync.Naive(0));
    Sync.KeepCases(second, cutoff, parseIso);
  }

  lemma KeptTwo(a: Record, b: Record, cutoff: int, parseIso: string -> Option<Sync.Instant>)
    requires Sync.Keep(a, cutoff, parseIso) && !Sync.Keep(b, cutoff, parseIso)
    ensures Sync.Kept([a, b], cutoff, parseIso) == [a]
  {
    assert [a, b][..1] == [a];
    assert [a][..0] == [];
  }

  lemma ExampleKept(parseIso: string -> Option<Sync.Instant>, cutoff: int)
    requires parseIso("2024-01-01") == Some(Sync.Naive(0)) && cutoff >= 0
    ensures Sync.Kept(ExampleFile(), cutoff, parseIso) == [ExampleFile()[0]]
  {
    var rs := ExampleFile();
    ExampleKeep(parseIso, cutoff);
    KeptTwo(rs[0], rs[1], cutoff, parseIso);
    assert rs == [rs[0], rs[1]];
  }

  lemma ExampleNextIdAfter()
    ensures Arduino.NextId([ExampleFile()[0]]) == Some(2)
  {
    assert Arduino.IdOf(ExampleFile()[0]) == Some(1);
  }

  /** An instance: the second of two readings has been synced and is old enough to prune;
      after the prune the next reading is given id 2 again. */
  lemma PruneReissuesIdExample(parseIso: string -> Option<Sync.Instant>, now: int)
    requires parseIso("2024-01-01") == Some(Sync.Naive(0)) && now > 7 * 86400
    ensures Arduino.NextId(ExampleFile()) == Some(3)
    ensures Arduino.NextId(Sync.Kept(ExampleFile(), Sync.Cutoff(now, 7), parseIso)) == Some(2)
  {
    ExampleNextId();
    ExampleKept(parseIso, Sync.Cutoff(now, 7));
    ExampleNextIdAfter();
  }
}
