/** `Mongo/sync.py`: one pass of the loop that uploads the readings not yet synced,
    marks every record synced, rewrites the local file and prunes old synced records. */
module Sync {
  import opened Json
  import opened Text

  /** `dato.get("synced", False)` read as a condition. */
  predicate IsSynced(r: Record) {
    Truthy(Get(r, "synced", Bool(false)))
  }

  /** `[dato for dato in datos_locales if not dato.get("synced", False)]` */
  function Unsynced(rs: seq<Record>): (u: seq<Record>)
    ensures |u| <= |rs|
    ensures forall r :: r in u <==> r in rs && !IsSynced(r)
  {
    if rs == [] then []
    else
      var front := Unsynced(rs[..|rs| - 1]);
      assert rs == rs[..|rs| - 1] + [rs[|rs| - 1]];
      if IsSynced(rs[|rs| - 1]) then front else front + [rs[|rs| - 1]]
  }

  /** Filtering distributes over concatenation: the batch is taken in file order. */
  lemma {:induction false} UnsyncedAppend(rs: seq<Record>, more: seq<Record>)
    ensures Unsynced(rs + more) == Unsynced(rs) + Unsynced(more)
    decreases |more|
  {
    if more != [] {
      var n := |more| - 1;
      assert (rs + more)[..|rs + more| - 1] == rs + more[..n];
      UnsyncedAppend(rs, more[..n]);
    } else {
      assert rs + more == rs;
    }
  }

  /** `{k: v for k, v in dato.items() if k != "synced"}` */
  function WithoutSynced(r: Record): (d: Record)
    ensures "synced" !in d
    ensures forall k :: k != "synced" ==> (k in d <==> k in r)
    ensures forall k :: k in d ==> d[k] == r[k]
  {
    r - {"synced"}
  }

  /** The documents handed to `insertar_documentos`. */
  function Batch(rs: seq<Record>): (b: seq<Record>)
    ensures |b| == |Unsynced(rs)|
    ensures forall j :: 0 <= j < |b| ==> "synced" !in b[j]
    ensures forall j, k :: 0 <= j < |b| && k != "synced" ==>
      (k in b[j] <==> k in Unsynced(rs)[j]) && (k in b[j] ==> b[j][k] == Unsynced(rs)[j][k])
  {
    var u := Unsynced(rs);
    seq(|u|, j requires 0 <= j < |u| => WithoutSynced(u[j]))
  }

  /** `dato["synced"] = True` for a record that is not synced. */
  function Mark(r: Record): Record {
    if IsSynced(r) then r else r["synced" := Bool(true)]
  }

  /** The list after the marking loop of `sincronizar_a_mongo`. */
  function MarkedAll(rs: seq<Record>): (m: seq<Record>)
    ensures |m| == |rs|
  {
    seq(|rs|, j requires 0 <= j < |rs| => Mark(rs[j]))
  }

  /** After marking every record is synced; a record that was synced is untouched, and
      no field other than `synced` changes in any record. */
  lemma MarkedAllFields(rs: seq<Record>)
    ensures forall j :: 0 <= j < |rs| ==> IsSynced(MarkedAll(rs)[j])
    ensures forall j :: 0 <= j < |rs| && IsSynced(rs[j]) ==> MarkedAll(rs)[j] == rs[j]
    ensures forall j :: 0 <= j < |rs| && !IsSynced(rs[j]) ==> MarkedAll(rs)[j]["synced"] == Bool(true)
    ensures forall j, k :: 0 <= j < |rs| && k != "synced" ==>
      (k in MarkedAll(rs)[j] <==> k in rs[j]) && (k in rs[j] ==> MarkedAll(rs)[j][k] == rs[j][k])
  {
  }

  /** Marking twice is marking once, and nothing is left to upload afterwards. */
  lemma MarkedAllIdempotent(rs: seq<Record>)
    ensures MarkedAll(MarkedAll(rs)) == MarkedAll(rs)
    ensures Unsynced(MarkedAll(rs)) == []
  {
    MarkedAllFields(rs);
    NoneUnsynced(MarkedAll(rs));
  }

  lemma {:induction false} NoneUnsynced(rs: seq<Record>)
    requires forall j :: 0 <= j < |rs| ==> IsSynced(rs[j])
    ensures Unsynced(rs) == []
  {
    if rs != [] {
      NoneUnsynced(rs[..|rs| - 1]);
    }
  }

  /** The marking loop, flipping each record in place. */
  method MarkAll(datosLocales: seq<Record>) returns (marked: seq<Record>)
    ensures marked == MarkedAll(datosLocales)
  {
    marked := datosLocales;
    var i := 0;
    while i < |marked|
      invariant 0 <= i <= |marked| == |datosLocales|
      invariant forall j :: 0 <= j < i ==> marked[j] == Mark(datosLocales[j])
      invariant forall j :: i <= j < |marked| ==> marked[j] == datosLocales[j]
    {
      if !IsSynced(marked[i]) {
        marked := marked[i := marked[i]["synced" := Bool(true)]];
      }
      i := i + 1;
    }
  }

  /** `s.replace('Z', '+00:00')` */
  function ReplaceZ(s: string): (r: string)
    ensures 'Z' !in r
    ensures |r| == |s| + 5 * Count(s, 'Z')
  {
    if s == [] then []
    else (if s[0] == 'Z' then "+00:00" else [s[0]]) + ReplaceZ(s[1..])
  }

  /** A date with no 'Z' reaches the parser unchanged. */
  lemma {:induction false} ReplaceZKeeps(s: string)
    requires 'Z' !in s
    ensures ReplaceZ(s) == s
  {
    if s != [] {
      ReplaceZKeeps(s[1..]);
    }
  }

  /** What `datetime.fromisoformat` yields: a naive date-time, or one with a UTC offset,
      as a count of seconds. */
  datatype Instant = Naive(t: int) | Aware(t: int)

  /** `fecha_limite = datetime.now() - timedelta(days=dias_mantener)` */
  function Cutoff(now: int, dias: int): int {
    now - dias * 86400
  }

  /** Whether `limpiar_datos_antiguos` keeps a record. Unsynced records stay. A synced record
      stays when its date is later than the cutoff, and also whenever the test raises and
      the bare `except` keeps it: a missing `date` (`KeyError`), a date that is not a
      string (`AttributeError`), a date that does not parse (`ValueError`), or a date
      with an offset, which cannot be compared with the naive cutoff (`TypeError`). */
  predicate Keep(r: Record, cutoff: int, parseIso: string -> Option<Instant>) {
    if !IsSynced(r) then true
    else if "date" !in r || !r["date"].Str? then true
    else match parseIso(ReplaceZ(r["date"].s))
      case None => true
      case Some(Aware(_)) => true
      case Some(Naive(t)) => t > cutoff
  }

  /** `datos_filtrados` once the loop of `limpiar_datos_antiguos` ends. */
  function Kept(rs: seq<Record>, cutoff: int, parseIso: string -> Option<Instant>): (k: seq<Record>)
    ensures |k| <= |rs|
  {
    if rs == [] then []
    else
      var front := Kept(rs[..|rs| - 1], cutoff, parseIso);
      if Keep(rs[|rs| - 1], cutoff, parseIso) then front + [rs[|rs| - 1]] else front
  }

  /** One more record is kept at the end, or dropped. */
  lemma KeptSnoc(rs: seq<Record>, r: Record, cutoff: int, parseIso: string -> Option<Instant>)
    ensures Kept(rs + [r], cutoff, parseIso) ==
      if Keep(r, cutoff, parseIso) then Kept(rs, cutoff, parseIso) + [r] else Kept(rs, cutoff, parseIso)
  {
    assert (rs + [r])[..|rs|] == rs;
  }

  /** The kept records are exactly the records pruning keeps. */
  lemma {:induction false} KeptMembers(rs: seq<Record>, cutoff: int, parseIso: string -> Option<Instant>, r: Record)
    ensures r in Kept(rs, cutoff, parseIso) <==> r in rs && Keep(r, cutoff, parseIso)
  {
    if rs != [] {
      var n := |rs| - 1;
      assert rs == rs[..n] + [rs[n]];
      KeptSnoc(rs[..n], rs[n], cutoff, parseIso);
      KeptMembers(rs[..n], cutoff, parseIso, r);
    }
  }

  /** Pruning keeps the relative order: the kept records of a concatenation are the kept
      records of each part, one after the other. */
  lemma {:induction false} KeptAppend(rs: seq<Record>, more: seq<Record>, cutoff: int,
                                      parseIso: string -> Option<Instant>)
    ensures Kept(rs + more, cutoff, parseIso) == Kept(rs, cutoff, parseIso) + Kept(more, cutoff, parseIso)
    decreases |more|
  {
    if more != [] {
      var n := |more| - 1;
      assert (rs + more)[..|rs + more| - 1] == rs + more[..n];
      KeptAppend(rs, more[..n], cutoff, parseIso);
    } else {
      assert rs + more == rs;
    }
  }

  /** Pruning never removes an unsynced record; a synced record with a naive date survives
      exactly when that date is strictly later than the cutoff. */
  lemma KeepCases(r: Record, cutoff: int, parseIso: string -> Option<Instant>)
    ensures !IsSynced(r) ==> Keep(r, cutoff, parseIso)
    ensures IsSynced(r) && "date" in r && r["date"].Str? && parseIso(ReplaceZ(r["date"].s)).Some?
            && parseIso(ReplaceZ(r["date"].s)).value.Naive? ==>
              (Keep(r, cutoff, parseIso) <==> parseIso(ReplaceZ(r["date"].s)).value.t > cutoff)
    ensures IsSynced(r) && ("date" !in r || !r["date"].Str?) ==> Keep(r, cutoff, parseIso)
  {
  }

  /** A synced record dated in UTC with a trailing 'Z' becomes an offset date-time, so it is
      never pruned, however old it is. */
  lemma ZuluDateKept(r: Record, cutoff: int, parseIso: string -> Option<Instant>)
    requires "date" in r && r["date"].Str? && parseIso(ReplaceZ(r["date"].s)).Some?
    requires parseIso(ReplaceZ(r["date"].s)).value.Aware?
    ensures Keep(r, cutoff, parseIso)
  {
  }

  /** `limpiar_datos_antiguos` up to its write: the kept records in order and the number
      removed. */
  method Prune(datosLocales: seq<Record>, now: int, diasMantener: int, parseIso: string -> Option<Instant>)
    returns (datosFiltrados: seq<Record>, datosEliminados: nat)
    ensures datosFiltrados == Kept(datosLocales, Cutoff(now, diasMantener), parseIso)
    ensures datosEliminados == |datosLocales| - |datosFiltrados|
  {
    var fechaLimite := Cutoff(now, diasMantener);
    datosFiltrados, datosEliminados := [], 0;
    var i := 0;
    while i < |datosLocales|
      invariant 0 <= i <= |datosLocales|
      invariant datosFiltrados == Kept(datosLocales[..i], fechaLimite, parseIso)
      invariant datosEliminados == i - |datosFiltrados|
    {
      assert datosLocales[..i + 1] == datosLocales[..i] + [datosLocales[i]];
      KeptSnoc(datosLocales[..i], datosLocales[i], fechaLimite, parseIso);
      if Keep(datosLocales[i], fechaLimite, parseIso) {
        datosFiltrados := datosFiltrados + [datosLocales[i]];
      } else {
        datosEliminados := datosEliminados + 1;
      }
      i := i + 1;
    }
    assert datosLocales[..i] == datosLocales;
  }

  /** The file after `limpiar_datos_antiguos(datos, dias)`: rewritten only when something
      was removed. */
  method PruneFile(file: FileState, datos: seq<Record>, now: int, diasMantener: int,
                   parseIso: string -> Option<Instant>)
    returns (file': FileState)
    ensures var kept := Kept(datos, Cutoff(now, diasMantener), parseIso);
      file' == if |kept| < |datos| then Content(kept) else file
  {
    var datosFiltrados, datosEliminados := Prune(datos, now, diasMantener, parseIso);
    file' := if datosEliminados > 0 then Content(datosFiltrados) else file;
  }

  /** One pass of `sincronizar_a_mongo`. `batch` is what goes to `insertar_documentos`,
      whose errors are swallowed, so the pass carries on as if the insert had succeeded.
      With nothing loaded or nothing unsynced no batch is sent and the file is left alone;
      otherwise the file is rewritten with every record marked synced and then pruned
      with the default of 7 days. */
  method SyncPass(file: FileState, now: int, parseIso: string -> Option<Instant>)
    returns (file': FileState, batch: seq<Record>)
    ensures var datos := LoadRecords(file);
      Unsynced(datos) == [] ==> file' == file && batch == []
    ensures var datos := LoadRecords(file);
      Unsynced(datos) != [] ==>
        && batch == Batch(datos)
        && file' == Content(Kept(MarkedAll(datos), Cutoff(now, 7), parseIso))
  {
    var datosLocales := LoadRecords(file);
    file', batch := file, [];
    if datosLocales == [] {
      return;
    }
    var noSincronizados := Unsynced(datosLocales);
    if noSincronizados != [] {
      batch := Batch(datosLocales);
      var marked := MarkAll(datosLocales);
      file' := Content(marked);
      file' := PruneFile(file', marked, now, 7, parseIso);
      if |Kept(marked, Cutoff(now, 7), parseIso)| == |marked| {
        KeptAll(marked, Cutoff(now, 7), parseIso);
      }
    }
  }

  /** Pruning that removes nothing returns the list itself. */
  lemma {:induction false} KeptAll(rs: seq<Record>, cutoff: int, parseIso: string -> Option<Instant>)
    requires |Kept(rs, cutoff, parseIso)| == |rs|
    ensures Kept(rs, cutoff, parseIso) == rs
  {
    if rs != [] {
      var n := |rs| - 1;
      if Keep(rs[n], cutoff, parseIso) {
        KeptAll(rs[..n], cutoff, parseIso);
        assert rs == rs[..n] + [rs[n]];
      }
    }
  }

  /** Whatever the pass writes holds only synced records: a reading appended to the file
      by the acquisition side after the pass loaded it, and therefore still unsynced, is
      not in the file the pass writes back: the write loses it. */
  lemma SyncWritesOnlySynced(datos: seq<Record>, now: int, parseIso: string -> Option<Instant>, late: Record)
    requires !IsSynced(late)
    ensures late !in Kept(MarkedAll(datos), Cutoff(now, 7), parseIso)
  {
    MarkedAllFields(datos);
    KeptMembers(MarkedAll(datos), Cutoff(now, 7), parseIso, late);
  }
}
