/** `masprubas.py`: one pass of `revisar_configuraciones_periodicas`, which fires a command
    on a configured day at a configured minute, and the MQTT forward rule of `on_message`. */
module Masprubas {
  import opened Json
  import opened Commands
  import Text

  /** The `hora_config` the pass compares: a truthy string holding a 'T' or longer than five
      characters is replaced by the "HH:MM" of its ISO parse (`isoTime`, None where
      `fromisoformat` raises, in which case the value is kept). A truthy value that is not a
      string makes the `in` test raise `TypeError`, which the bare handler swallows, so it
      is kept too. */
  function NormalizeTime(v: Value, isoTime: string -> Option<string>): (r: Value)
    ensures !(v.Str? && ('T' in v.s || |v.s| > 5)) ==> r == v
    ensures v.Str? && ('T' in v.s || |v.s| > 5) && isoTime(v.s).Some? ==> r == Str(isoTime(v.s).value)
    ensures v.Str? && isoTime(v.s).None? ==> r == v
  {
    if Truthy(v) && v.Str? && ('T' in v.s || |v.s| > 5) then
      match isoTime(v.s)
      case Some(t) => Str(t)
      case None => v
    else v
  }

  /** When the parse always yields a five-character time without a 'T', normalising twice
      is normalising once. */
  lemma NormalizeTimeIdempotent(v: Value, isoTime: string -> Option<string>)
    requires forall s :: isoTime(s).Some? ==> |isoTime(s).value| == 5 && 'T' !in isoTime(s).value
    ensures NormalizeTime(NormalizeTime(v, isoTime), isoTime) == NormalizeTime(v, isoTime)
  {
  }

  /** The match rule: code, (normalised) time and day are all non-empty, the day is today's
      "YYYY-MM-DD" and the time is now's "HH:MM". */
  predicate Fires(config: Record, ahoraFecha: string, ahoraHora: string, isoTime: string -> Option<string>) {
    var codigo := Get(config, "code", Null);
    var horaConfig := NormalizeTime(Get(config, "config_value", Null), isoTime);
    var fechaConfig := Get(config, "config_day", Null);
    && Truthy(codigo) && Truthy(horaConfig) && Truthy(fechaConfig)
    && fechaConfig == Str(ahoraFecha) && horaConfig == Str(ahoraHora)
  }

  /** `f"{codigo}_{fecha_config}_{hora_config}"`, with the normalised time. */
  function Key(config: Record, isoTime: string -> Option<string>, realText: real -> string): string {
    Show(Get(config, "code", Null), realText) + "_" + Show(Get(config, "config_day", Null), realText) + "_"
      + Show(NormalizeTime(Get(config, "config_value", Null), isoTime), realText)
  }

  function FiresAt(ahoraFecha: string, ahoraHora: string, isoTime: string -> Option<string>): Record -> bool {
    config => Fires(config, ahoraFecha, ahoraHora, isoTime)
  }

  function KeyOf(isoTime: string -> Option<string>, realText: real -> string): Record -> string {
    config => Key(config, isoTime, realText)
  }

  /** A configuration fires exactly when its day is today, its normalised time is now and
      its code is non-empty (the day and the time cannot then be empty). */
  lemma FiresExactly(config: Record, ahoraFecha: string, ahoraHora: string, isoTime: string -> Option<string>)
    requires ahoraFecha != [] && ahoraHora != []
    ensures Fires(config, ahoraFecha, ahoraHora, isoTime) <==>
      && Truthy(Get(config, "code", Null))
      && Get(config, "config_day", Null) == Str(ahoraFecha)
      && NormalizeTime(Get(config, "config_value", Null), isoTime) == Str(ahoraHora)
  {
  }

  /** Keys of the same code at the same time on two different days differ: the date is
      part of the key. */
  lemma KeyTellsDays(c1: Record, c2: Record, d1: string, d2: string,
                     isoTime: string -> Option<string>, realText: real -> string)
    requires Get(c1, "code", Null) == Get(c2, "code", Null)
    requires NormalizeTime(Get(c1, "config_value", Null), isoTime) == NormalizeTime(Get(c2, "config_value", Null), isoTime)
    requires Get(c1, "config_day", Null) == Str(d1) && Get(c2, "config_day", Null) == Str(d2)
    requires d1 != d2
    ensures Key(c1, isoTime, realText) != Key(c2, isoTime, realText)
  {
    var p := Show(Get(c1, "code", Null), realText) + "_";
    var q := Show(NormalizeTime(Get(c1, "config_value", Null), isoTime), realText);
    assert Show(Get(c1, "config_day", Null), realText) == d1;
    assert Show(Get(c2, "config_day", Null), realText) == d2;
    Text.MiddleDiffers(p, d1, d2, "_", q);
  }

  /** Each key fires at most once for the life of the loop: a configuration attempted in
      one pass is never attempted again in a later pass, nor is any configuration sharing
      its key, whatever day and minute the later pass runs at. */
  lemma OncePerKey(configs: seq<Record>, later: seq<Record>, sent: set<string>,
                   ahoraFecha: string, ahoraHora: string, luegoFecha: string, luegoHora: string,
                   isoTime: string -> Option<string>, realText: real -> string, k: nat, c: Record)
    requires k < |Pass(configs, sent, FiresAt(ahoraFecha, ahoraHora, isoTime), KeyOf(isoTime, realText), Always).attempted|
    requires Key(c, isoTime, realText) ==
      Key(Pass(configs, sent, FiresAt(ahoraFecha, ahoraHora, isoTime), KeyOf(isoTime, realText), Always).attempted[k], isoTime, realText)
    ensures var o := Pass(configs, sent, FiresAt(ahoraFecha, ahoraHora, isoTime), KeyOf(isoTime, realText), Always);
      c !in Pass(later, o.sent, FiresAt(luegoFecha, luegoHora, isoTime), KeyOf(isoTime, realText), Always).attempted
  {
    AttemptedNeverAgain(configs, later, sent, FiresAt(ahoraFecha, ahoraHora, isoTime), FiresAt(luegoFecha, luegoHora, isoTime),
                        KeyOf(isoTime, realText), Always, Always, k, c);
  }

  /** One pass: `loaded` is what opening and decoding the configuration file gives (None
      where it raises, which skips the pass and keeps the set). Returns the grown set and
      the lines the pass hands to the serial sender, in order. */
  method Revisar(loaded: Option<seq<Record>>, comandosEnviados: set<string>, ahoraFecha: string, ahoraHora: string,
                 isoTime: string -> Option<string>, realText: real -> string)
    returns (enviados: set<string>, escritos: seq<string>)
    ensures loaded.None? ==> enviados == comandosEnviados && escritos == []
    ensures loaded.Some? ==>
      var o := Pass(loaded.value, comandosEnviados, FiresAt(ahoraFecha, ahoraHora, isoTime), KeyOf(isoTime, realText), Always);
      enviados == o.sent && escritos == Writes(o.attempted, realText)
  {
    if loaded.None? {
      return comandosEnviados, [];
    }
    var attempted;
    enviados, attempted := RunPass(loaded.value, comandosEnviados, FiresAt(ahoraFecha, ahoraHora, isoTime),
                                   KeyOf(isoTime, realText), Always);
    escritos := Writes(attempted, realText);
  }
}
