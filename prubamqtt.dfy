/** `prubamqtt.py`: one pass of `revisar_configuraciones_periodicas`, which fires a command
    at a configured minute with no date, recording the key after every attempt. */
module Prubamqtt {
  import opened Json
  import opened Commands

  /** One pass. `loaded` is None where opening or decoding the configuration file raises,
      which skips the pass and keeps the set. `enviar_comando_a_arduino` swallows its
      errors, so every attempt records its key. */
  method Revisar(loaded: Option<seq<Record>>, comandosEnviados: set<string>, ahora: string,
                 realText: real -> string)
    returns (enviados: set<string>, escritos: seq<string>)
    ensures loaded.None? ==> enviados == comandosEnviados && escritos == []
    ensures loaded.Some? ==>
      var o := Pass(loaded.value, comandosEnviados, TimeOnlyFiresAt(ahora), TimeOnlyKeyOf(realText), Always);
      enviados == o.sent && escritos == Writes(o.attempted, realText)
  {
    if loaded.None? {
      return comandosEnviados, [];
    }
    var attempted;
    enviados, attempted := RunPass(loaded.value, comandosEnviados, TimeOnlyFiresAt(ahora), TimeOnlyKeyOf(realText), Always);
    escritos := Writes(attempted, realText);
  }

  /** After a pass every matching configuration's key is in the set, delivered or not: the
      next pass at the same minute, or on any later day, attempts none of them again. */
  lemma MatchedNeverAgain(configs: seq<Record>, later: seq<Record>, sent: set<string>, ahora: string, luego: string,
                          realText: real -> string, c: Record)
    requires c in configs && TimeOnlyFires(c, ahora)
    ensures var o := Pass(configs, sent, TimeOnlyFiresAt(ahora), TimeOnlyKeyOf(realText), Always);
      c !in Pass(later, o.sent, TimeOnlyFiresAt(luego), TimeOnlyKeyOf(realText), Always).attempted
  {
    PassCoversMatches(configs, sent, TimeOnlyFiresAt(ahora), TimeOnlyKeyOf(realText), Always);
    var o := Pass(configs, sent, TimeOnlyFiresAt(ahora), TimeOnlyKeyOf(realText), Always);
    TimeOnlyOncePerProcess(later, o.sent, luego, realText, Always, c);
  }
}
