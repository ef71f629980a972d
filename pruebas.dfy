/** `pruebas.py`: one pass of `revisar_configuraciones_periodicas`, which fires a command at a
    configured minute with no date, recording the key only once the serial write has
    completed. */
module Pruebas {
  import opened Json
  import opened Commands

  /** One pass. `loaded` is None where opening or decoding the configuration file raises,
      which skips the pass and keeps the set. `escrito(k)` says whether the k-th attempt of
      the pass got through opening the port, writing and reading the replies without an
      exception; only then is its key recorded. */
  method Revisar(loaded: Option<seq<Record>>, comandosEnviados: set<string>, ahora: string,
                 escrito: nat -> bool, realText: real -> string)
    returns (enviados: set<string>, intentos: seq<string>)
    ensures loaded.None? ==> enviados == comandosEnviados && intentos == []
    ensures loaded.Some? ==>
      var o := Pass(loaded.value, comandosEnviados, TimeOnlyFiresAt(ahora), TimeOnlyKeyOf(realText), escrito);
      enviados == o.sent && intentos == Writes(o.attempted, realText)
  {
    if loaded.None? {
      return comandosEnviados, [];
    }
    var attempted;
    enviados, attempted := RunPass(loaded.value, comandosEnviados, TimeOnlyFiresAt(ahora), TimeOnlyKeyOf(realText), escrito);
    intentos := Writes(attempted, realText);
  }

  /** A key whose every attempt failed stays out of the set, so the next pass, while the
      minute still matches, attempts the first configuration carrying it again. */
  lemma RetriedAfterFailure(configs: seq<Record>, later: seq<Record>, sent: set<string>, ahora: string,
                            escrito: nat -> bool, luegoEscrito: nat -> bool, realText: real -> string, j: nat)
    requires j < |later| && TimeOnlyFires(later[j], ahora) && TimeOnlyKey(later[j], realText) !in sent
    requires forall l :: 0 <= l < j ==> TimeOnlyKey(later[l], realText) != TimeOnlyKey(later[j], realText)
    requires var o := Pass(configs, sent, TimeOnlyFiresAt(ahora), TimeOnlyKeyOf(realText), escrito);
      forall k :: 0 <= k < |o.attempted| && TimeOnlyKey(o.attempted[k], realText) == TimeOnlyKey(later[j], realText) ==> !escrito(k)
    ensures var o := Pass(configs, sent, TimeOnlyFiresAt(ahora), TimeOnlyKeyOf(realText), escrito);
      later[j] in Pass(later, o.sent, TimeOnlyFiresAt(ahora), TimeOnlyKeyOf(realText), luegoEscrito).attempted
  {
    var o := Pass(configs, sent, TimeOnlyFiresAt(ahora), TimeOnlyKeyOf(realText), escrito);
    PassSent(configs, sent, TimeOnlyFiresAt(ahora), TimeOnlyKeyOf(realText), escrito, TimeOnlyKey(later[j], realText));
    PassReachesFirst(later, o.sent, TimeOnlyFiresAt(ahora), TimeOnlyKeyOf(realText), luegoEscrito, j);
  }

  /** Once one attempt with a key has been written, no configuration carrying that key is
      attempted again while the set lives. */
  lemma DeliveredNeverAgain(configs: seq<Record>, later: seq<Record>, sent: set<string>, ahora: string, luego: string,
                            escrito: nat -> bool, luegoEscrito: nat -> bool, realText: real -> string, k: nat, c: Record)
    requires k < |Pass(configs, sent, TimeOnlyFiresAt(ahora), TimeOnlyKeyOf(realText), escrito).attempted| && escrito(k)
    requires TimeOnlyKey(c, realText) ==
      TimeOnlyKey(Pass(configs, sent, TimeOnlyFiresAt(ahora), TimeOnlyKeyOf(realText), escrito).attempted[k], realText)
    ensures var o := Pass(configs, sent, TimeOnlyFiresAt(ahora), TimeOnlyKeyOf(realText), escrito);
      c !in Pass(later, o.sent, TimeOnlyFiresAt(luego), TimeOnlyKeyOf(realText), luegoEscrito).attempted
  {
    AttemptedNeverAgain(configs, later, sent, TimeOnlyFiresAt(ahora), TimeOnlyFiresAt(luego), TimeOnlyKeyOf(realText),
                        escrito, luegoEscrito, k, c);
  }
}
