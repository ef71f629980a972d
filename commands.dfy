/** The pass shared by the three `revisar_configuraciones_periodicas` scripts (`masprubas.py`,
    `prubamqtt.py`, `pruebas.py`): walk the configuration list once and send the command of
    every configuration that matches "now" and whose key is not in the set of sent keys.
    The scripts differ in the match rule, in the key, and in whether a key is recorded
    after every attempt or only after a delivered one; those are the parameters here. */
module Commands {
  import opened Json
  import opened Text

  /** The sent-key set after a pass, and the configurations whose command was attempted,
      in list order. */
  datatype Outcome = Outcome(sent: set<string>, attempted: seq<Record>)

  /** One pass over `configs`. `recorded(k)` says whether the k-th attempt of the pass
      adds its key to the set. */
  function Pass(configs: seq<Record>, sent: set<string>, fires: Record -> bool, key: Record -> string,
                recorded: nat -> bool): (o: Outcome)
    ensures |o.attempted| <= |configs|
  {
    if configs == [] then Outcome(sent, [])
    else
      var before := Pass(configs[..|configs| - 1], sent, fires, key, recorded);
      var c := configs[|configs| - 1];
      if fires(c) && key(c) !in before.sent then
        Outcome(if recorded(|before.attempted|) then before.sent + {key(c)} else before.sent,
                before.attempted + [c])
      else before
  }

  /** The sent set only grows, and only by keys of attempted configurations whose attempt
      was recorded. */
  lemma {:induction false} PassSent(configs: seq<Record>, sent: set<string>, fires: Record -> bool,
                                    key: Record -> string, recorded: nat -> bool, x: string)
    ensures var o := Pass(configs, sent, fires, key, recorded);
      x in o.sent <==> x in sent || exists k :: 0 <= k < |o.attempted| && recorded(k) && key(o.attempted[k]) == x
  {
    if configs != [] {
      var front := configs[..|configs| - 1];
      var before := Pass(front, sent, fires, key, recorded);
      var o := Pass(configs, sent, fires, key, recorded);
      PassSent(front, sent, fires, key, recorded, x);
      if o != before {
        assert o.attempted[..|before.attempted|] == before.attempted;
        if exists k :: 0 <= k < |before.attempted| && recorded(k) && key(before.attempted[k]) == x {
          var k :| 0 <= k < |before.attempted| && recorded(k) && key(before.attempted[k]) == x;
          assert o.attempted[k] == before.attempted[k];
        }
      }
    }
  }

  /** Every attempted configuration matched, came from the list, and had a key that was
      not sent before the pass. */
  lemma {:induction false} PassAttempts(configs: seq<Record>, sent: set<string>, fires: Record -> bool,
                                        key: Record -> string, recorded: nat -> bool)
    ensures var o := Pass(configs, sent, fires, key, recorded);
      forall k :: 0 <= k < |o.attempted| ==>
        fires(o.attempted[k]) && o.attempted[k] in configs && key(o.attempted[k]) !in sent
  {
    if configs != [] {
      var front := configs[..|configs| - 1];
      PassAttempts(front, sent, fires, key, recorded);
      PassGrows(front, sent, fires, key, recorded);
      assert forall c :: c in front ==> c in configs;
    }
  }

  /** The sent set never shrinks within a pass. */
  lemma {:induction false} PassGrows(configs: seq<Record>, sent: set<string>, fires: Record -> bool,
                                     key: Record -> string, recorded: nat -> bool)
    ensures sent <= Pass(configs, sent, fires, key, recorded).sent
  {
    if configs != [] {
      PassGrows(configs[..|configs| - 1], sent, fires, key, recorded);
    }
  }

  /** A key already in the set blocks every configuration carrying it: nothing with that key
      is attempted, in this pass or in any later pass handed the grown set. */
  lemma PassSkipsSent(configs: seq<Record>, sent: set<string>, fires: Record -> bool,
                      key: Record -> string, recorded: nat -> bool, c: Record)
    requires key(c) in sent
    ensures c !in Pass(configs, sent, fires, key, recorded).attempted
  {
    PassAttempts(configs, sent, fires, key, recorded);
  }

  /** Once an attempt is recorded, no later attempt of the pass has the same key: a
      recorded key fires at most once. */
  lemma {:induction false} PassRecordedOnce(configs: seq<Record>, sent: set<string>, fires: Record -> bool,
                                            key: Record -> string, recorded: nat -> bool, j: nat, k: nat)
    requires j < k < |Pass(configs, sent, fires, key, recorded).attempted| && recorded(j)
    ensures var o := Pass(configs, sent, fires, key, recorded);
      key(o.attempted[j]) != key(o.attempted[k])
  {
    var front := configs[..|configs| - 1];
    var before := Pass(front, sent, fires, key, recorded);
    var o := Pass(configs, sent, fires, key, recorded);
    if o == before {
      PassRecordedOnce(front, sent, fires, key, recorded, j, k);
    } else {
      var c := configs[|configs| - 1];
      assert o.attempted == before.attempted + [c];
      assert o.attempted[j] == before.attempted[j];
      if k < |before.attempted| {
        assert o.attempted[k] == before.attempted[k];
        PassRecordedOnce(front, sent, fires, key, recorded, j, k);
      } else {
        PassSent(front, sent, fires, key, recorded, key(before.attempted[j]));
      }
    }
  }

  /** When every attempt is recorded, each matching configuration's key is in the set after
      the pass: it was sent now or before. */
  lemma {:induction false} PassCoversMatches(configs: seq<Record>, sent: set<string>, fires: Record -> bool,
                                             key: Record -> string, recorded: nat -> bool)
    requires forall k :: recorded(k)
    ensures forall c :: c in configs && fires(c) ==> key(c) in Pass(configs, sent, fires, key, recorded).sent
  {
    if configs != [] {
      var front := configs[..|configs| - 1];
      PassCoversMatches(front, sent, fires, key, recorded);
      assert configs == front + [configs[|configs| - 1]];
    }
  }

  /** With nothing matching, a pass attempts nothing and leaves the set alone. */
  lemma {:induction false} PassQuiet(configs: seq<Record>, sent: set<string>, fires: Record -> bool,
                                     key: Record -> string, recorded: nat -> bool)
    requires forall j :: 0 <= j < |configs| ==> !fires(configs[j])
    ensures Pass(configs, sent, fires, key, recorded) == Outcome(sent, [])
  {
    if configs != [] {
      PassQuiet(configs[..|configs| - 1], sent, fires, key, recorded);
    }
  }

  /** A configuration that matches, whose key is not sent, and that no earlier configuration
      of the list shares its key with, is attempted. */
  lemma {:induction false} PassReachesFirst(configs: seq<Record>, sent: set<string>, fires: Record -> bool,
                                            key: Record -> string, recorded: nat -> bool, j: nat)
    requires j < |configs| && fires(configs[j]) && key(configs[j]) !in sent
    requires forall l :: 0 <= l < j ==> key(configs[l]) != key(configs[j])
    ensures configs[j] in Pass(configs, sent, fires, key, recorded).attempted
  {
    var n := |configs| - 1;
    var front := configs[..n];
    var before := Pass(front, sent, fires, key, recorded);
    if j < n {
      assert front[j] == configs[j];
      forall l | 0 <= l < j ensures key(front[l]) != key(front[j]) {
        assert front[l] == configs[l];
      }
      PassReachesFirst(front, sent, fires, key, recorded, j);
    } else {
      var c := configs[n];
      PassAttempts(front, sent, fires, key, recorded);
      PassSent(front, sent, fires, key, recorded, key(c));
    }
  }

  /** A key recorded in one pass blocks every configuration carrying it in any later pass
      handed the resulting set, whatever "now" that pass matches against. */
  lemma AttemptedNeverAgain(configs: seq<Record>, later: seq<Record>, sent: set<string>,
                            fires: Record -> bool, laterFires: Record -> bool, key: Record -> string,
                            recorded: nat -> bool, laterRecorded: nat -> bool, k: nat, c: Record)
    requires k < |Pass(configs, sent, fires, key, recorded).attempted| && recorded(k)
    requires key(c) == key(Pass(configs, sent, fires, key, recorded).attempted[k])
    ensures c !in Pass(later, Pass(configs, sent, fires, key, recorded).sent, laterFires, key, laterRecorded).attempted
  {
    PassSent(configs, sent, fires, key, recorded, key(c));
    PassSkipsSent(later, Pass(configs, sent, fires, key, recorded).sent, laterFires, key, laterRecorded, c);
  }

  /** The for-loop of a pass, growing the set in place. */
  method RunPass(configs: seq<Record>, sent: set<string>, fires: Record -> bool, key: Record -> string,
                 recorded: nat -> bool)
    returns (comandosEnviados: set<string>, attempted: seq<Record>)
    ensures Outcome(comandosEnviados, attempted) == Pass(configs, sent, fires, key, recorded)
  {
    comandosEnviados, attempted := sent, [];
    var i := 0;
    while i < |configs|
      invariant 0 <= i <= |configs|
      invariant Outcome(comandosEnviados, attempted) == Pass(configs[..i], sent, fires, key, recorded)
    {
      var config := configs[i];
      var claveUnica := key(config);
      assert configs[..i + 1][..i] == configs[..i];
      if fires(config) && claveUnica !in comandosEnviados {
        if recorded(|attempted|) {
          comandosEnviados := comandosEnviados + {claveUnica};
        }
        attempted := attempted + [config];
      }
      i := i + 1;
    }
    assert configs[..i] == configs;
  }

  /** The lines a pass hands to the serial sender, one per attempted configuration. */
  function Writes(attempted: seq<Record>, realText: real -> string): (w: seq<string>)
    ensures |w| == |attempted|
    ensures forall j :: 0 <= j < |w| ==> w[j] == CommandText(attempted[j], realText)
  {
    seq(|attempted|, j requires 0 <= j < |attempted| => CommandText(attempted[j], realText))
  }

  /** `f"{codigo}\n"`, the line handed to the serial sender for a configuration: the
      configuration's code followed by a newline. */
  function CommandText(config: Record, realText: real -> string): (t: string)
    ensures |t| >= 1 && t[|t| - 1] == '\n'
    ensures t[..|t| - 1] == Show(Get(config, "code", Null), realText)
  {
    Show(Get(config, "code", Null), realText) + "\n"
  }

  /** The match rule of `prubamqtt.py` and `pruebas.py`: a non-empty code and a non-empty
      time equal to now's "HH:MM"; the date plays no part. */
  predicate TimeOnlyFires(config: Record, ahora: string) {
    var codigo := Get(config, "code", Null);
    var horaConfig := Get(config, "config_value", Null);
    Truthy(codigo) && Truthy(horaConfig) && horaConfig == Str(ahora)
  }

  /** `f"{codigo}_{hora_config}"` */
  function TimeOnlyKey(config: Record, realText: real -> string): string {
    Show(Get(config, "code", Null), realText) + "_" + Show(Get(config, "config_value", Null), realText)
  }

  function TimeOnlyFiresAt(ahora: string): Record -> bool {
    config => TimeOnlyFires(config, ahora)
  }

  function TimeOnlyKeyOf(realText: real -> string): Record -> string {
    config => TimeOnlyKey(config, realText)
  }

  /** The time-only key holds no date: a configuration whose key was recorded on one day is
      never attempted again, on any later day, for as long as the set lives. */
  lemma TimeOnlyOncePerProcess(configs: seq<Record>, sent: set<string>, ahora: string,
                               realText: real -> string, recorded: nat -> bool, c: Record)
    requires TimeOnlyKey(c, realText) in sent
    ensures c !in Pass(configs, sent, TimeOnlyFiresAt(ahora), TimeOnlyKeyOf(realText), recorded).attempted
  {
    PassSkipsSent(configs, sent, TimeOnlyFiresAt(ahora), TimeOnlyKeyOf(realText), recorded, c);
  }

  /** Two configurations with the same code and time share their key whatever their days,
      so a daily time matches on every day but fires only on the first. */
  lemma TimeOnlyKeyIgnoresDay(c1: Record, c2: Record, realText: real -> string)
    requires Get(c1, "code", Null) == Get(c2, "code", Null)
    requires Get(c1, "config_value", Null) == Get(c2, "config_value", Null)
    ensures TimeOnlyKey(c1, realText) == TimeOnlyKey(c2, realText)
    ensures forall ahora :: TimeOnlyFires(c1, ahora) <==> TimeOnlyFires(c2, ahora)
  {
  }

  /** The sender swallows every error, so each attempt records its key. */
  predicate Always(k: nat) {
    true
  }

  /** `on_message`: the decoded payload, stripped, is forwarded when it is not empty. */
  function OnMessage(payload: string): (comando: Option<string>)
    ensures comando.None? <==> forall k :: 0 <= k < |payload| ==> IsSpace(payload[k])
    ensures comando.Some? ==> comando.value == Strip(payload)
  {
    var p := Strip(payload);
    if p != [] then Some(p) else None
  }

  /** A forwarded command has no surrounding whitespace, so forwarding it again sends the
      same text. */
  lemma OnMessageIdempotent(payload: string)
    requires OnMessage(payload).Some?
    ensures OnMessage(OnMessage(payload).value) == OnMessage(payload)
  {
    var p := Strip(payload);
    assert TrimLeft(p) == p;
    assert TrimRight(p) == p;
  }
}
