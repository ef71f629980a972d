/** `test_alertas.py`: the alert a test case is expected to raise, and the count of expected
    alerts over the script's case table. */
module TestAlertas {
  import opened Json

  /** One entry of the range table: a null bound is None. */
  datatype Rango = Rango(min: Option<real>, max: Option<real>)

  /** A test case: sensor code, value and description. */
  datatype Caso = Caso(code: string, valor: real, descripcion: string)

  /** `debe_generar_alerta`: the code has a range and the value lies strictly below a
      non-null minimum or strictly above a non-null maximum. */
  predicate DebeGenerarAlerta(rangos: map<string, Rango>, code: string, valor: real) {
    && code in rangos
    && ((rangos[code].min.Some? && valor < rangos[code].min.value)
        || (rangos[code].max.Some? && valor > rangos[code].max.value))
  }

  /** The value lies within the closed range, a null bound constraining nothing. */
  predicate Dentro(r: Rango, valor: real) {
    && (r.min.None? || r.min.value <= valor)
    && (r.max.None? || valor <= r.max.value)
  }

  /** An alert is expected exactly when the code has a range and the value is outside it:
      values equal to a bound and codes with no range expect none. */
  lemma AlertaFueraDeRango(rangos: map<string, Rango>, code: string, valor: real)
    ensures DebeGenerarAlerta(rangos, code, valor) <==> code in rangos && !Dentro(rangos[code], valor)
    ensures (code in rangos && (rangos[code].min == Some(valor) || rangos[code].max == Some(valor))
             && Dentro(rangos[code], valor)) ==> !DebeGenerarAlerta(rangos, code, valor)
  {
  }

  /** How many of `casos` are expected to alert. */
  function Esperadas(rangos: map<string, Rango>, casos: seq<Caso>): (n: nat)
    ensures n <= |casos|
  {
    if casos == [] then 0
    else
      var last := casos[|casos| - 1];
      Esperadas(rangos, casos[..|casos| - 1]) + (if DebeGenerarAlerta(rangos, last.code, last.valor) then 1 else 0)
  }

  /** The count splits over a concatenation of case lists. */
  lemma {:induction false} EsperadasAppend(rangos: map<string, Rango>, casos: seq<Caso>, mas: seq<Caso>)
    ensures Esperadas(rangos, casos + mas) == Esperadas(rangos, casos) + Esperadas(rangos, mas)
    decreases |mas|
  {
    if mas == [] {
      assert casos + mas == casos;
    } else {
      assert (casos + mas)[..|casos + mas| - 1] == casos + mas[..|mas| - 1];
      EsperadasAppend(rangos, casos, mas[..|mas| - 1]);
    }
  }

  /** The count is the number of cases that alert: all of them exactly when each alerts, none
      exactly when none does. */
  lemma {:induction false} EsperadasExtremos(rangos: map<string, Rango>, casos: seq<Caso>)
    ensures Esperadas(rangos, casos) == |casos| <==>
      forall j :: 0 <= j < |casos| ==> DebeGenerarAlerta(rangos, casos[j].code, casos[j].valor)
    ensures Esperadas(rangos, casos) == 0 <==>
      forall j :: 0 <= j < |casos| ==> !DebeGenerarAlerta(rangos, casos[j].code, casos[j].valor)
  {
    if casos != [] {
      var front := casos[..|casos| - 1];
      EsperadasExtremos(rangos, front);
      assert forall j :: 0 <= j < |front| ==> front[j] == casos[j];
    }
  }

  /** The counting loop of `test_alertas`, given the loaded range table (None where loading
      it raises, which ends the test before any case runs). */
  method ContarAlertas(rangos: Option<map<string, Rango>>, casos: seq<Caso>) returns (alertasEsperadas: Option<nat>)
    ensures rangos.None? ==> alertasEsperadas.None?
    ensures rangos.Some? ==> alertasEsperadas == Some(Esperadas(rangos.value, casos))
  {
    if rangos.None? {
      return None;
    }
    var n := 0;
    var i := 0;
    while i < |casos|
      invariant 0 <= i <= |casos|
      invariant n == Esperadas(rangos.value, casos[..i])
    {
      var caso := casos[i];
      assert casos[..i + 1][..i] == casos[..i];
      if DebeGenerarAlerta(rangos.value, caso.code, caso.valor) {
        n := n + 1;
      }
      i := i + 1;
    }
    assert casos[..i] == casos;
    return Some(n);
  }

  /** `casos_prueba` */
  const CasosPrueba: seq<Caso> := [
    Caso("tmp/1", 20.5, "Temperatura normal"),
    Caso("phh/1", 7.0, "pH normal"),
    Caso("niv/1", 1500.0, "Nivel normal"),
    Caso("tmp/1", 10.0, "Temperatura MUY BAJA (min: 17.0)"),
    Caso("tmp/1", 30.0, "Temperatura MUY ALTA (max: 26.0)"),
    Caso("phh/1", 3.0, "pH MUY BAJO (min: 5.0)"),
    Caso("phh/1", 12.0, "pH MUY ALTO (max: 9.0)"),
    Caso("niv/1", 100.0, "Nivel MUY BAJO (min: 200.0)"),
    Caso("niv/1", 3000.0, "Nivel MUY ALTO (max: 2000.0)"),
    Caso("tds/1", 50.0, "TDS sin límites"),
    Caso("tds/1", 5000.0, "TDS sin límites alto")
  ]

  /** The range table the case descriptions state; `alertasMapa.json` itself is not part of
      this model. */
  const RangosDescritos: map<string, Rango> := map[
    "tmp/1" := Rango(Some(17.0), Some(26.0)),
    "phh/1" := Rango(Some(5.0), Some(9.0)),
    "niv/1" := Rango(Some(200.0), Some(2000.0)),
    "tds/1" := Rango(None, None)
  ]

  /** With a temperature range of 17.0 to 26.0, 20.5 expects no alert while 10.0 and 30.0
      each expect one. */
  lemma CasosTemperatura(rangos: map<string, Rango>)
    requires "tmp/1" in rangos && rangos["tmp/1"] == Rango(Some(17.0), Some(26.0))
    ensures !DebeGenerarAlerta(rangos, "tmp/1", 20.5)
    ensures DebeGenerarAlerta(rangos, "tmp/1", 10.0) && DebeGenerarAlerta(rangos, "tmp/1", 30.0)
  {
  }

  /** TDS has no limits: whether its entry holds two null bounds or is absent, 50.0 and
      5000.0 expect no alert. */
  lemma CasosTds(rangos: map<string, Rango>)
    requires "tds/1" !in rangos || rangos["tds/1"] == Rango(None, None)
    ensures !DebeGenerarAlerta(rangos, "tds/1", 50.0) && !DebeGenerarAlerta(rangos, "tds/1", 5000.0)
  {
  }

  /** One more case adds one exactly when it alerts. */
  lemma EsperadasPrefix(rangos: map<string, Rango>, casos: seq<Caso>, k: nat)
    requires k < |casos|
    ensures Esperadas(rangos, casos[..k + 1]) ==
      Esperadas(rangos, casos[..k]) + (if DebeGenerarAlerta(rangos, casos[k].code, casos[k].valor) then 1 else 0)
  {
    assert casos[..k + 1][..k] == casos[..k];
  }

  /** The first six cases (three normal, then low and high temperature and low pH) expect
      three alerts over the described ranges. */
  lemma EsperadasPrimeros()
    ensures Esperadas(RangosDescritos, CasosPrueba[..6]) == 3
  {
    var r, c := RangosDescritos, CasosPrueba[..6];
    assert c[..0] == [];
    EsperadasPrefix(r, c, 0);
    EsperadasPrefix(r, c, 1);
    EsperadasPrefix(r, c, 2);
    EsperadasPrefix(r, c, 3);
    EsperadasPrefix(r, c, 4);
    EsperadasPrefix(r, c, 5);
    assert c[..6] == c;
  }

  /** The last five cases (high pH, low and high level, then the two unlimited TDS
      values) expect three alerts over the described ranges. */
  lemma EsperadasUltimos()
    ensures Esperadas(RangosDescritos, CasosPrueba[6..]) == 3
  {
    var r, c := RangosDescritos, CasosPrueba[6..];
    assert c[..0] == [];
    EsperadasPrefix(r, c, 0);
    EsperadasPrefix(r, c, 1);
    EsperadasPrefix(r, c, 2);
    EsperadasPrefix(r, c, 3);
    EsperadasPrefix(r, c, 4);
    assert c[..5] == c;
  }

  /** Over the described ranges, six of the eleven cases are expected to alert. */
  lemma EsperadasDescritas()
    ensures Esperadas(RangosDescritos, CasosPrueba) == 6
  {
    EsperadasPrimeros();
    EsperadasUltimos();
    EsperadasAppend(RangosDescritos, CasosPrueba[..6], CasosPrueba[6..]);
    assert CasosPrueba[..6] + CasosPrueba[6..] == CasosPrueba;
  }
}
