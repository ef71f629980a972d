/** `Clases/lista.py`: a list that admits only objects of one class, building them from
    dictionaries when it can. */
module Listas {
  import opened Json
  import opened Signature
  import Devices
  import Alertas
  import DataSensores
  import UserConfigs

  /** The classes a `Lista` is typed with; `ListaClass` is `Lista` itself, the default. */
  datatype Kind = DeviceClass | AlertaClass | DataSensoresClass | UserConfigClass | ListaClass

  /** An object a list can hold. A `Lista` built from a dictionary is always empty (see
      `Build`), so the nested-list case carries nothing. */
  datatype Obj =
    | DeviceObj(device: Devices.Device)
    | AlertaObj(alerta: Alertas.Alerta)
    | SensorObj(sensor: DataSensores.DataSensor)
    | ConfigObj(config: UserConfigs.UserConfig)
    | EmptyLista

  function KindOf(o: Obj): Kind {
    match o
    case DeviceObj(_) => DeviceClass
    case AlertaObj(_) => AlertaClass
    case SensorObj(_) => DataSensoresClass
    case ConfigObj(_) => UserConfigClass
    case EmptyLista => ListaClass
  }

  /** A value handed to `agregar_elemento`: an instance, a dictionary, or anything else. */
  datatype Item = Instance(obj: Obj) | Dict(fields: Record) | Other(v: Value)

  /** The argument of `agregar_elementos`: a Python list, or any other value. */
  datatype Input = ListOf(items: seq<Item>) | Single(item: Item)

  /** A non-list argument is taken as one element. */
  function Items(input: Input): seq<Item> {
    match input
    case ListOf(items) => items
    case Single(item) => [item]
  }

  /** What `diccionario` yields for one element: the object's attribute dictionary, or the
      (empty) list that a nested `Lista.diccionario()` returns. */
  datatype Plain = Fields(fields: Record) | EmptyList

  function PlainOf(o: Obj): Plain {
    match o
    case DeviceObj(d) => Fields(Devices.Dict(d))
    case AlertaObj(a) => Fields(Alertas.Dict(a))
    case SensorObj(s) => Fields(DataSensores.Dict(s))
    case ConfigObj(c) => Fields(UserConfigs.Dict(c))
    case EmptyLista => EmptyList
  }

  /** `Lista.__init__(self, tipo_dato=None, datos=None)` */
  const ListaParams := Params({}, {"tipo_dato", "datos"}, false)

  /** `tipo_dato(**r)`; None where the call raises `TypeError`.
      For `Lista` itself: the values of a dictionary read from JSON here are scalars, so a
      given `datos` is offered to the nested list as one element. When the nested
      `tipo_dato` is truthy it is not a class and `isinstance` raises `TypeError`, which
      leaves the nested constructor; otherwise the scalar is refused. Either way no
      nested list built from a dictionary holds anything. */
  function Build(k: Kind, r: Record): (o: Option<Obj>)
    ensures o.Some? ==> KindOf(o.value) == k
  {
    match k
    case DeviceClass => (match Devices.Decode(r) case Some(d) => Some(DeviceObj(d)) case None => None)
    case AlertaClass => (match Alertas.Decode(r) case Some(a) => Some(AlertaObj(a)) case None => None)
    case DataSensoresClass => (match DataSensores.Decode(r) case Some(s) => Some(SensorObj(s)) case None => None)
    case UserConfigClass => (match UserConfigs.Decode(r) case Some(c) => Some(ConfigObj(c)) case None => None)
    case ListaClass =>
      if Accepts(ListaParams, r.Keys) && !(Truthy(Get(r, "tipo_dato", Null)) && Get(r, "datos", Null) != Null)
      then Some(EmptyLista)
      else None
  }

  /** The object `agregar_elemento` appends for `item`, if any. */
  function Admit(k: Kind, item: Item): Option<Obj> {
    match item
    case Instance(o) => if KindOf(o) == k then Some(o) else None
    case Dict(r) => Build(k, r)
    case Other(_) => None
  }

  /** The objects that adding `items` one by one appends, in order. */
  function Admitted(k: Kind, items: seq<Item>): (objs: seq<Obj>)
    ensures |objs| <= |items|
    ensures forall j :: 0 <= j < |objs| ==> KindOf(objs[j]) == k
  {
    if items == [] then []
    else
      var front := Admitted(k, items[..|items| - 1]);
      match Admit(k, items[|items| - 1])
      case Some(o) => front + [o]
      case None => front
  }

  /** Admission keeps, in order, exactly the items `Admit` accepts; the others vanish. */
  lemma {:induction false} AdmittedAppend(k: Kind, items: seq<Item>, more: seq<Item>)
    ensures Admitted(k, items + more) == Admitted(k, items) + Admitted(k, more)
    decreases |more|
  {
    if more == [] {
      assert items + more == items;
    } else {
      var last := more[|more| - 1];
      assert (items + more)[..|items + more| - 1] == items + more[..|more| - 1];
      AdmittedAppend(k, items, more[..|more| - 1]);
    }
  }

  class Lista {
    var elementos: seq<Obj>
    var tipo: Kind

    /** Every element is an instance of the list's class. */
    ghost predicate Valid()
      reads this
    {
      forall j :: 0 <= j < |elementos| ==> KindOf(elementos[j]) == tipo
    }

    /** `Lista(tipo_dato, datos)`: `tipo_dato` defaults to `Lista`; `datos`, when given, is added. */
    constructor (tipoDato: Option<Kind>, datos: Option<Input>)
      ensures Valid()
      ensures tipo == (if tipoDato.Some? then tipoDato.value else ListaClass)
      ensures elementos == (if datos.Some? then Admitted(tipo, Items(datos.value)) else [])
    {
      elementos := [];
      tipo := if tipoDato.Some? then tipoDato.value else ListaClass;
      new;
      if datos.Some? {
        AgregarElementos(datos.value);
      }
    }

    /** `agregar_elemento`: an instance of the class is appended unchanged, a dictionary
        is appended once the class accepts it as keyword arguments, and anything else,
        including a dictionary the class refuses, leaves the list as it was. */
    method AgregarElemento(item: Item)
      requires Valid()
      modifies this
      ensures Valid() && tipo == old(tipo)
      ensures item.Instance? && KindOf(item.obj) == tipo ==> elementos == old(elementos) + [item.obj]
      ensures item.Dict? && Build(tipo, item.fields).Some? ==> elementos == old(elementos) + [Build(tipo, item.fields).value]
      ensures item.Dict? && Build(tipo, item.fields).None? ==> elementos == old(elementos)
      ensures item.Other? || (item.Instance? && KindOf(item.obj) != tipo) ==> elementos == old(elementos)
    {
      match item
      case Instance(o) =>
        if KindOf(o) == tipo {
          elementos := elementos + [o];
        }
      case Dict(r) =>
        var built := Build(tipo, r);
        if built.Some? {
          elementos := elementos + [built.value];
        }
      case Other(_) =>
    }

    /** `agregar_elementos`: each item of a list, in order, or a non-list as one item. */
    method AgregarElementos(datos: Input)
      requires Valid()
      modifies this
      ensures Valid() && tipo == old(tipo)
      ensures elementos == old(elementos) + Admitted(tipo, Items(datos))
    {
      var items := Items(datos);
      var i := 0;
      while i < |items|
        invariant 0 <= i <= |items|
        invariant Valid() && tipo == old(tipo)
        invariant elementos == old(elementos) + Admitted(tipo, items[..i])
      {
        AgregarElemento(items[i]);
        assert items[..i + 1][..i] == items[..i];
        i := i + 1;
      }
      assert items[..i] == items;
    }

    /** `cargar`: a file that cannot be read or decoded (None) raises (`raised`) before the
        list is cleared; otherwise the list becomes exactly what adding the loaded data admits. */
    method Cargar(loaded: Option<Input>) returns (raised: bool)
      requires Valid()
      modifies this
      ensures Valid() && tipo == old(tipo)
      ensures raised <==> loaded.None?
      ensures loaded.None? ==> elementos == old(elementos)
      ensures loaded.Some? ==> elementos == Admitted(tipo, Items(loaded.value))
    {
      raised := loaded.None?;
      if loaded.Some? {
        elementos := [];
        AgregarElementos(loaded.value);
      }
    }

    /** `diccionario`: one entry per element, in the list's order. */
    function Diccionario(): (r: seq<Plain>)
      reads this
      ensures |r| == |elementos|
      ensures forall j :: 0 <= j < |r| ==> r[j] == PlainOf(elementos[j])
    {
      seq(|elementos|, j requires 0 <= j < |elementos| reads this => PlainOf(elementos[j]))
    }
  }
}
