/** An actuator schedule entry, as `Clases/user_config.py` builds it from a dictionary. */
module UserConfigs {
  import opened Json
  import opened Signature

  datatype UserConfig = UserConfig(code: Value, configType: Value, configValue: Value)

  /** `__init__(self, code=None, config_type=None, config_value=None, **kwargs)` */
  const ConfigParams := Params({}, {"code", "config_type", "config_value"}, true)

  /** `c.__dict__`, which is what `diccionario` returns. */
  function Dict(c: UserConfig): (r: Record)
    ensures r.Keys == {"code", "config_type", "config_value"}
  {
    map["code" := c.code, "config_type" := c.configType, "config_value" := c.configValue]
  }

  /** `UserConfig(**r)`: every dictionary binds except one holding a "self" key; the three
      named keys are kept (None when absent) and all others, such as "config_day", vanish. */
  function Decode(r: Record): (c: Option<UserConfig>)
    ensures c.Some? <==> "self" !in r
    ensures c.Some? ==> Dict(c.value) == map k | k in {"code", "config_type", "config_value"} :: Get(r, k, Null)
  {
    if Accepts(ConfigParams, r.Keys) then
      Some(UserConfig(Get(r, "code", Null), Get(r, "config_type", Null), Get(r, "config_value", Null)))
    else
      None
  }

  /** Decoding what `diccionario` returns rebuilds the same configuration. */
  lemma DecodeDict(c: UserConfig)
    ensures Decode(Dict(c)) == Some(c)
  {
  }

  /** `__str__` reads the attributes `id` and `tankId`, which the constructor never sets,
      so it always raises `AttributeError` (None here). */
  function Str(c: UserConfig, realText: real -> string): (r: Option<string>)
    ensures r.None?
  {
    var attrs := Dict(c);
    if "id" in attrs && "tankId" in attrs then
      Some(Show(c.code, realText) + " (ID: " + Show(Get(attrs, "id", Null), realText) + ", Tank: " + Show(Get(attrs, "tankId", Null), realText)
           + ", Tipo: " + Show(c.configType, realText) + ")")
    else
      None
  }
}
