/** Whether a Python call `f(**kwargs)` binds, for a function whose parameters are all
    keyword-passable (the constructors the scripts call with a dictionary, and
    `leer_serial_una_vez`). A call that does not bind raises `TypeError`. */
module Signature {

  datatype Params = Params(required: set<string>, optional: set<string>, varKeywords: bool)

  /** Every required name is given, no name is bound twice (a method's `self` is already
      bound positionally), and no unknown name is passed unless there is a `**kwargs`. */
  predicate Accepts(p: Params, keys: set<string>) {
    && p.required <= keys
    && "self" !in keys
    && (p.varKeywords || keys <= p.required + p.optional)
  }
}
