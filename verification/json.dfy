/**
 * JSON values as the plugin sends and receives them: request bodies are
 * Python dicts serialised with `json.dumps`, server frames are parsed with
 * `json.loads`. Text serialisation itself is not modelled; a frame is the
 * value the parser produced, or the fact that it failed.
 */
module Json {

  datatype Value =
    | Null
    | Bool(b: bool)
    | Int(i: int)
    | Num(r: real)
    | Str(s: string)
    | Arr(items: seq<Value>)
    | Obj(fields: map<string, Value>)

  /** A request body or a parsed JSON object: a Python dict with string keys. */
  type Body = map<string, Value>

  /** The value Python stores for an `Optional[int]` argument: `None` or the int. */
  datatype OptInt = NoInt | SomeInt(n: int)

  function OptIntValue(o: OptInt): Value {
    match o
    case NoInt => Null
    case SomeInt(n) => Int(n)
  }

  /** `if seed is not None: request_data['seed'] = seed` */
  function WithSeed(body: Body, seed: OptInt): (r: Body)
    ensures "seed" in r <==> (seed.SomeInt? || "seed" in body)
    ensures seed.SomeInt? ==> r["seed"] == Int(seed.n)
    ensures forall k :: k in body && k != "seed" ==> k in r && r[k] == body[k]
    ensures seed.NoInt? ==> r == body
  {
    match seed
    case NoInt => body
    case SomeInt(n) => body["seed" := Int(n)]
  }

  /** `request_data.update(kwargs)`: every key of `extra` wins over the same key of `body`. */
  function Update(body: Body, extra: Body): (r: Body)
    ensures r.Keys == body.Keys + extra.Keys
    ensures forall k :: k in extra ==> r[k] == extra[k]
    ensures forall k :: k in body && k !in extra ==> r[k] == body[k]
  {
    body + extra
  }
}
