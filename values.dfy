/**
  * The PHP runtime values the API layer inspects: the decoded request data, the
  * query parameters and the response buffer. Array keys are modelled as strings;
  * a PHP list `[a, b]` is the map {"0": a, "1": b}.
  */
module Values {

  datatype Value =
    | Str(s: string)
    | Int(i: int)
    | Float(x: real)
    | Bool(b: bool)
    | Null
    | Arr(items: map<string, Value>)

  /** The names `gettype` returns for the values above. */
  datatype Kind = KString | KInteger | KDouble | KBoolean | KNull | KArray

  function KindOf(v: Value): (k: Kind)
    ensures k == KString <==> v.Str?
    ensures k == KInteger <==> v.Int?
    ensures k == KDouble <==> v.Float?
    ensures k == KBoolean <==> v.Bool?
    ensures k == KNull <==> v.Null?
    ensures k == KArray <==> v.Arr?
  {
    match v
    case Str(_) => KString
    case Int(_) => KInteger
    case Float(_) => KDouble
    case Bool(_) => KBoolean
    case Null => KNull
    case Arr(_) => KArray
  }

  /** PHP's `empty()` applied to a string: true for "" and for "0". */
  predicate EmptyString(s: string) {
    s == "" || s == "0"
  }

  /** PHP's `!$v`: the values that convert to boolean false. */
  predicate Falsy(v: Value) {
    match v
    case Str(s) => EmptyString(s)
    case Int(i) => i == 0
    case Float(x) => x == 0.0
    case Bool(b) => !b
    case Null => true
    case Arr(m) => m == map[]
  }

  /**
    * PHP's loose comparison `$v == NULL`: null is compared with a string as "",
    * and with every other value by converting both sides to boolean.
    */
  predicate LooselyNull(v: Value) {
    match v
    case Str(s) => s == ""
    case _ => Falsy(v)
  }

  /** The only value on which "loosely null" and "falsy" differ is the string "0". */
  lemma LooselyNullIsFalsyExceptZeroString(v: Value)
    ensures LooselyNull(v) ==> Falsy(v)
    ensures Falsy(v) && !LooselyNull(v) <==> v == Str("0")
  {
  }
}
