/**
  * The type-flag language of schema leaves (src/api/api.php:31-66) and the per-leaf
  * checks chk_type, chk_arr_types, chk_data and is_param_opt (api.php:211-289).
  * A leaf is a PHP integer used as a bit set; it is modelled as a 64-bit vector.
  */
module Flags {
  import opened Results
  import opened Values
  import opened ApiErrors

  type Bitmask = bv64

  // Kind flags.
  const API_P_STR: Bitmask := 0x1
  const API_P_INT: Bitmask := 0x2
  const API_P_FLOAT: Bitmask := 0x4
  const API_P_OPT: Bitmask := 0x8
  const API_P_NULL: Bitmask := 0x10
  const API_P_BOOL: Bitmask := 0x20

  // Array kind flags.
  const API_P_ARR_INT: Bitmask := 0x40
  const API_P_ARR_STR: Bitmask := 0x80
  const API_P_ARR_FLOAT: Bitmask := 0x100
  const API_P_ARR_BOOL: Bitmask := 0x200
  const API_P_ARR_MIXED: Bitmask := 0x400

  // Data flags.
  const API_P_EMPTY_STR_OK: Bitmask := 0x800

  // Convenience unions: no new bit positions.
  const API_P_ARR_ANY: Bitmask :=
    API_P_ARR_STR | API_P_ARR_INT | API_P_ARR_FLOAT | API_P_ARR_BOOL | API_P_ARR_MIXED
  const API_P_ANY: Bitmask :=
    API_P_STR | API_P_INT | API_P_FLOAT | API_P_OPT | API_P_NULL | API_P_BOOL | API_P_ARR_ANY
  const API_P_UNUSED: Bitmask := API_P_ANY | API_P_EMPTY_STR_OK | API_P_OPT

  /** `($flag & $bm) !== 0` */
  predicate Has(bm: Bitmask, flag: Bitmask) {
    bm & flag != 0
  }

  /** is_param_opt: the leaf carries the optional modifier. */
  predicate IsParamOpt(bm: Bitmask) {
    Has(bm, API_P_OPT)
  }

  /** The convenience unions hold exactly the bits they are built from. */
  lemma ConvenienceFlags(bm: Bitmask)
    ensures Has(bm, API_P_ARR_ANY) <==>
      Has(bm, API_P_ARR_STR) || Has(bm, API_P_ARR_INT) || Has(bm, API_P_ARR_FLOAT)
      || Has(bm, API_P_ARR_BOOL) || Has(bm, API_P_ARR_MIXED)
    ensures IsParamOpt(API_P_ANY) && Has(API_P_ANY, API_P_NULL)
    ensures !Has(API_P_ANY, API_P_EMPTY_STR_OK) && Has(API_P_UNUSED, API_P_EMPTY_STR_OK)
  {
  }

  /** chk_arr_types, as a property: every element of the array has kind `k`. */
  predicate AllOfKind(vals: map<string, Value>, k: Kind) {
    forall key | key in vals :: KindOf(vals[key]) == k
  }

  /** chk_arr_types (api.php:211-216): the foreach loop that returns early on a mismatch. */
  method ChkArrTypes(vals: map<string, Value>, k: Kind) returns (ok: bool)
    ensures ok == AllOfKind(vals, k)
  {
    var rest := vals.Keys;
    while rest != {}
      invariant rest <= vals.Keys
      invariant forall key | key in vals.Keys - rest :: KindOf(vals[key]) == k
      decreases rest
    {
      var key :| key in rest;
      if KindOf(vals[key]) != k {
        return false;
      }
      rest := rest - {key};
    }
    return true;
  }

  /** The scalar half of chk_type's `$ok` (api.php:230-234). */
  predicate ScalarAccepted(bm: Bitmask, v: Value) {
    || (Has(bm, API_P_NULL) && v.Null?)
    || (Has(bm, API_P_STR) && v.Str?)
    || (Has(bm, API_P_INT) && v.Int?)
    || (Has(bm, API_P_BOOL) && v.Bool?)
    || (Has(bm, API_P_FLOAT) && v.Float?)
  }

  /** The array half of chk_type's `$ok` (api.php:235-253), for an array with these elements. */
  predicate ArrayAccepted(bm: Bitmask, items: map<string, Value>) {
    || Has(bm, API_P_ARR_MIXED)
    || (Has(bm, API_P_ARR_STR) && AllOfKind(items, KString))
    || (Has(bm, API_P_ARR_INT) && AllOfKind(items, KInteger))
    || (Has(bm, API_P_ARR_BOOL) && AllOfKind(items, KBoolean))
    || (Has(bm, API_P_ARR_FLOAT) && AllOfKind(items, KDouble))
  }

  /** The boolean expression `$ok` of chk_type (api.php:229-254). */
  predicate TypeAccepted(bm: Bitmask, v: Value) {
    ScalarAccepted(bm, v) || (v.Arr? && ArrayAccepted(bm, v.items))
  }

  /** chk_type: throws naming the key and the runtime type when the type is not accepted. */
  function ChkType(key: string, bm: Bitmask, v: Value): (r: Outcome<Error>)
    ensures r == Pass <==> Accepts(bm, v)
    ensures r != Pass ==> r == Fail(InvalidType(key, KindOf(v)))
  {
    TypeAcceptedIsAccepts(bm, v);
    if TypeAccepted(bm, v) then Pass else Fail(InvalidType(key, KindOf(v)))
  }

  /** The scalar flag that admits values of kind `k`. */
  function ScalarFlag(k: Kind): Bitmask {
    match k
    case KString => API_P_STR
    case KInteger => API_P_INT
    case KDouble => API_P_FLOAT
    case KBoolean => API_P_BOOL
    case KNull => API_P_NULL
    case KArray => 0
  }

  /** The array flag that admits arrays whose elements all have kind `k`. */
  function ArrayFlag(k: Kind): Bitmask {
    match k
    case KString => API_P_ARR_STR
    case KInteger => API_P_ARR_INT
    case KDouble => API_P_ARR_FLOAT
    case KBoolean => API_P_ARR_BOOL
    case _ => 0
  }

  /**
    * Reference definition of leaf type acceptance: a scalar is accepted iff the flag
    * of its kind is set; an array iff ARR_MIXED is set or some element kind whose
    * array flag is set is shared by every element.
    */
  predicate Accepts(bm: Bitmask, v: Value) {
    if v.Arr? then
      Has(bm, API_P_ARR_MIXED)
      || exists k: Kind | ArrayFlag(k) != 0 :: Has(bm, ArrayFlag(k)) && AllOfKind(v.items, k)
    else
      Has(bm, ScalarFlag(KindOf(v)))
  }

  lemma TypeAcceptedIsAccepts(bm: Bitmask, v: Value)
    ensures TypeAccepted(bm, v) <==> Accepts(bm, v)
  {
    if v.Arr? && TypeAccepted(bm, v) && !Has(bm, API_P_ARR_MIXED) {
      if Has(bm, API_P_ARR_STR) && AllOfKind(v.items, KString) {
        assert ArrayFlag(KString) != 0;
      } else if Has(bm, API_P_ARR_INT) && AllOfKind(v.items, KInteger) {
        assert ArrayFlag(KInteger) != 0;
      } else if Has(bm, API_P_ARR_BOOL) && AllOfKind(v.items, KBoolean) {
        assert ArrayFlag(KBoolean) != 0;
      } else {
        assert ArrayFlag(KDouble) != 0;
      }
    }
  }

  /** A bit is set in a union iff it is set in one of its parts. */
  lemma HasUnion(a: Bitmask, b: Bitmask, flag: Bitmask)
    ensures Has(a | b, flag) <==> Has(a, flag) || Has(b, flag)
  {
    assert (a | b) & flag == (a & flag) | (b & flag);
    OrNonZero(a & flag, b & flag);
  }

  lemma OrNonZero(x: Bitmask, y: Bitmask)
    ensures x | y != 0 <==> x != 0 || y != 0
  {
  }

  lemma ScalarAcceptedUnion(a: Bitmask, b: Bitmask, v: Value)
    ensures ScalarAccepted(a | b, v) <==> ScalarAccepted(a, v) || ScalarAccepted(b, v)
  {
    HasUnion(a, b, API_P_NULL);
    HasUnion(a, b, API_P_STR);
    HasUnion(a, b, API_P_INT);
    HasUnion(a, b, API_P_BOOL);
    HasUnion(a, b, API_P_FLOAT);
  }

  lemma ArrayAcceptedUnion(a: Bitmask, b: Bitmask, items: map<string, Value>)
    ensures ArrayAccepted(a | b, items) <==> ArrayAccepted(a, items) || ArrayAccepted(b, items)
  {
    HasUnion(a, b, API_P_ARR_MIXED);
    HasUnion(a, b, API_P_ARR_STR);
    HasUnion(a, b, API_P_ARR_INT);
    HasUnion(a, b, API_P_ARR_BOOL);
    HasUnion(a, b, API_P_ARR_FLOAT);
  }

  /** A leaf accepts exactly the union of what its flags accept one by one. */
  lemma AcceptsUnion(a: Bitmask, b: Bitmask, v: Value)
    ensures Accepts(a | b, v) <==> Accepts(a, v) || Accepts(b, v)
  {
    TypeAcceptedIsAccepts(a, v);
    TypeAcceptedIsAccepts(b, v);
    TypeAcceptedIsAccepts(a | b, v);
    ScalarAcceptedUnion(a, b, v);
    if v.Arr? {
      ArrayAcceptedUnion(a, b, v.items);
    }
  }

  /** Null is accepted only with API_P_NULL, whatever the other flags. */
  lemma NullAcceptance(bm: Bitmask)
    ensures Accepts(bm, Null) <==> Has(bm, API_P_NULL)
  {
  }

  /** An empty array passes every enabled array flag, and no other leaf. */
  lemma EmptyArrayAcceptance(bm: Bitmask)
    ensures Accepts(bm, Arr(map[])) <==> Has(bm, API_P_ARR_ANY)
  {
    TypeAcceptedIsAccepts(bm, Arr(map[]));
  }

  /** An array mixing strings and integers is accepted only with API_P_ARR_MIXED. */
  lemma MixedArrayNeedsMixedFlag(bm: Bitmask, m: map<string, Value>, ks: string, ki: string)
    requires ks in m && m[ks].Str? && ki in m && m[ki].Int?
    ensures Accepts(bm, Arr(m)) <==> Has(bm, API_P_ARR_MIXED)
  {
    TypeAcceptedIsAccepts(bm, Arr(m));
  }

  /** API_P_ANY accepts every runtime value. */
  lemma AnyAcceptsEverything(v: Value)
    ensures Accepts(API_P_ANY, v)
  {
    TypeAcceptedIsAccepts(API_P_ANY, v);
  }

  /** The condition under which chk_data throws (api.php:278-284). */
  predicate EmptyRejected(bm: Bitmask, v: Value) {
    !Has(bm, API_P_EMPTY_STR_OK) && v.Str? && EmptyString(v.s)
  }

  /** chk_data: rejects "" and "0" unless API_P_EMPTY_STR_OK; never rejects a non-string. */
  function ChkData(key: string, bm: Bitmask, v: Value): (r: Outcome<Error>)
    ensures !v.Str? ==> r == Pass
    ensures Has(bm, API_P_EMPTY_STR_OK) ==> r == Pass
    ensures r != Pass <==> !Has(bm, API_P_EMPTY_STR_OK) && (v == Str("") || v == Str("0"))
    ensures r != Pass ==> r == Fail(InvalidEmpty(key))
  {
    if EmptyRejected(bm, v) then Fail(InvalidEmpty(key)) else Pass
  }

  /** The leaf check of verify: chk_type, then chk_data only once the type passed. */
  function CheckLeaf(key: string, bm: Bitmask, v: Value): (r: Outcome<Error>)
    ensures r == Pass <==> Accepts(bm, v) && !EmptyRejected(bm, v)
    ensures !Accepts(bm, v) ==> r == Fail(InvalidType(key, KindOf(v)))
    ensures Accepts(bm, v) && EmptyRejected(bm, v) ==> r == Fail(InvalidEmpty(key))
  {
    var t := ChkType(key, bm, v);
    if t.Fail? then t else ChkData(key, bm, v)
  }

  /** A required string leaf rejects "" and "0" but accepts " "; EMPTY_STR_OK admits "". */
  lemma EmptyStringBoundary(key: string)
    ensures CheckLeaf(key, API_P_STR, Str("")) == Fail(InvalidEmpty(key))
    ensures CheckLeaf(key, API_P_STR, Str("0")) == Fail(InvalidEmpty(key))
    ensures CheckLeaf(key, API_P_STR, Str(" ")) == Pass
    ensures CheckLeaf(key, API_P_STR | API_P_EMPTY_STR_OK, Str("")) == Pass
  {
  }

  /** The array disjunction of chk_type, calling chk_arr_types once per enabled array flag. */
  method ChkArrayFlags(bm: Bitmask, items: map<string, Value>) returns (ok: bool)
    ensures ok == ArrayAccepted(bm, items)
  {
    ok := Has(bm, API_P_ARR_MIXED);
    if !ok && Has(bm, API_P_ARR_STR) {
      ok := ChkArrTypes(items, KString);
    }
    if !ok && Has(bm, API_P_ARR_INT) {
      ok := ChkArrTypes(items, KInteger);
    }
    if !ok && Has(bm, API_P_ARR_BOOL) {
      ok := ChkArrTypes(items, KBoolean);
    }
    if !ok && Has(bm, API_P_ARR_FLOAT) {
      ok := ChkArrTypes(items, KDouble);
    }
  }

  /** chk_type as the source runs it (api.php:218-268). */
  method ChkTypeAt(key: string, bm: Bitmask, v: Value) returns (r: Outcome<Error>)
    ensures r == ChkType(key, bm, v)
  {
    var ok := ScalarAccepted(bm, v);
    if !ok && v.Arr? {
      ok := ChkArrayFlags(bm, v.items);
    }
    r := if ok then Pass else Fail(InvalidType(key, KindOf(v)));
  }
}
