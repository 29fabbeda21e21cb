/**
  * The recursive schema checker `APIEndpoint::verify` (src/api/api.php:291-336).
  *
  * A format is an ordered PHP array from key to either a type-flag leaf or a nested
  * format; it is modelled as a sequence of fields, because the order decides which
  * error is reported first. The data is a PHP array with string keys.
  */
module Schema {
  import opened Results
  import opened Values
  import opened ApiErrors
  import opened Flags

  datatype Spec = Leaf(bm: Bitmask) | Sub(format: Format)
  datatype Field = Field(key: string, spec: Spec)
  /**
    * A format in the source's key order. Keys are taken to be distinct, as the keys of
    * a PHP array are; a repeated key would simply be checked once per occurrence.
    */
  datatype Format = Format(fields: seq<Field>)

  /** `array_keys($format)` as a set. */
  function Keys(fmt: Format): set<string> {
    set i | 0 <= i < |fmt.fields| :: fmt.fields[i].key
  }

  /**
    * verify: an empty format only yields a boolean that every caller discards, so it
    * never raises; otherwise each field is checked in order, and in strict mode the
    * data may have no key outside the format (array_is_subset).
    */
  function Verify(data: map<string, Value>, fmt: Format, strict: bool): Outcome<Error>
    decreases fmt, 1, 0
  {
    if |fmt.fields| == 0 then Pass
    else
      var r := CheckFields(data, fmt, 0, strict);
      if r.Fail? then r
      else if strict && !(data.Keys <= Keys(fmt)) then Fail(ExtraKeys)
      else Pass
  }

  /** The foreach over the format's keys from position `i` on, stopping at the first throw. */
  function CheckFields(data: map<string, Value>, fmt: Format, i: nat, strict: bool): Outcome<Error>
    requires i <= |fmt.fields|
    decreases fmt, 0, |fmt.fields| - i
  {
    if i == |fmt.fields| then Pass
    else
      var r := CheckField(data, fmt.fields[i], strict);
      if r.Fail? then r else CheckFields(data, fmt, i + 1, strict)
  }

  /**
    * One iteration of the foreach (api.php:307-319). A missing key passes only if its
    * leaf is optional; a missing key with a nested format hands an array to
    * is_param_opt(int), a PHP TypeError. A present nested key recurses; a non-empty
    * nested format applied to a non-array value is an error.
    */
  function CheckField(data: map<string, Value>, f: Field, strict: bool): Outcome<Error>
    decreases f, 0, 0
  {
    var Field(k, spec) := f;
    if k !in data then
      match spec
      case Leaf(bm) => if IsParamOpt(bm) then Pass else Fail(ParamMissing(k))
      case Sub(_) => Fail(NestedParamMissing(k))
    else
      match spec
      case Leaf(bm) => CheckLeaf(k, bm, data[k])
      case Sub(sub) =>
        if |sub.fields| == 0 then Pass
        else if data[k].Arr? then Verify(data[k].items, sub, strict)
        else Fail(NotAnArray(k))
  }

  /**
    * Reference definition of conformance, stated per field with no order: every field
    * conforms, and in strict mode the data has no extra key. An empty format admits
    * everything.
    */
  ghost predicate Conforms(data: map<string, Value>, fmt: Format, strict: bool)
    decreases fmt, 1, 0
  {
    |fmt.fields| == 0 ||
    ((forall i | 0 <= i < |fmt.fields| :: FieldConforms(data, fmt.fields[i], strict))
     && (strict ==> data.Keys <= Keys(fmt)))
  }

  ghost predicate FieldConforms(data: map<string, Value>, f: Field, strict: bool)
    decreases f, 0, 0
  {
    if f.key !in data then
      f.spec.Leaf? && IsParamOpt(f.spec.bm)
    else
      match f.spec
      case Leaf(bm) => Accepts(bm, data[f.key]) && !EmptyRejected(bm, data[f.key])
      case Sub(sub) =>
        |sub.fields| == 0 || (data[f.key].Arr? && Conforms(data[f.key].items, sub, strict))
  }

  /** verify passes exactly on conforming data. */
  lemma {:induction false} VerifyConforms(data: map<string, Value>, fmt: Format, strict: bool)
    ensures Verify(data, fmt, strict) == Pass <==> Conforms(data, fmt, strict)
    decreases fmt, 1, 0
  {
    if |fmt.fields| != 0 {
      CheckFieldsConforms(data, fmt, 0, strict);
    }
  }

  lemma {:induction false} CheckFieldsConforms(data: map<string, Value>, fmt: Format, i: nat, strict: bool)
    requires i <= |fmt.fields|
    ensures CheckFields(data, fmt, i, strict) == Pass <==>
      forall j | i <= j < |fmt.fields| :: FieldConforms(data, fmt.fields[j], strict)
    decreases fmt, 0, |fmt.fields| - i
  {
    if i < |fmt.fields| {
      CheckFieldConforms(data, fmt.fields[i], strict);
      CheckFieldsConforms(data, fmt, i + 1, strict);
    }
  }

  lemma {:induction false} CheckFieldConforms(data: map<string, Value>, f: Field, strict: bool)
    ensures CheckField(data, f, strict) == Pass <==> FieldConforms(data, f, strict)
    decreases f, 0, 0
  {
    if f.key in data && f.spec.Sub? && |f.spec.format.fields| != 0 && data[f.key].Arr? {
      VerifyConforms(data[f.key].items, f.spec.format, strict);
    }
  }

  /** When verify passes, every format key missing from the data is an optional leaf. */
  lemma RequiredKeysPresent(data: map<string, Value>, fmt: Format, strict: bool, i: nat)
    requires Verify(data, fmt, strict) == Pass
    requires i < |fmt.fields| && fmt.fields[i].key !in data
    ensures fmt.fields[i].spec.Leaf? && IsParamOpt(fmt.fields[i].spec.bm)
  {
    VerifyConforms(data, fmt, strict);
    assert FieldConforms(data, fmt.fields[i], strict);
  }

  /**
    * verify reports the error of the first failing field in format order: a missing
    * required key is reported as such when every earlier field passes.
    */
  lemma {:induction false} FirstFailingFieldDecides(data: map<string, Value>, fmt: Format, strict: bool, i: nat)
    requires i < |fmt.fields|
    requires forall j | 0 <= j < i :: CheckField(data, fmt.fields[j], strict) == Pass
    requires CheckField(data, fmt.fields[i], strict).Fail?
    ensures Verify(data, fmt, strict) == CheckField(data, fmt.fields[i], strict)
  {
    CheckFieldsPrefix(data, fmt, strict, i, 0);
  }

  lemma {:induction false} CheckFieldsPrefix(data: map<string, Value>, fmt: Format, strict: bool, i: nat, j: nat)
    requires j <= i < |fmt.fields|
    requires forall m | 0 <= m < i :: CheckField(data, fmt.fields[m], strict) == Pass
    ensures CheckFields(data, fmt, j, strict) == CheckFields(data, fmt, i, strict)
    decreases i - j
  {
    if j < i {
      CheckFieldsPrefix(data, fmt, strict, i, j + 1);
    }
  }

  /** A missing required leaf key fails with ParamMissing naming it once earlier fields pass. */
  lemma MissingRequiredKeyReported(data: map<string, Value>, fmt: Format, strict: bool, i: nat, bm: Bitmask)
    requires i < |fmt.fields| && fmt.fields[i].spec == Leaf(bm) && !IsParamOpt(bm)
    requires fmt.fields[i].key !in data
    requires forall j | 0 <= j < i :: CheckField(data, fmt.fields[j], strict) == Pass
    ensures Verify(data, fmt, strict) == Fail(ParamMissing(fmt.fields[i].key))
  {
    FirstFailingFieldDecides(data, fmt, strict, i);
  }

  /**
    * Strict mode with a non-empty format: once every field passes, verify fails with
    * ExtraKeys exactly when the data has a key the format does not name.
    */
  lemma StrictExtraKeys(data: map<string, Value>, fmt: Format)
    requires |fmt.fields| != 0
    requires CheckFields(data, fmt, 0, true) == Pass
    ensures Verify(data, fmt, true) == Fail(ExtraKeys) <==> exists k :: k in data && k !in Keys(fmt)
    ensures Verify(data, fmt, true) == Pass <==> data.Keys <= Keys(fmt)
  {
  }

  /** An empty format never raises, even in strict mode and whatever the data. */
  lemma EmptyFormatNeverRejects(data: map<string, Value>, strict: bool)
    ensures Verify(data, Format([]), strict) == Pass
  {
  }

  /** In lenient mode, keys outside the format are never looked at. */
  lemma {:induction false} LenientIgnoresExtraKeys(data: map<string, Value>, extra: map<string, Value>, fmt: Format)
    requires extra.Keys !! Keys(fmt)
    ensures Verify(data + extra, fmt, false) == Verify(data, fmt, false)
  {
    if |fmt.fields| != 0 {
      CheckFieldsIgnoreExtra(data, extra, fmt, 0);
    }
  }

  lemma {:induction false} CheckFieldsIgnoreExtra(data: map<string, Value>, extra: map<string, Value>, fmt: Format, i: nat)
    requires i <= |fmt.fields|
    requires extra.Keys !! Keys(fmt)
    ensures CheckFields(data + extra, fmt, i, false) == CheckFields(data, fmt, i, false)
    decreases |fmt.fields| - i
  {
    if i < |fmt.fields| {
      var k := fmt.fields[i].key;
      assert k in Keys(fmt);
      assert k in data + extra <==> k in data;
      assert k in data ==> (data + extra)[k] == data[k];
      CheckFieldsIgnoreExtra(data, extra, fmt, i + 1);
    }
  }

  /** Strict mode only adds checks: data that passes strictly passes leniently. */
  lemma StrictImpliesLenient(data: map<string, Value>, fmt: Format)
    requires Verify(data, fmt, true) == Pass
    ensures Verify(data, fmt, false) == Pass
  {
    VerifyConforms(data, fmt, true);
    ConformsStrictLenient(data, fmt);
    VerifyConforms(data, fmt, false);
  }

  lemma {:induction false} ConformsStrictLenient(data: map<string, Value>, fmt: Format)
    requires Conforms(data, fmt, true)
    ensures Conforms(data, fmt, false)
    decreases fmt, 1, 0
  {
    forall i | 0 <= i < |fmt.fields|
      ensures FieldConforms(data, fmt.fields[i], false)
    {
      FieldConformsStrictLenient(data, fmt.fields[i]);
    }
  }

  lemma {:induction false} FieldConformsStrictLenient(data: map<string, Value>, f: Field)
    requires FieldConforms(data, f, true)
    ensures FieldConforms(data, f, false)
    decreases f, 0, 0
  {
    if f.key in data && f.spec.Sub? && |f.spec.format.fields| != 0 {
      ConformsStrictLenient(data[f.key].items, f.spec.format);
    }
  }

  /**
    * An absent optional leaf is skipped entirely: removing it from any position of a
    * format that keeps at least one field does not change verify's outcome.
    */
  lemma AbsentOptionalSkipped(data: map<string, Value>, pre: seq<Field>, f: Field, rest: seq<Field>, strict: bool)
    requires f.key !in data && f.spec.Leaf? && IsParamOpt(f.spec.bm)
    requires |pre| + |rest| != 0
    ensures Verify(data, Format(pre + [f] + rest), strict) == Verify(data, Format(pre + rest), strict)
  {
    var whole := Format(pre + [f] + rest);
    var short := Format(pre + rest);
    CheckFieldsSkipBefore(data, pre, f, rest, 0, strict);
    assert Keys(whole) == {f.key} + Keys(short) by {
      forall k | k in Keys(whole) ensures k in {f.key} + Keys(short) {
        var i :| 0 <= i < |whole.fields| && whole.fields[i].key == k;
        if i < |pre| {
          assert whole.fields[i] == short.fields[i];
        } else if i > |pre| {
          assert whole.fields[i] == short.fields[i - 1];
        }
      }
      forall k | k in Keys(short) ensures k in Keys(whole) {
        var i :| 0 <= i < |short.fields| && short.fields[i].key == k;
        if i < |pre| {
          assert whole.fields[i] == short.fields[i];
        } else {
          assert whole.fields[i + 1] == short.fields[i];
        }
      }
      assert whole.fields[|pre|] == f;
    }
  }

  /** Up to the skipped field, both formats check the same fields with the same outcome. */
  lemma {:induction false} CheckFieldsSkipBefore(data: map<string, Value>, pre: seq<Field>, f: Field, rest: seq<Field>, i: nat, strict: bool)
    requires f.key !in data && f.spec.Leaf? && IsParamOpt(f.spec.bm)
    requires i <= |pre|
    ensures CheckFields(data, Format(pre + [f] + rest), i, strict) == CheckFields(data, Format(pre + rest), i, strict)
    decreases |pre| - i
  {
    if i < |pre| {
      assert (pre + [f] + rest)[i] == (pre + rest)[i];
      CheckFieldsSkipBefore(data, pre, f, rest, i + 1, strict);
    } else {
      assert (pre + [f] + rest)[i] == f;
      assert CheckField(data, f, strict) == Pass;
      CheckFieldsSkipAfter(data, pre, f, rest, i, strict);
    }
  }

  /** After the skipped field, the longer format runs one position ahead of the shorter. */
  lemma {:induction false} CheckFieldsSkipAfter(data: map<string, Value>, pre: seq<Field>, f: Field, rest: seq<Field>, j: nat, strict: bool)
    requires |pre| <= j <= |pre| + |rest|
    ensures CheckFields(data, Format(pre + [f] + rest), j + 1, strict) == CheckFields(data, Format(pre + rest), j, strict)
    decreases |pre| + |rest| - j
  {
    if j < |pre| + |rest| {
      assert (pre + [f] + rest)[j + 1] == (pre + rest)[j];
      CheckFieldsSkipAfter(data, pre, f, rest, j + 1, strict);
    }
  }

  /** One iteration of verify's foreach as the source runs it. */
  method CheckFieldAt(data: map<string, Value>, f: Field, strict: bool) returns (r: Outcome<Error>)
    ensures r == CheckField(data, f, strict)
    decreases f, 0, 0
  {
    var Field(k, spec) := f;
    if k !in data {
      match spec {
        case Leaf(bm) => r := if IsParamOpt(bm) then Pass else Fail(ParamMissing(k));
        case Sub(_) => r := Fail(NestedParamMissing(k));
      }
      return;
    }
    match spec
    case Sub(sub) =>
      if |sub.fields| == 0 {
        r := Pass;
      } else if data[k].Arr? {
        r := VerifyFormat(data[k].items, sub, strict);
      } else {
        r := Fail(NotAnArray(k));
      }
    case Leaf(bm) =>
      r := ChkTypeAt(k, bm, data[k]);
      if r == Pass {
        r := ChkData(k, bm, data[k]);
      }
  }

  /** verify (api.php:291-336): the foreach over the format, then the strict subset check. */
  method VerifyFormat(data: map<string, Value>, fmt: Format, strict: bool) returns (r: Outcome<Error>)
    ensures r == Verify(data, fmt, strict)
    decreases fmt, 1, 0
  {
    if |fmt.fields| == 0 {
      return Pass;
    }
    var i := 0;
    while i < |fmt.fields|
      invariant 0 <= i <= |fmt.fields|
      invariant CheckFields(data, fmt, 0, strict) == CheckFields(data, fmt, i, strict)
    {
      r := CheckFieldAt(data, fmt.fields[i], strict);
      if r.Fail? {
        return;
      }
      i := i + 1;
    }
    if strict && !(data.Keys <= Keys(fmt)) {
      return Fail(ExtraKeys);
    }
    return Pass;
  }
}
