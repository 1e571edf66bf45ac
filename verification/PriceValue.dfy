/** Pricing fields and values as controller/ratio_sync.go compares them; numbers are reals. */
module PriceValue {
  import opened Prelude

  const EPSILON := 0.000000001   // floatEpsilon

  predicate NearlyEqual(a: real, b: real) {
    if a > b then a - b < EPSILON else b - a < EPSILON
  }

  /** A dynamically typed value: nil, float64, an integer type, or a string. */
  datatype Value = Null | Float(r: real) | Whole(i: int) | Text(s: string)

  /** The placeholder reported for "no difference". */
  const SAME := Text("same")

  predicate ValuesEqual(a: Value, b: Value) {
    if a.Float? && b.Float? then NearlyEqual(a.r, b.r) else a == b
  }

  datatype Field =
    | ModelRatio | CompletionRatio | CacheRatio | CreateCacheRatio | ImageRatio | AudioRatio | AudioCompletionRatio
    | ModelPrice | BillingMode | BillingExpr

  /** pricingSyncFields, in order. */
  const FIELDS := [ModelRatio, CompletionRatio, CacheRatio, CreateCacheRatio, ImageRatio, AudioRatio,
                   AudioCompletionRatio, ModelPrice, BillingMode, BillingExpr]

  predicate Numeric(f: Field) {
    !f.BillingMode? && !f.BillingExpr?
  }

  function AsFloat64(v: Value): Option<real> {
    match v
    case Float(r) => Some(r)
    case Whole(i) => Some(i as real)
    case _ => None
  }

  function NormalizeSyncValue(f: Field, v: Value): Value {
    if Numeric(f) && AsFloat64(v).Some? then Float(AsFloat64(v).value) else v
  }

  lemma NormalizeIsIdempotent(f: Field, v: Value)
    ensures NormalizeSyncValue(f, NormalizeSyncValue(f, v)) == NormalizeSyncValue(f, v)
  {
  }

  lemma AllFieldsListed(f: Field)
    ensures f in FIELDS
  {
    match f
    case ModelRatio => assert FIELDS[0] == f;
    case CompletionRatio => assert FIELDS[1] == f;
    case CacheRatio => assert FIELDS[2] == f;
    case CreateCacheRatio => assert FIELDS[3] == f;
    case ImageRatio => assert FIELDS[4] == f;
    case AudioRatio => assert FIELDS[5] == f;
    case AudioCompletionRatio => assert FIELDS[6] == f;
    case ModelPrice => assert FIELDS[7] == f;
    case BillingMode => assert FIELDS[8] == f;
    case BillingExpr => assert FIELDS[9] == f;
  }
}
