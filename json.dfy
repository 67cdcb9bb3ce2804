/**
 * JavaScript values as they come out of `JSON.parse` (the locale dictionaries,
 * request and response bodies), with the three operations the site applies to
 * them: truthiness, `typeof`, and own-property lookup (`key in v ? v[key] : undefined`).
 */
module Json {
  import opened Options
  import Strings

  datatype Json =
    | Null
    | Bool(b: bool)
    | Num(n: real)
    | Str(s: string)
    | Arr(items: seq<Json>)
    | Obj(fields: map<string, Json>)

  /** The result of `typeof` on a defined JSON value (`typeof null` is "object"). */
  datatype TypeTag = TObject | TBoolean | TNumber | TString

  function TypeOf(v: Json): TypeTag
  {
    match v
    case Null => TObject
    case Bool(_) => TBoolean
    case Num(_) => TNumber
    case Str(_) => TString
    case Arr(_) => TObject
    case Obj(_) => TObject
  }

  /** JavaScript truthiness. JSON numbers are never NaN, so only zero is a falsy number. */
  predicate Truthy(v: Json)
  {
    match v
    case Null => false
    case Bool(b) => b
    case Num(n) => n != 0.0
    case Str(s) => s != ""
    case Arr(_) => true
    case Obj(_) => true
  }

  /** `v && typeof v === "object"`: the values that have own properties to walk into. */
  predicate IsObjectLike(v: Json)
  {
    v.Arr? || v.Obj?
  }

  lemma ObjectLikeIsTruthyObject(v: Json)
    ensures IsObjectLike(v) <==> Truthy(v) && TypeOf(v) == TObject
  {
  }

  /**
   * Own property `key` of `v`, or `None` when `v` has no such own property.
   * An object's own properties are its fields; an array's are its indices,
   * written as canonical numerals, and "length". Scalars have none.
   */
  function Member(v: Json, key: string): (r: Option<Json>)
    ensures v.Obj? ==> (r.Some? <==> key in v.fields)
    ensures v.Arr? ==> (r.Some? <==> key == "length" || exists i :: 0 <= i < |v.items| && key == Strings.NatToDecimal(i))
    ensures !IsObjectLike(v) ==> r.None?
  {
    match v
    case Obj(fields) =>
      if key in fields then Some(fields[key]) else None
    case Arr(items) =>
      if key == "length" then Some(Num(|items| as real))
      else
        var idx := Strings.ParseIndex(key);
        if idx.Some? && idx.value < |items| then
          Strings.DecimalOfParseIndex(key);
          Some(items[idx.value])
        else
          assert forall i :: 0 <= i < |items| && key == Strings.NatToDecimal(i) ==> idx == Some(i) by {
            forall i | 0 <= i < |items| && key == Strings.NatToDecimal(i) {
              Strings.ParseIndexOfDecimal(i);
            }
          }
          None
    case _ => None
  }

  /** Index `i` of an array is its own property named by the numeral of `i`. */
  lemma MemberAtIndex(items: seq<Json>, i: nat)
    requires i < |items|
    ensures Member(Arr(items), Strings.NatToDecimal(i)) == Some(items[i])
  {
    Strings.ParseIndexOfDecimal(i);
    assert Strings.NatToDecimal(i) != "length" by {
      assert Strings.IsDigit(Strings.NatToDecimal(i)[0]);
    }
  }
}
