/** The JSON values that travel between the components, the profile
    endpoint and the document store, and the three JavaScript operations the
    code applies to them: truthiness, property reads and object spread. */
module Json {
  import opened Wrappers
  import Text

  /** A parsed JSON value. Numbers are modelled as integers. */
  datatype Value =
    | Null
    | Bool(b: bool)
    | Num(n: int)
    | Str(s: string)
    | Arr(items: seq<Value>)
    | Obj(fields: map<string, Value>)

  /** An object's own properties, and the fields of a stored document. */
  type Object = map<string, Value>

  /** JavaScript truthiness of a property read; `None` is `undefined`. */
  predicate Truthy(v: Option<Value>) {
    match v
    case None => false
    case Some(Null) => false
    case Some(Bool(b)) => b
    case Some(Num(n)) => n != 0
    case Some(Str(s)) => s != ""
    case Some(_) => true
  }

  /** The field `key` of an object, `None` when it has none. */
  function Field(o: Object, key: string): Option<Value> {
    if key in o then Some(o[key]) else None
  }

  /** `v.key` for a value that is not `null` and a key that names neither an
      array index nor `length`: only an object has such an own property. */
  function Prop(v: Value, key: string): Option<Value> {
    if v.Obj? && key in v.fields then Some(v.fields[key]) else None
  }

  /** The numerals of the indexes below `n`. */
  function Numerals(n: nat): (ks: set<string>)
    ensures forall i :: 0 <= i < n ==> Text.Decimal(i) in ks
  {
    if n == 0 then {} else Numerals(n - 1) + {Text.Decimal(n - 1)}
  }

  /** The numeral of an index at or above `n` is not among those below `n`. */
  lemma {:induction false} NumeralIsNew(m: nat, n: nat)
    requires n <= m
    ensures Text.Decimal(m) !in Numerals(n)
    decreases n
  {
    if n > 0 {
      NumeralIsNew(m, n - 1);
      Text.DecimalInjective(m, n - 1);
    }
  }

  /** The own properties of an array, or of a string's characters: element
      `i` under the key `String(i)`, and no other key. */
  function Indexed(items: seq<Value>): (r: Object)
    ensures r.Keys == Numerals(|items|)
    ensures forall i :: 0 <= i < |items| ==> Text.Decimal(i) in r && r[Text.Decimal(i)] == items[i]
  {
    if items == [] then map[]
    else
      var n := |items| - 1;
      var m := Indexed(items[..n]);
      NumeralIsNew(n, n);
      m[Text.Decimal(n) := items[n]]
  }

  /** The properties `...v` copies into an object literal: an object's own
      fields; an array's or a string's elements under their indexes; nothing
      from `null`, a boolean or a number. */
  function Spread(v: Value): (r: Object)
    ensures v.Obj? ==> r == v.fields
    ensures v.Arr? ==> r.Keys == Numerals(|v.items|)
    ensures v.Arr? ==> forall i :: 0 <= i < |v.items| ==> Text.Decimal(i) in r && r[Text.Decimal(i)] == v.items[i]
    ensures v.Str? ==> r.Keys == Numerals(|v.s|)
    ensures v.Str? ==> forall i :: 0 <= i < |v.s| ==> Text.Decimal(i) in r && r[Text.Decimal(i)] == Str([v.s[i]])
    ensures (v.Null? || v.Bool? || v.Num?) ==> r == map[]
  {
    match v
    case Obj(fields) => fields
    case Arr(items) => Indexed(items)
    case Str(s) => Indexed(seq(|s|, i requires 0 <= i < |s| => Str([s[i]])))
    case _ => map[]
  }
}
