/**
 * JavaScript values as the tool handlers build them: object literals whose
 * properties keep their insertion order, arrays, strings, integers, and the
 * two "nothing" values. A property set to `undefined` is still an own key of
 * the object (as in `{ body: undefined }`), which is why `Undefined` is a value
 * here and not the absence of a field.
 */
module Json {
  import opened Wrappers

  datatype Value =
    | Undefined
    | Null
    | Bool(b: bool)
    | Num(n: int)
    | Str(s: string)
    | Arr(items: seq<Value>)
    | Obj(fields: seq<Field>)

  datatype Field = Field(key: string, val: Value)

  /**
   * The own properties a property list defines, read as a dictionary: a later
   * assignment to a key replaces the value of an earlier one, as `obj.key = v` does.
   */
  function Props(fields: seq<Field>): map<string, Value> {
    if |fields| == 0 then map[]
    else Props(fields[..|fields| - 1])[fields[|fields| - 1].key := fields[|fields| - 1].val]
  }

  /** Appending a property is a dictionary update. */
  lemma PropsSnoc(fields: seq<Field>, f: Field)
    ensures Props(fields + [f]) == Props(fields)[f.key := f.val]
  {
    assert (fields + [f])[..|fields|] == fields;
  }

  /** The properties of a literal with one, two or three entries. */
  lemma PropsLiteral(a: Field, b: Field, c: Field)
    ensures Props([a]) == map[a.key := a.val]
    ensures Props([a, b]) == map[a.key := a.val][b.key := b.val]
    ensures Props([a, b, c]) == map[a.key := a.val][b.key := b.val][c.key := c.val]
  {
    PropsSnoc([], a);
    assert [] + [a] == [a];
    PropsSnoc([a], b);
    assert [a] + [b] == [a, b];
    PropsSnoc([a, b], c);
    assert [a, b] + [c] == [a, b, c];
  }

  /** The properties of a literal with five entries. */
  lemma PropsLiteral5(a: Field, b: Field, c: Field, d: Field, e: Field)
    ensures Props([a, b, c, d, e]) == map[a.key := a.val][b.key := b.val][c.key := c.val][d.key := d.val][e.key := e.val]
  {
    PropsLiteral(a, b, c);
    PropsSnoc([a, b, c], d);
    assert [a, b, c] + [d] == [a, b, c, d];
    PropsSnoc([a, b, c, d], e);
    assert [a, b, c, d] + [e] == [a, b, c, d, e];
  }

  /** The assignment `obj[key] = val` on an object's property list. */
  method Assign(fields: seq<Field>, key: string, val: Value) returns (r: seq<Field>)
    ensures Props(r) == Props(fields)[key := val]
  {
    PropsSnoc(fields, Field(key, val));
    r := fields + [Field(key, val)];
  }

  /** The own keys of an object; other values have none. */
  function Keys(v: Value): set<string> {
    if v.Obj? then Props(v.fields).Keys else {}
  }

  predicate Has(v: Value, key: string) {
    key in Keys(v)
  }

  /** The property read `v[key]`: `undefined` on a missing key or on a value that is not an object. */
  function Get(v: Value, key: string): Value {
    if v.Obj? then At(Props(v.fields), key) else Undefined
  }

  /** A dictionary read that gives `undefined` for a missing key. */
  function At(props: map<string, Value>, key: string): Value {
    if key in props then props[key] else Undefined
  }

  /** JavaScript truthiness. */
  predicate Truthy(v: Value) {
    match v
    case Undefined => false
    case Null => false
    case Bool(b) => b
    case Num(n) => n != 0
    case Str(s) => s != ""
    case Arr(_) => true
    case Obj(_) => true
  }

  /** An optional string parameter as the handler sees it. */
  function OfOption(o: Option<string>): (v: Value)
    ensures Truthy(v) <==> o.Some? && o.value != ""
  {
    match o
    case None => Undefined
    case Some(s) => Str(s)
  }

  /** `if (param)` on an optional string parameter. */
  predicate Supplied(o: Option<string>) {
    o.Some? && o.value != ""
  }

  /** The property list without any property named `key`. */
  function Remove(fields: seq<Field>, key: string): (r: seq<Field>)
    ensures Props(r) == Props(fields) - {key}
  {
    if |fields| == 0 then []
    else
      var last := fields[|fields| - 1];
      var rest := Remove(fields[..|fields| - 1], key);
      if last.key == key then rest
      else
        PropsSnoc(rest, last);
        rest + [last]
  }

  /** Object rest `{ [key]: _, ...rest } = v`: every own property except `key`, values unchanged. */
  function Without(v: Value, key: string): (r: Value)
    ensures Keys(r) == Keys(v) - {key}
    ensures Get(r, key) == Undefined
    ensures forall k :: k != key ==> Get(r, k) == Get(v, k)
  {
    if v.Obj? then Obj(Remove(v.fields, key)) else Obj([])
  }
}
