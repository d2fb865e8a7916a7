/**
 * A database or spreadsheet row as the renderer sees it: a JavaScript object,
 * kept as its own-property list in insertion order (none of the keys used by the
 * application is an array index, so Object.keys and Object.values follow that order).
 */
module Records {
  import opened Wrappers
  import opened Strings

  /** The property values that occur in rows: integers, strings and SQL NULL. */
  datatype Value = Num(n: int) | Str(s: string) | Null

  type Row = seq<(string, Value)>

  /** `Object.keys(row)`. */
  function Keys(row: Row): (ks: seq<string>)
    ensures |ks| == |row| && forall k :: 0 <= k < |row| ==> ks[k] == row[k].0
  {
    if row == [] then [] else [row[0].0] + Keys(row[1..])
  }

  /** `Object.values(row)`. */
  function Values(row: Row): (vs: seq<Value>)
    ensures |vs| == |row| && forall k :: 0 <= k < |row| ==> vs[k] == row[k].1
  {
    seq(|row|, k requires 0 <= k < |row| => row[k].1)
  }

  /** `row[key]`, None standing for `undefined`. */
  function Lookup(row: Row, key: string): (r: Option<Value>)
    ensures r.None? <==> key !in Keys(row)
  {
    if row == [] then None
    else if row[0].0 == key then Some(row[0].1)
    else Lookup(row[1..], key)
  }

  /** `row[key] = v`: an existing property keeps its place, a new one is appended. */
  function Assign(row: Row, key: string, v: Value): (r: Row)
    ensures Lookup(r, key) == Some(v)
    ensures key in Keys(row) ==> Keys(r) == Keys(row)
    ensures key !in Keys(row) ==> Keys(r) == Keys(row) + [key]
  {
    if row == [] then
      ConsFacts((key, v), [], key);
      [(key, v)]
    else
      assert row == [row[0]] + row[1..];
      ConsFacts(row[0], row[1..], key);
      if row[0].0 == key then
        ConsFacts((key, v), row[1..], key);
        assert Keys(row)[0] == key;
        [(key, v)] + row[1..]
      else
        var tail := Assign(row[1..], key, v);
        ConsFacts(row[0], tail, key);
        assert key in Keys(row) <==> key in Keys(row[1..]);
        [row[0]] + tail
  }

  /** Assigning one property leaves every other property as it was. */
  lemma AssignKeepsOthers(row: Row, key: string, v: Value)
    ensures forall other :: other != key ==> Lookup(Assign(row, key, v), other) == Lookup(row, other)
  {
    forall other | other != key
      ensures Lookup(Assign(row, key, v), other) == Lookup(row, other)
    {
      AssignKeepsOther(row, key, v, other);
    }
  }

  lemma {:induction false} AssignKeepsOther(row: Row, key: string, v: Value, other: string)
    requires other != key
    ensures Lookup(Assign(row, key, v), other) == Lookup(row, other)
  {
    if row != [] {
      assert row == [row[0]] + row[1..];
      ConsFacts(row[0], row[1..], other);
      if row[0].0 == key {
        ConsFacts((key, v), row[1..], other);
      } else {
        AssignKeepsOther(row[1..], key, v, other);
        ConsFacts(row[0], Assign(row[1..], key, v), other);
      }
    } else {
      ConsFacts((key, v), [], other);
    }
  }

  /** Keys and lookups of a row given by its first property and the rest. */
  lemma ConsFacts(p: (string, Value), rest: Row, key: string)
    ensures Keys([p] + rest) == [p.0] + Keys(rest)
    ensures Lookup([p] + rest, key) == if p.0 == key then Some(p.1) else Lookup(rest, key)
  {
    assert ([p] + rest)[1..] == rest;
  }

  /** `String(v)`. */
  function ValueToString(v: Value): string {
    match v
    case Num(n) => IntToString(n)
    case Str(s) => s
    case Null => "null"
  }

  /** How Array.prototype.join prints one element: null and undefined print as nothing. */
  function JoinElement(v: Value): string {
    match v
    case Null => ""
    case _ => ValueToString(v)
  }

  /** `values.join(sep)` on row values. */
  function JoinValues(values: seq<Value>, sep: string): (r: string)
    ensures r == Join(seq(|values|, k requires 0 <= k < |values| => JoinElement(values[k])), sep)
  {
    if values == [] then ""
    else if |values| == 1 then JoinElement(values[0])
    else
      var rest := JoinValues(values[1..], sep);
      assert seq(|values| - 1, k requires 0 <= k < |values| - 1 => JoinElement(values[1..][k]))
          == seq(|values|, k requires 0 <= k < |values| => JoinElement(values[k]))[1..];
      JoinElement(values[0]) + sep + rest
  }
}
