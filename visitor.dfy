/**
 * The field visitor: tracing hands each recorded field value to one of the
 * visitor's record_* methods, which inserts exactly one key, the field's
 * name, into the borrowed JSON map.
 */
module Visitor {
  import opened Wrappers
  import opened Json

  newtype i64 = x: int | -0x8000_0000_0000_0000 <= x < 0x8000_0000_0000_0000
  newtype u64 = x: int | 0 <= x < 0x1_0000_0000_0000_0000

  /**
   * The kinds of value tracing dispatches on. Errors arrive with their
   * Display text, every other debuggable value with its Debug rendering;
   * both renderings are opaque strings here.
   */
  datatype FieldValue =
    | F64Value(f: F64)
    | I64Value(i: i64)
    | U64Value(u: u64)
    | BoolValue(b: bool)
    | StrValue(s: string)
    | ErrorValue(display: string)
    | DebugValue(rendering: string)

  /** One recorded field: its name and its value. */
  datatype Field = Field(name: string, value: FieldValue)

  /** The JSON value the matching record_* method stores for a field value. */
  function ToJson(v: FieldValue): (r: Value)
    ensures IsScalar(r)
    ensures r.Null? <==> v.F64Value? && !IsFinite(v.f)
    ensures r.Number? <==> v.I64Value? || v.U64Value? || (v.F64Value? && IsFinite(v.f))
    ensures r.String? <==> v.StrValue? || v.ErrorValue? || v.DebugValue?
    ensures r.Bool? <==> v.BoolValue?
  {
    match v
    case F64Value(f) => if IsFinite(f) then Number(Float(f)) else Null
    case I64Value(i) => Number(Int(i as int))
    case U64Value(u) => Number(Int(u as int))
    case BoolValue(b) => Bool(b)
    case StrValue(s) => String(s)
    case ErrorValue(d) => String(d)
    case DebugValue(d) => String(d)
  }

  /** The names of a list of fields. */
  function Names(fs: seq<Field>): set<string> {
    if |fs| == 0 then {} else Names(fs[..|fs| - 1]) + {fs[|fs| - 1].name}
  }

  /** Reference definition of last-write-wins: the value of the last field named `k`. */
  function LastValue(fs: seq<Field>, k: string): Option<FieldValue> {
    if |fs| == 0 then None
    else if fs[|fs| - 1].name == k then Some(fs[|fs| - 1].value)
    else LastValue(fs[..|fs| - 1], k)
  }

  /** The map after visiting `fs` in order, starting from `m`. */
  function VisitAll(m: map<string, Value>, fs: seq<Field>): (r: map<string, Value>)
    ensures r.Keys == m.Keys + Names(fs)
    ensures Flat(m) ==> Flat(r)
  {
    if |fs| == 0 then m
    else
      var last := fs[|fs| - 1];
      VisitAll(m, fs[..|fs| - 1])[last.name := ToJson(last.value)]
  }

  /** A name is among the names iff some field carries it. */
  lemma {:induction false} NamesIff(fs: seq<Field>, k: string)
    ensures k in Names(fs) <==> exists i :: 0 <= i < |fs| && fs[i].name == k
  {
    if |fs| > 0 {
      var init := fs[..|fs| - 1];
      NamesIff(init, k);
      if k in Names(init) {
        var i :| 0 <= i < |init| && init[i].name == k;
        assert fs[i].name == k;
      }
      if exists i :: 0 <= i < |fs| && fs[i].name == k {
        var i :| 0 <= i < |fs| && fs[i].name == k;
        if i < |fs| - 1 {
          assert init[i].name == k;
        }
      }
    }
  }

  /** A last value exists exactly for the names that occur. */
  lemma {:induction false} LastValueDefined(fs: seq<Field>, k: string)
    ensures LastValue(fs, k).Some? <==> k in Names(fs)
  {
    if |fs| > 0 {
      LastValueDefined(fs[..|fs| - 1], k);
    }
  }

  /**
   * Last write wins: after visiting `fs`, a key holds the converted value of
   * the last field with that name, and a key no field names keeps its old
   * value.
   */
  lemma {:induction false} VisitAllLastWins(m: map<string, Value>, fs: seq<Field>, k: string)
    ensures k in VisitAll(m, fs) <==> k in m || LastValue(fs, k).Some?
    ensures k in VisitAll(m, fs) ==>
      VisitAll(m, fs)[k] == match LastValue(fs, k)
                            case Some(v) => ToJson(v)
                            case None => m[k]
  {
    if |fs| > 0 {
      VisitAllLastWins(m, fs[..|fs| - 1], k);
    }
  }

  /** Visiting two lists one after the other is visiting their concatenation. */
  lemma {:induction false} VisitAllConcat(m: map<string, Value>, a: seq<Field>, b: seq<Field>)
    ensures VisitAll(m, a + b) == VisitAll(VisitAll(m, a), b)
  {
    if |b| == 0 {
      assert a + b == a;
    } else {
      var init := b[..|b| - 1];
      assert (a + b)[..|a + b| - 1] == a + init;
      VisitAllConcat(m, a, init);
    }
  }

  /** Visiting one field, then another: two inserts in that order. */
  lemma VisitAllPair(m: map<string, Value>, f: Field, g: Field)
    ensures VisitAll(m, [f]) == m[f.name := ToJson(f.value)]
    ensures VisitAll(m, [f, g]) == m[f.name := ToJson(f.value)][g.name := ToJson(g.value)]
  {
    assert [f][..0] == [];
    assert [f, g][..1] == [f];
  }

  /** The visitor over a borrowed map (JsonVisitor in the source). */
  class JsonVisitor {
    var fields: map<string, Value>

    constructor (fields: map<string, Value>)
      ensures this.fields == fields
    {
      this.fields := fields;
    }

    /** A finite double becomes a JSON number; NaN and the infinities become null. */
    method RecordF64(name: string, value: F64)
      modifies this
      ensures fields == old(fields)[name := if IsFinite(value) then Number(Float(value)) else Null]
    {
      fields := fields[name := if IsFinite(value) then Number(Float(value)) else Null];
    }

    method RecordI64(name: string, value: i64)
      modifies this
      ensures fields == old(fields)[name := Number(Int(value as int))]
    {
      fields := fields[name := Number(Int(value as int))];
    }

    method RecordU64(name: string, value: u64)
      modifies this
      ensures fields == old(fields)[name := Number(Int(value as int))]
    {
      fields := fields[name := Number(Int(value as int))];
    }

    method RecordBool(name: string, value: bool)
      modifies this
      ensures fields == old(fields)[name := Bool(value)]
    {
      fields := fields[name := Bool(value)];
    }

    method RecordStr(name: string, value: string)
      modifies this
      ensures fields == old(fields)[name := String(value)]
    {
      fields := fields[name := String(value)];
    }

    /** An error is stored as the string of its Display text. */
    method RecordError(name: string, display: string)
      modifies this
      ensures fields == old(fields)[name := String(display)]
    {
      fields := fields[name := String(display)];
    }

    /** Any other value is stored as the string of its Debug rendering. */
    method RecordDebug(name: string, rendering: string)
      modifies this
      ensures fields == old(fields)[name := String(rendering)]
    {
      fields := fields[name := String(rendering)];
    }

    /** tracing's dispatch of one field to the record_* method for its kind. */
    method Record(field: Field)
      modifies this
      ensures fields == old(fields)[field.name := ToJson(field.value)]
    {
      match field.value
      case F64Value(f) => RecordF64(field.name, f);
      case I64Value(i) => RecordI64(field.name, i);
      case U64Value(u) => RecordU64(field.name, u);
      case BoolValue(b) => RecordBool(field.name, b);
      case StrValue(s) => RecordStr(field.name, s);
      case ErrorValue(d) => RecordError(field.name, d);
      case DebugValue(d) => RecordDebug(field.name, d);
    }

    /** tracing's `record(&mut visitor)`: every field of a value set, in order. */
    method Visit(values: seq<Field>)
      modifies this
      ensures fields == VisitAll(old(fields), values)
    {
      var i := 0;
      while i < |values|
        invariant 0 <= i <= |values|
        invariant fields == VisitAll(old(fields), values[..i])
      {
        Record(values[i]);
        assert values[..i + 1][..i] == values[..i];
        i := i + 1;
      }
      assert values[..|values|] == values;
    }
  }
}
