/**
 The order in which Mongo sorts field values ascending (`.sort({ name: 1 })`):
 values of different BSON types by a fixed type rank, numbers by value,
 strings by code point, booleans false before true.
 */
module BsonOrder {
  import opened Wire

  /** Lexicographic order on strings, character by character. */
  predicate StrLe(a: string, b: string)
    decreases |a|
  {
    if a == [] then true
    else if b == [] then false
    else a[0] < b[0] || (a[0] == b[0] && StrLe(a[1..], b[1..]))
  }

  lemma {:induction false} StrLeTotal(a: string, b: string)
    ensures StrLe(a, b) || StrLe(b, a)
    decreases |a|
  {
    if a != [] && b != [] && a[0] == b[0] {
      StrLeTotal(a[1..], b[1..]);
    }
  }

  lemma {:induction false} StrLeTransitive(a: string, b: string, c: string)
    requires StrLe(a, b) && StrLe(b, c)
    ensures StrLe(a, c)
    decreases |a|
  {
    if a != [] && b != [] && c != [] && a[0] == b[0] == c[0] {
      StrLeTransitive(a[1..], b[1..], c[1..]);
    }
  }

  /** Position of a value's BSON type in Mongo's comparison order
      (null, numbers, strings, objects, arrays, booleans). */
  function TypeRank(v: Json): nat {
    match v
    case Undefined => 0
    case Null => 0
    case Num(_) => 1
    case Str(_) => 2
    case Obj => 3
    case Arr(_) => 4
    case Bool(_) => 5
  }

  /** `a` sorts no later than `b` in an ascending sort. */
  predicate JsonLe(a: Json, b: Json) {
    if TypeRank(a) != TypeRank(b) then TypeRank(a) < TypeRank(b)
    else match (a, b)
      case (Num(x), Num(y)) => x <= y
      case (Str(x), Str(y)) => StrLe(x, y)
      case (Bool(x), Bool(y)) => !x || y
      case _ => true
  }

  lemma JsonLeTotal(a: Json, b: Json)
    ensures JsonLe(a, b) || JsonLe(b, a)
  {
    if a.Str? && b.Str? {
      StrLeTotal(a.s, b.s);
    }
  }

  lemma JsonLeTransitive(a: Json, b: Json, c: Json)
    requires JsonLe(a, b) && JsonLe(b, c)
    ensures JsonLe(a, c)
  {
    if a.Str? && b.Str? && c.Str? {
      StrLeTransitive(a.s, b.s, c.s);
    }
  }
}
