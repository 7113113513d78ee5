/** The usual optional-value datatype. */
module Wrappers {

  datatype Option<+T> = None | Some(value: T)
}

/**
 Values as they cross the HTTP boundary between the browser client and the
 server: JSON request fields with JavaScript truthiness, Mongo object ids and
 the shapes an `_id` can take once serialized.
 */
module Wire {
  import opened Wrappers

  /** A JSON value as a route handler reads it from a request body;
      `Undefined` stands for a field that is absent. Numbers are integers. */
  datatype Json =
    | Undefined
    | Null
    | Bool(b: bool)
    | Num(n: int)
    | Str(s: string)
    | Arr(items: seq<Json>)
    | Obj

  /** JavaScript truthiness of a value (`!!v`). */
  predicate Truthy(v: Json) {
    match v
    case Undefined => false
    case Null => false
    case Bool(b) => b
    case Num(n) => n != 0
    case Str(s) => s != ""
    case Arr(_) => true
    case Obj => true
  }

  /** A Mongo ObjectId, identified by its hexadecimal text. */
  datatype ObjectId = ObjectId(hex: string)

  /** The text a driver ObjectId prints: 24 lower-case hexadecimal digits. */
  predicate WellFormedId(o: ObjectId) {
    |o.hex| == 24 && forall i :: 0 <= i < |o.hex| ==> o.hex[i] in "0123456789abcdef"
  }

  /** The forms an `_id` or `groupId` takes: null/undefined, a plain string,
      a driver ObjectId, or the extended-JSON object `{ $oid: "..." }`. */
  datatype IdValue =
    | Missing
    | Text(s: string)
    | Native(oid: ObjectId)
    | Extended(dollarOid: string)

  /** `p` is a prefix of `s`. */
  predicate IsPrefix(p: string, s: string) {
    |p| <= |s| && s[..|p|] == p
  }

  /** JavaScript `s.includes(t)`. */
  predicate Contains(s: string, t: string)
    decreases |s|
  {
    IsPrefix(t, s) || (s != [] && Contains(s[1..], t))
  }

  /** An occurrence of `t` at position `i` of `s` makes `Contains` hold;
      `ContainsOccurrence` gives the converse. */
  lemma {:induction false} ContainsAt(s: string, t: string, i: nat)
    requires i + |t| <= |s| && s[i..i + |t|] == t
    ensures Contains(s, t)
    decreases i
  {
    if i == 0 {
      assert s[..|t|] == t;
    } else {
      assert s[1..][i - 1..i - 1 + |t|] == s[i..i + |t|];
      ContainsAt(s[1..], t, i - 1);
    }
  }

  /** When `Contains` holds, `t` occurs at some position `i` of `s`. */
  lemma {:induction false} ContainsOccurrence(s: string, t: string) returns (i: nat)
    requires Contains(s, t)
    ensures i + |t| <= |s| && s[i..i + |t|] == t
    decreases |s|
  {
    if IsPrefix(t, s) {
      i := 0;
    } else {
      var j := ContainsOccurrence(s[1..], t);
      assert s[1..][j..j + |t|] == s[j + 1..j + 1 + |t|];
      i := j + 1;
    }
  }

  /** `t` occurs in `s` starting at position `i`. */
  predicate OccursAt(s: string, t: string, i: nat) {
    i + |t| <= |s| && s[i..i + |t|] == t
  }

  /** `s.includes(t)` holds exactly when `t` occurs at some position of `s`. */
  lemma ContainsMeaning(s: string, t: string)
    ensures Contains(s, t) <==> exists i: nat :: OccursAt(s, t, i)
  {
    forall i: nat | OccursAt(s, t, i)
      ensures Contains(s, t)
    {
      ContainsAt(s, t, i);
    }
    if Contains(s, t) {
      var i := ContainsOccurrence(s, t);
      assert OccursAt(s, t, i);
    }
  }
}
