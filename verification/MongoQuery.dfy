/** JSON documents and the part of the MongoDB query language that the bucket filters use. */
module MongoQuery {
  import opened Options

  datatype Json =
    | Null
    | Bool(value: bool)
    | Num(number: int)
    | Str(text: string)
    | Arr(items: seq<Json>)
    | Obj(fields: map<string, Json>)

  /** A property of a value; only objects have some. */
  function Get(v: Json, name: string): Option<Json> {
    if v.Obj? && name in v.fields then Some(v.fields[name]) else None
  }

  /** A condition on a path, or several queries combined. */
  datatype Query =
    | At(path: seq<string>, cond: Cond)
    | And(all: seq<Query>)
    | Or(any: seq<Query>)

  /** `HasTypeObject` is the `$type` condition for embedded documents. */
  datatype Cond =
    | Equals(expected: Json)
    | In(options: seq<Json>)
    | ElemMatch(query: Query)
    | HasTypeObject

  predicate Matches(doc: Json, q: Query)
    decreases q, 0, doc, 2
  {
    match q
    case At(path, cond) => MatchesPath(doc, path, cond)
    case And(qs) => forall i :: 0 <= i < |qs| ==> Matches(doc, qs[i])
    case Or(qs) => exists i :: 0 <= i < |qs| && Matches(doc, qs[i])
  }

  /** A path goes through objects by property, and through the documents of an array on its way. */
  predicate MatchesPath(v: Json, path: seq<string>, cond: Cond)
    decreases cond, |path|, v, 1
  {
    if path == [] then MatchesValue(v, cond)
    else if v.Obj? then path[0] in v.fields && MatchesPath(v.fields[path[0]], path[1..], cond)
    else v.Arr? && exists i :: 0 <= i < |v.items| && v.items[i].Obj? && MatchesPath(v.items[i], path, cond)
  }

  /** An array also matches a condition on plain values when one of its items does. */
  predicate MatchesValue(v: Json, cond: Cond)
    decreases cond, 0, v, 0
  {
    match cond
    case Equals(x) => v == x || (v.Arr? && x in v.items)
    case In(xs) => v in xs || (v.Arr? && exists i :: 0 <= i < |v.items| && v.items[i] in xs)
    case ElemMatch(q) => v.Arr? && exists i :: 0 <= i < |v.items| && v.items[i].Obj? && Matches(v.items[i], q)
    case HasTypeObject => v.Obj? || (v.Arr? && exists i :: 0 <= i < |v.items| && v.items[i].Obj?)
  }

  /** The result of a predicate written in JavaScript, which throws on a property of a missing value. */
  datatype Outcome = Returned(value: bool) | Throws

  /** `Array.prototype.some`: it stops at the first item that satisfies the test, or throws. */
  function SomeItem(items: seq<Json>, test: Json -> Outcome): Outcome {
    if items == [] then Returned(false)
    else
      match test(items[0])
      case Throws => Throws
      case Returned(true) => Returned(true)
      case Returned(false) => SomeItem(items[1..], test)
  }

  /** Calling `some` on a property, which throws unless it is an array. */
  function SomeOf(v: Option<Json>, test: Json -> Outcome): Outcome {
    if v.Some? && v.value.Arr? then SomeItem(v.value.items, test) else Throws
  }

  /** When no test throws, `some` tells whether one item satisfies it. */
  lemma {:induction false} SomeItemIs(items: seq<Json>, test: Json -> Outcome)
    requires forall i :: 0 <= i < |items| ==> test(items[i]).Returned?
    ensures SomeItem(items, test) == Returned(exists i :: 0 <= i < |items| && test(items[i]) == Returned(true))
  {
    if items != [] {
      SomeItemIs(items[1..], test);
      if test(items[0]) == Returned(false) && exists i :: 0 <= i < |items| && test(items[i]) == Returned(true) {
        var i :| 0 <= i < |items| && test(items[i]) == Returned(true);
        assert items[1..][i - 1] == items[i];
      }
    }
  }

  /** The first item on which the test does not say no. */
  predicate FirstNot(items: seq<Json>, test: Json -> Outcome, k: nat) {
    k < |items| && test(items[k]) != Returned(false) && forall i :: 0 <= i < k ==> test(items[i]) == Returned(false)
  }

  /** The first item on which the test does not say no decides, by what the test does there. */
  lemma {:induction false} FirstDecides(items: seq<Json>, test: Json -> Outcome)
    ensures forall k: nat :: FirstNot(items, test, k) ==> SomeItem(items, test) == test(items[k])
    ensures SomeItem(items, test) == Returned(false) <==>
            forall i :: 0 <= i < |items| ==> test(items[i]) == Returned(false)
    ensures SomeItem(items, test) != Returned(false) ==> exists k: nat :: FirstNot(items, test, k)
  {
    if items != [] {
      var rest := items[1..];
      FirstDecides(rest, test);
      if test(items[0]) != Returned(false) {
        assert FirstNot(items, test, 0);
      } else {
        forall k: nat ensures FirstNot(items, test, k) <==> k > 0 && FirstNot(rest, test, k - 1) {
          assert forall i :: 0 < i < |items| ==> items[i] == rest[i - 1];
          assert forall i :: 0 <= i < |rest| ==> rest[i] == items[i + 1];
        }
        if k: nat :| FirstNot(rest, test, k) {
          assert FirstNot(items, test, k + 1);
        }
      }
    }
  }

  /** A test that throws is reached, and makes `some` throw, when no item before it satisfies or throws. */
  lemma {:induction false} SomeItemThrows(items: seq<Json>, test: Json -> Outcome, k: nat)
    requires k < |items| && test(items[k]) == Throws && forall i :: 0 <= i < k ==> test(items[i]) == Returned(false)
    ensures SomeItem(items, test) == Throws
  {
    if k > 0 {
      SomeItemThrows(items[1..], test, k - 1);
    }
  }
}
