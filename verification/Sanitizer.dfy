/** Stripping operator, dotted and prototype keys from a request body (src/shared/utils/sanitizer.ts). */
module Sanitizer {
  import opened Wrappers
  import Signature

  datatype Field = Field(key: string, value: Json)

  /** A finite JSON tree; an object lists its own fields in enumeration order. */
  datatype Json =
    | Null
    | Boolean(flag: bool)
    | Number(repr: string)
    | Text(text: string)
    | Array(elements: seq<Json>)
    | Object(fields: seq<Field>)

  predicate Prohibited(key: string) {
    Signature.IsPrototypeKey(key) || (key != "" && key[0] == '$') || '.' in key
  }

  function Clean(t: Json): Json
    decreases t
  {
    match t
    case Array(elements) => Array(seq(|elements|, i requires 0 <= i < |elements| => Clean(elements[i])))
    case Object(fields) => Object(CleanFields(fields))
    case _ => t
  }

  function CleanFields(fields: seq<Field>): seq<Field>
    decreases fields
  {
    if fields == [] then []
    else
      var last := fields[|fields| - 1];
      CleanFields(fields[..|fields| - 1]) + if Prohibited(last.key) then [] else [Field(last.key, Clean(last.value))]
  }

  /** `sanitize`: array slots and fields are reassigned where they stand, offending fields deleted. */
  method Sanitize(target: Json) returns (r: Json)
    ensures r == Clean(target)
    decreases target, 0
  {
    match target
    case Array(elements) =>
      var slots := SanitizeSlots(elements);
      r := Array(slots);
    case Object(fields) =>
      var obj := SanitizeFields(fields);
      r := Object(obj);
    case _ => r := target;
  }

  method SanitizeSlots(elements: seq<Json>) returns (slots: seq<Json>)
    ensures |slots| == |elements| && forall k :: 0 <= k < |slots| ==> slots[k] == Clean(elements[k])
    decreases elements, 1
  {
    slots := elements;
    var i := 0;
    while i < |slots|
      invariant 0 <= i <= |slots| == |elements|
      invariant forall k :: 0 <= k < i ==> slots[k] == Clean(elements[k])
      invariant forall k :: i <= k < |slots| ==> slots[k] == elements[k]
    {
      var slot := Sanitize(elements[i]);
      slots := slots[i := slot];
      i := i + 1;
    }
  }

  /** `at` is where the field under inspection stands after the deletions so far. */
  method SanitizeFields(fields: seq<Field>) returns (obj: seq<Field>)
    ensures obj == CleanFields(fields)
    decreases fields, 1
  {
    obj := fields;
    var i, at := 0, 0;
    while i < |fields|
      invariant 0 <= i <= |fields| && at <= |obj|
      invariant obj[..at] == CleanFields(fields[..i])
      invariant obj[at..] == fields[i..]
    {
      assert fields[..i + 1][..i] == fields[..i];
      assert obj[at] == obj[at..][0] == fields[i];
      if Prohibited(fields[i].key) {
        obj := DeleteAt(obj, at);
      } else {
        var value := Sanitize(fields[i].value);
        obj := ReplaceAt(obj, at, Field(fields[i].key, value));
        at := at + 1;
      }
      i := i + 1;
    }
    assert fields[..i] == fields;
  }

  function DeleteAt(obj: seq<Field>, at: nat): (r: seq<Field>)
    requires at < |obj|
    ensures |r| == |obj| - 1 && r[..at] == obj[..at] && r[at..] == obj[at..][1..]
  {
    obj[..at] + obj[at + 1..]
  }

  function ReplaceAt(obj: seq<Field>, at: nat, f: Field): (r: seq<Field>)
    requires at < |obj|
    ensures |r| == |obj| && r[..at + 1] == obj[..at] + [f] && r[at + 1..] == obj[at..][1..]
  {
    obj[at := f]
  }

  // ----- paths

  datatype Hop = Key(key: string) | Index(index: nat)

  function Lookup(fields: seq<Field>, key: string): Option<Json> {
    if fields == [] then None
    else if fields[0].key == key then Some(fields[0].value)
    else Lookup(fields[1..], key)
  }

  function Child(t: Json, hop: Hop): Option<Json> {
    match (t, hop)
    case (Array(elements), Index(i)) => if i < |elements| then Some(elements[i]) else None
    case (Object(fields), Key(k)) => Lookup(fields, k)
    case _ => None
  }

  /** What stands at the end of a path, if the path exists. */
  function Get(t: Json, path: seq<Hop>): Option<Json>
    decreases |path|
  {
    if path == [] then Some(t)
    else
      match Child(t, path[0])
      case None => None
      case Some(c) => Get(c, path[1..])
  }

  /** A key that may stay: none of the three that reach an object's prototype, no dollar in front, no dot anywhere. */
  predicate PlainKey(key: string) {
    && key !in {"__proto__", "constructor", "prototype"}
    && (|key| > 0 ==> key[0] != '$')
    && (forall i :: 0 <= i < |key| ==> key[i] != '.')
  }

  lemma ProhibitedIff(key: string)
    ensures Prohibited(key) <==> !PlainKey(key)
  {
  }

  predicate CleanPath(path: seq<Hop>) {
    forall i :: 0 <= i < |path| ==> path[i].Key? ==> PlainKey(path[i].key)
  }

  /** Exactly the clean paths survive, each ending in the cleaned form of what it ended in. */
  lemma {:induction false} KeepsExactlyCleanPaths(t: Json, path: seq<Hop>)
    ensures Get(Clean(t), path) ==
      match Get(t, path)
      case Some(end) => if CleanPath(path) then Some(Clean(end)) else None
      case None => None
    decreases |path|
  {
    if path == [] {
    } else {
      CleanChild(t, path[0]);
      assert CleanPath(path) <==> (path[0].Key? ==> PlainKey(path[0].key)) && CleanPath(path[1..]);
      if Child(t, path[0]).Some? {
        KeepsExactlyCleanPaths(Child(t, path[0]).value, path[1..]);
      }
    }
  }

  lemma CleanChild(t: Json, hop: Hop)
    ensures Child(Clean(t), hop) ==
      match Child(t, hop)
      case Some(c) => if hop.Key? && !PlainKey(hop.key) then None else Some(Clean(c))
      case None => None
  {
    if hop.Key? {
      ProhibitedIff(hop.key);
    }
    if t.Object? && hop.Key? {
      CleanLookup(t.fields, hop.key);
    }
  }

  lemma {:induction false} CleanLookup(fields: seq<Field>, key: string)
    ensures Lookup(CleanFields(fields), key) ==
      match Lookup(fields, key)
      case Some(c) => if Prohibited(key) then None else Some(Clean(c))
      case None => None
  {
    if fields == [] {
    } else {
      var front, last := fields[..|fields| - 1], fields[|fields| - 1];
      CleanLookup(front, key);
      assert fields == front + [last];
      LookupAppend(front, last, key);
      if Prohibited(last.key) {
        assert CleanFields(fields) == CleanFields(front);
      } else {
        LookupAppend(CleanFields(front), Field(last.key, Clean(last.value)), key);
      }
    }
  }

  lemma {:induction false} LookupAppend(front: seq<Field>, last: Field, key: string)
    ensures Lookup(front + [last], key)
         == if Lookup(front, key).Some? then Lookup(front, key) else if last.key == key then Some(last.value) else None
  {
    if front == [] {
    } else {
      assert (front + [last])[1..] == front[1..] + [last];
      LookupAppend(front[1..], last, key);
    }
  }

  /** A leaf survives unchanged exactly when its path is clean, and every array on a clean path keeps its length. */
  lemma LeavesAndLengths(t: Json, path: seq<Hop>)
    requires Get(t, path).Some?
    ensures Get(Clean(t), path).Some? <==> CleanPath(path)
    ensures var end := Get(t, path).value;
      CleanPath(path) ==>
        && (!end.Array? && !end.Object? ==> Get(Clean(t), path).value == end)
        && (end.Array? ==> var kept := Get(Clean(t), path).value;
              kept.Array? && |kept.elements| == |end.elements|)
  {
    KeepsExactlyCleanPaths(t, path);
  }

  // ----- clean trees

  predicate IsClean(t: Json)
    decreases t
  {
    match t
    case Array(elements) => forall i :: 0 <= i < |elements| ==> IsClean(elements[i])
    case Object(fields) => forall i :: 0 <= i < |fields| ==> PlainKey(fields[i].key) && IsClean(fields[i].value)
    case _ => true
  }

  /** The result is clean, and the trees left alone are exactly the clean ones; so a second pass does nothing. */
  lemma IdentityExactlyOnClean(t: Json)
    ensures IsClean(Clean(t))
    ensures Clean(t) == t <==> IsClean(t)
    ensures Clean(Clean(t)) == Clean(t)
  {
    ResultIsClean(t);
    CleanIsFixed(Clean(t));
    if IsClean(t) {
      CleanIsFixed(t);
    }
  }

  lemma {:induction false} ResultIsClean(t: Json)
    ensures IsClean(Clean(t))
    decreases t
  {
    match t
    case Array(elements) =>
      forall i | 0 <= i < |elements|
        ensures IsClean(Clean(elements[i]))
      {
        ResultIsClean(elements[i]);
      }
    case Object(fields) => FieldsAreClean(fields);
    case _ =>
  }

  lemma {:induction false} FieldsAreClean(fields: seq<Field>)
    ensures IsClean(Object(CleanFields(fields)))
    decreases fields
  {
    if fields == [] {
    } else {
      var front, last := fields[..|fields| - 1], fields[|fields| - 1];
      FieldsAreClean(front);
      ResultIsClean(last.value);
      ProhibitedIff(last.key);
    }
  }

  lemma {:induction false} CleanIsFixed(t: Json)
    requires IsClean(t)
    ensures Clean(t) == t
    decreases t
  {
    match t
    case Array(elements) =>
      forall i | 0 <= i < |elements|
        ensures Clean(elements[i]) == elements[i]
      {
        CleanIsFixed(elements[i]);
      }
      assert Clean(t).elements == elements;
    case Object(fields) => CleanFieldsFixed(fields);
    case _ =>
  }

  lemma {:induction false} CleanFieldsFixed(fields: seq<Field>)
    requires forall i :: 0 <= i < |fields| ==> PlainKey(fields[i].key) && IsClean(fields[i].value)
    ensures CleanFields(fields) == fields
    decreases fields
  {
    if fields == [] {
    } else {
      var front, last := fields[..|fields| - 1], fields[|fields| - 1];
      CleanFieldsFixed(front);
      CleanIsFixed(last.value);
      ProhibitedIff(last.key);
      assert fields == front + [last];
    }
  }
}
