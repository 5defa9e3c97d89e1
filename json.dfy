/** JSON(-LD) documents as exchanged with the remote connector: a value tree
    whose objects keep their fields in insertion order, as JavaScript does.
    Documents are taken to have no duplicate keys in an object: `Lookup`
    reads the first field of a name, where a parsed document would keep the
    last. */
module Json {
  import opened Wrappers

  datatype Json =
    | Null
    | Bool(b: bool)
    | Num(n: int)
    | Str(s: string)
    | Arr(items: seq<Json>)
    | Obj(fields: seq<(string, Json)>)

  type Fields = seq<(string, Json)>

  /** One step of a property path: `o['key']` or `a[i]`. */
  datatype Step = Key(key: string) | Index(i: nat)

  /** The keys of an object, in order. */
  function Keys(fields: Fields): (ks: seq<string>)
    ensures |ks| == |fields|
    ensures forall i :: 0 <= i < |fields| ==> ks[i] == fields[i].0
  {
    if fields == [] then [] else [fields[0].0] + Keys(fields[1..])
  }

  /** `o[key]`: the value of the first field named `key`. */
  function Lookup(fields: Fields, key: string): (r: Option<Json>)
  {
    if fields == [] then None
    else if fields[0].0 == key then Some(fields[0].1)
    else Lookup(fields[1..], key)
  }

  /** The first field named `key`, at position `i`, gives `o[key]`. */
  lemma {:induction false} LookupAt(fields: Fields, key: string, i: nat)
    requires i < |fields| && fields[i].0 == key
    requires forall j :: 0 <= j < i ==> fields[j].0 != key
    ensures Lookup(fields, key) == Some(fields[i].1)
  {
    if i > 0 {
      assert fields[1..][i - 1] == fields[i];
      LookupAt(fields[1..], key, i - 1);
    }
  }

  /** An object without a field named `key` reads `undefined` there. */
  lemma {:induction false} LookupMissing(fields: Fields, key: string)
    requires forall j :: 0 <= j < |fields| ==> fields[j].0 != key
    ensures Lookup(fields, key) == None
  {
    if fields != [] {
      LookupMissing(fields[1..], key);
    }
  }

  /** Every field named `key` gets the value `v`. */
  function Overwrite(fields: Fields, key: string, v: Json): (r: Fields)
    ensures Keys(r) == Keys(fields)
    ensures forall i :: 0 <= i < |fields| ==>
      r[i] == if fields[i].0 == key then (key, v) else fields[i]
  {
    if fields == [] then []
    else [if fields[0].0 == key then (key, v) else fields[0]] + Overwrite(fields[1..], key, v)
  }

  lemma {:induction false} LookupOverwrite(fields: Fields, key: string, v: Json, k: string)
    ensures Lookup(Overwrite(fields, key, v), k) ==
            if k == key && key in Keys(fields) then Some(v) else Lookup(fields, k)
  {
    if fields != [] {
      var r := Overwrite(fields, key, v);
      assert r[1..] == Overwrite(fields[1..], key, v);
      assert Keys(fields) == [fields[0].0] + Keys(fields[1..]);
      LookupOverwrite(fields[1..], key, v, k);
    }
  }

  lemma {:induction false} LookupAppend(fields: Fields, key: string, v: Json, k: string)
    requires key !in Keys(fields)
    ensures Lookup(fields + [(key, v)], k) == if k == key then Some(v) else Lookup(fields, k)
  {
    if fields != [] {
      assert (fields + [(key, v)])[1..] == fields[1..] + [(key, v)];
      assert Keys(fields) == [fields[0].0] + Keys(fields[1..]);
      LookupAppend(fields[1..], key, v, k);
    }
  }

  /** The JavaScript assignment `o[key] = v`: an existing field keeps its
      place and takes the new value; a new field goes at the end. */
  function SetField(fields: Fields, key: string, v: Json): (r: Fields)
    ensures Lookup(r, key) == Some(v)
    ensures forall k :: k != key ==> Lookup(r, k) == Lookup(fields, k)
    ensures Keys(r) == if key in Keys(fields) then Keys(fields) else Keys(fields) + [key]
  {
    if key in Keys(fields) then
      var r := Overwrite(fields, key, v);
      LookupOverwrite(fields, key, v, key);
      forall k | k != key ensures Lookup(r, k) == Lookup(fields, k) {
        LookupOverwrite(fields, key, v, k);
      }
      r
    else
      var r := fields + [(key, v)];
      LookupAppend(fields, key, v, key);
      forall k | k != key ensures Lookup(r, k) == Lookup(fields, k) {
        LookupAppend(fields, key, v, k);
      }
      assert Keys(r) == Keys(fields) + [key];
      r
  }

  /** One property read; None where JavaScript would read `undefined` or throw. */
  function Follow(j: Json, s: Step): Option<Json> {
    match s
    case Key(k) => if j.Obj? then Lookup(j.fields, k) else None
    case Index(i) => if j.Arr? && i < |j.items| then Some(j.items[i]) else None
  }

  /** The value at the end of a property path. */
  function At(j: Json, path: seq<Step>): Option<Json>
    decreases |path|
  {
    if path == [] then Some(j)
    else
      match Follow(j, path[0])
      case None => None
      case Some(c) => At(c, path[1..])
  }

  /** A one-step path is a single read. */
  lemma AtOne(j: Json, s: Step)
    ensures At(j, [s]) == Follow(j, s)
  {
    assert [s][1..] == [];
  }

  /** Reading a two-step path `o[k1][k2]`. */
  lemma AtTwoKeys(j: Json, k1: string, k2: string)
    ensures At(j, [Key(k1), Key(k2)]) ==
            match Follow(j, Key(k1)) case None => None case Some(c) => Follow(c, Key(k2))
  {
    assert [Key(k1), Key(k2)][1..] == [Key(k2)];
    match Follow(j, Key(k1))
    case None =>
    case Some(c) => AtOne(c, Key(k2));
  }

  /** The string at the end of a path. */
  function TextAt(j: Json, path: seq<Step>): (r: Option<string>)
  {
    match At(j, path)
    case Some(Str(s)) => Some(s)
    case _ => None
  }

  /** The elements of the array at the end of a path. */
  function ItemsAt(j: Json, path: seq<Step>): (r: Option<seq<Json>>)
  {
    match At(j, path)
    case Some(Arr(items)) => Some(items)
    case _ => None
  }
}
