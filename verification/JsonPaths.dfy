/** Parsed JSON documents, and reading and writing them at a path of object keys. */
module JsonPaths {
  import opened Options

  datatype Json = Null | Bool(b: bool) | Num(n: real) | Str(s: string) | Arr(items: seq<Json>) | Obj(fields: Fields)

  type Fields = map<string, Json>

  type Path = p: seq<string> | p != [] witness ["key"]

  /** The object at a key; an absent or other value counts as an empty object. */
  function Child(fields: Fields, key: string): Fields {
    if key in fields && fields[key].Obj? then fields[key].fields else map[]
  }

  function Get(fields: Fields, path: Path): Option<Json>
    decreases |path|
  {
    if path[0] !in fields then None
    else if |path| == 1 then Some(fields[path[0]])
    else if fields[path[0]].Obj? then Get(fields[path[0]].fields, path[1..])
    else None
  }

  /** Writes a value, making an object of every ancestor that is not one. */
  function Put(fields: Fields, path: Path, value: Json): Fields
    decreases |path|
  {
    if |path| == 1 then fields[path[0] := value]
    else fields[path[0] := Obj(Put(Child(fields, path[0]), path[1..], value))]
  }

  /** Neither path leads through the other. */
  predicate Apart(p: seq<string>, q: seq<string>) {
    p != [] && q != [] && (p[0] != q[0] || Apart(p[1..], q[1..]))
  }

  lemma {:induction false} ApartSym(p: seq<string>, q: seq<string>)
    requires Apart(p, q)
    ensures Apart(q, p)
  {
    if p[0] == q[0] {
      ApartSym(p[1..], q[1..]);
    }
  }

  /** What was written is read back. */
  lemma {:induction false} GetPut(fields: Fields, path: Path, value: Json)
    ensures Get(Put(fields, path, value), path) == Some(value)
    decreases |path|
  {
    if |path| > 1 {
      GetPut(Child(fields, path[0]), path[1..], value);
    }
  }

  /** Writing what is already there changes nothing. */
  lemma {:induction false} PutGet(fields: Fields, path: Path, value: Json)
    requires Get(fields, path) == Some(value)
    ensures Put(fields, path, value) == fields
    decreases |path|
  {
    if |path| > 1 {
      PutGet(fields[path[0]].fields, path[1..], value);
    }
  }

  /** Nothing else is touched, even where ancestors had to be made. */
  lemma {:induction false} GetPutApart(fields: Fields, path: Path, value: Json, other: Path)
    requires Apart(path, other)
    ensures Get(Put(fields, path, value), other) == Get(fields, other)
    decreases |path|
  {
    if path[0] == other[0] {
      GetPutApart(Child(fields, path[0]), path[1..], value, other[1..]);
      if path[0] !in fields || !fields[path[0]].Obj? {
        EmptyGet(other[1..]);
      }
    }
  }

  lemma EmptyGet(path: Path)
    ensures Get(map[], path) == None
  {
  }

  lemma ChildPut(fields: Fields, p: Path, v: Json, key: string)
    ensures key != p[0] ==> Child(Put(fields, p, v), key) == Child(fields, key)
    ensures key == p[0] && |p| > 1 ==> Child(Put(fields, p, v), key) == Put(Child(fields, key), p[1..], v)
  {
  }

  /** What Put stores at the head of the path. */
  function Stored(child: Fields, path: Path, value: Json): Json {
    if |path| == 1 then value else Obj(Put(child, path[1..], value))
  }

  lemma PutIsUpdate(fields: Fields, path: Path, value: Json)
    ensures Put(fields, path, value) == fields[path[0] := Stored(Child(fields, path[0]), path, value)]
  {
  }

  /** Writes at paths apart commute. */
  lemma {:induction false} PutPutApart(fields: Fields, p: Path, v: Json, q: Path, w: Json)
    requires Apart(p, q)
    ensures Put(Put(fields, p, v), q, w) == Put(Put(fields, q, w), p, v)
    decreases |p|
  {
    hide Put, Child;
    PutIsUpdate(fields, p, v);
    PutIsUpdate(fields, q, w);
    PutIsUpdate(Put(fields, p, v), q, w);
    PutIsUpdate(Put(fields, q, w), p, v);
    ChildPut(fields, p, v, q[0]);
    ChildPut(fields, q, w, p[0]);
    if p[0] == q[0] {
      PutPutApart(Child(fields, p[0]), p[1..], v, q[1..], w);
    }
  }

  /** The last write at a path wins. */
  lemma {:induction false} PutPut(fields: Fields, p: Path, v: Json, w: Json)
    ensures Put(Put(fields, p, v), p, w) == Put(fields, p, w)
    decreases |p|
  {
    if |p| > 1 {
      PutPut(Child(fields, p[0]), p[1..], v, w);
    }
  }

  /** The document once there is an object at the path. */
  function WithObject(fields: Fields, path: Path): Fields {
    match Get(fields, path)
    case Some(Obj(_)) => fields
    case _ => Put(fields, path, Obj(map[]))
  }

  lemma WithObjectStep(fields: Fields, path: Path)
    requires |path| > 1
    ensures WithObject(fields, path) == fields[path[0] := Obj(WithObject(Child(fields, path[0]), path[1..]))]
  {
    if path[0] !in fields || !fields[path[0]].Obj? {
      EmptyGet(path[1..]);
    }
  }

  lemma GetStep(fields: Fields, path: Path)
    requires |path| > 1
    ensures Get(fields, path) == Get(Child(fields, path[0]), path[1..])
    ensures Get(fields, path).Some? ==> path[0] in fields && fields[path[0]] == Obj(Child(fields, path[0]))
  {
    if path[0] !in fields || !fields[path[0]].Obj? {
      EmptyGet(path[1..]);
    }
  }

  /** Making empty objects on the way does not show further down. */
  lemma {:induction false} MadeOnTheWay(fields: Fields, path: Path, rest: Path, value: Json)
    ensures Get(WithObject(fields, path), path + rest) == Get(fields, path + rest)
    ensures Put(WithObject(fields, path), path + rest, value) == Put(fields, path + rest, value)
    ensures Get(fields, path + rest).Some? ==> WithObject(fields, path) == fields
    decreases |path|
  {
    var full := path + rest;
    var key, made := path[0], WithObject(fields, path);
    GetStep(fields, full);
    GetStep(made, full);
    PutIsUpdate(fields, full, value);
    PutIsUpdate(made, full, value);
    if |path| == 1 {
      assert full[1..] == rest;
      if Child(fields, key) == map[] {
        EmptyGet(rest);
      }
    } else {
      assert full[1..] == path[1..] + rest;
      MadeOnTheWay(Child(fields, key), path[1..], rest, value);
      WithObjectStep(fields, path);
      hide Get, Put, WithObject;
      assert Child(made, key) == WithObject(Child(fields, key), path[1..]);
    }
  }
}
