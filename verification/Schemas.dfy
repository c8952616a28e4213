/** `redaction.py`: a schema is compiled once into a plan, and the plan is then laid over the
    builtins copy of a value so that secrets never reach the audit record. */
module Schemas {
  import opened Options

  type ClassId = string

  /** What `msgspec.to_builtins` yields.  A `Dict` is a Python dict with string keys. */
  datatype Value =
    | Null
    | Atom(n: int)
    | Str(s: string)
    | List(items: seq<Value>)
    | Tuple(slots: seq<Value>)
    | Dict(m: map<string, Value>)
  {
    predicate Sequence() { List? || Tuple? }

    function Elements(): seq<Value>
      requires Sequence()
    {
      if List? then items else slots
    }
  }

  /** The `msgspec.inspect` nodes.  A struct is named, so schemas may be recursive; `ListOf`
      stands for list, set, frozenset and variable-length tuple. */
  datatype Schema =
    | Leaf
    | NoneType
    | Any
    | Metadata(secret: bool, inner: Schema)
    | Struct(cls: ClassId)
    | ListOf(item: Schema)
    | DictOf(val: Schema)
    | TupleOf(parts: seq<Schema>)
    | UnionOf(arms: seq<Schema>)

  datatype Field = Field(name: string, kind: Schema)

  /** `tag` is `Null` (Python's `None`) and `tagField` is `None` for an untagged struct; an
      `arrayLike` struct is encoded as the list of its tag, if any, and its field values. */
  datatype ClassDef = ClassDef(tagField: Option<string>, tag: Value, arrayLike: bool, fields: seq<Field>)
  {
    function Offset(): nat { if tagField.Some? then 1 else 0 }
  }

  type Env = map<ClassId, ClassDef>

  predicate Names(fields: seq<Field>, k: string) {
    exists i :: 0 <= i < |fields| && fields[i].name == k
  }

  // ---- what msgspec accepts as a schema -----------------------------------------------

  /** The node below any `Annotated` wrappers. */
  function Core(t: Schema): (c: Schema)
    ensures !c.Metadata?
  {
    if t.Metadata? then Core(t.inner) else t
  }

  predicate Secret(t: Schema) {
    t.Metadata? && (t.secret || Secret(t.inner))
  }

  predicate ArrayStruct(env: Env, t: Schema) {
    Core(t).Struct? && Core(t).cls in env && env[Core(t).cls].arrayLike
  }

  predicate ObjectLike(env: Env, t: Schema) {
    Core(t).DictOf? || (Core(t).Struct? && !ArrayStruct(env, t))
  }

  predicate ArrayLike(env: Env, t: Schema) {
    Core(t).ListOf? || Core(t).TupleOf? || ArrayStruct(env, t)
  }

  /** Structs of one union are encoded alike and have different tags under one tag field. */
  predicate DistinctTags(env: Env, c: ClassId, d: ClassId) {
    && c in env && d in env && env[c].arrayLike == env[d].arrayLike
    && env[c].tagField.Some? && env[c].tagField == env[d].tagField && env[c].tag != env[d].tag
  }

  /** The nodes of a union as msgspec sees them: below `Annotated` wrappers and nested unions. */
  function Atoms(t: Schema): seq<Schema> {
    match t
    case Metadata(_, inner) => Atoms(inner)
    case UnionOf(arms) => AtomsOf(arms)
    case _ => [t]
  }

  function AtomsOf(arms: seq<Schema>): seq<Schema> {
    if arms == [] then [] else AtomsOf(arms[..|arms| - 1]) + Atoms(arms[|arms| - 1])
  }

  /** Two nodes msgspec can tell apart: not both arrays and not both objects, unless they are
      structs with different tags. */
  predicate Discernible(env: Env, a: Schema, b: Schema) {
    if a.Struct? && b.Struct? then DistinctTags(env, a.cls, b.cls)
    else !(ArrayLike(env, a) && ArrayLike(env, b)) && !(ObjectLike(env, a) && ObjectLike(env, b))
  }

  /** Two union arms all of whose nodes msgspec can tell apart.  An arm may be wrapped in metadata,
      a struct or a union included. */
  predicate Separable(env: Env, a: Schema, b: Schema) {
    forall x, y :: x in Atoms(a) && y in Atoms(b) ==> Discernible(env, x, y)
  }

  lemma {:induction false} CoreIsAtom(t: Schema)
    ensures !Core(t).UnionOf? ==> Atoms(t) == [Core(t)]
  {
    if t.Metadata? {
      CoreIsAtom(t.inner);
    }
  }

  lemma {:induction false} StructsSeparable(env: Env, a: Schema, b: Schema)
    requires Separable(env, a, b) && Core(a).Struct? && Core(b).Struct?
    ensures DistinctTags(env, Core(a).cls, Core(b).cls)
  {
    CoreIsAtom(a);
    CoreIsAtom(b);
    assert Discernible(env, Core(a), Core(b));
  }

  predicate WfSchema(env: Env, t: Schema) {
    match t
    case Leaf | NoneType | Any => true
    case Metadata(_, inner) => WfSchema(env, inner)
    case Struct(c) => c in env
    case ListOf(item) => WfSchema(env, item)
    case DictOf(val) => WfSchema(env, val)
    case TupleOf(parts) => forall i :: 0 <= i < |parts| ==> WfSchema(env, parts[i])
    case UnionOf(arms) =>
      && (forall i :: 0 <= i < |arms| ==> WfSchema(env, arms[i]))
      && (forall i, j :: 0 <= i < j < |arms| ==> Separable(env, arms[i], arms[j]))
  }

  predicate WfClass(env: Env, d: ClassDef) {
    && (d.tagField.Some? <==> d.tag != Null)
    && (d.tagField.Some? ==> !Names(d.fields, d.tagField.value))
    && (forall i, j :: 0 <= i < j < |d.fields| ==> d.fields[i].name != d.fields[j].name)
    && (forall i :: 0 <= i < |d.fields| ==> WfSchema(env, d.fields[i].kind))
  }

  predicate WfEnv(env: Env) {
    forall c :: c in env ==> WfClass(env, env[c])
  }

  // ---- values of a schema ---------------------------------------------------------------

  predicate TagPresent(d: ClassDef, v: Value) {
    v.Dict? && (d.tagField.Some? ==> d.tagField.value in v.m && v.m[d.tagField.value] == d.tag)
  }

  /** The keys an encoded struct may have: its fields and its tag. */
  predicate OwnKey(d: ClassDef, k: string) {
    d.tagField == Some(k) || Names(d.fields, k)
  }

  /** The elements of an encoded array-like struct. */
  predicate Laid(d: ClassDef, v: Value) {
    v.Sequence() && |v.Elements()| == d.Offset() + |d.fields| && (d.tagField.Some? ==> v.Elements()[0] == d.tag)
  }

  ghost predicate Conforms(env: Env, t: Schema, v: Value)
    decreases v, t
  {
    match t
    case Leaf => v.Atom? || v.Str?
    case NoneType => v.Null?
    case Any => true
    case Metadata(_, inner) => Conforms(env, inner, v)
    case Struct(c) =>
      && c in env
      && if env[c].arrayLike then
           Laid(env[c], v) &&
           forall i :: 0 <= i < |env[c].fields| ==>
             Conforms(env, env[c].fields[i].kind, v.Elements()[env[c].Offset() + i])
         else
           && TagPresent(env[c], v) && (forall k :: k in v.m ==> OwnKey(env[c], k))
           && (forall i :: 0 <= i < |env[c].fields| ==> env[c].fields[i].name in v.m ==>
                             Conforms(env, env[c].fields[i].kind, v.m[env[c].fields[i].name]))
    case ListOf(item) =>
      v.Sequence() && forall i :: 0 <= i < |v.Elements()| ==> Conforms(env, item, v.Elements()[i])
    case DictOf(val) => v.Dict? && forall k :: k in v.m ==> Conforms(env, val, v.m[k])
    case TupleOf(parts) =>
      && v.Sequence() && |v.Elements()| == |parts|
      && forall i :: 0 <= i < |parts| ==> Conforms(env, parts[i], v.Elements()[i])
    case UnionOf(arms) => exists i :: 0 <= i < |arms| && Conforms(env, arms[i], v)
  }

  predicate SameKind(v: Value, w: Value) {
    ((v.List? && w.List?) || (v.Tuple? && w.Tuple?)) && |v.Elements()| == |w.Elements()|
  }

  /** `v` and `w` are values of schema `t` that differ only inside non-null secret positions. */
  ghost predicate Agree(env: Env, t: Schema, v: Value, w: Value)
    decreases v, t
  {
    match t
    case Leaf | NoneType | Any => v == w && Conforms(env, t, v)
    case Metadata(secret, inner) =>
      if secret then
        Conforms(env, inner, v) && Conforms(env, inner, w) && (v.Null? <==> w.Null?)
      else Agree(env, inner, v, w)
    case Struct(c) =>
      && c in env
      && if env[c].arrayLike then
           Laid(env[c], v) && Laid(env[c], w) && SameKind(v, w) &&
           forall i :: 0 <= i < |env[c].fields| ==>
             var k := env[c].Offset() + i; Agree(env, env[c].fields[i].kind, v.Elements()[k], w.Elements()[k])
         else
           && TagPresent(env[c], v) && TagPresent(env[c], w) && v.m.Keys == w.m.Keys
           && (forall k :: k in v.m ==> OwnKey(env[c], k))
           && (forall i :: 0 <= i < |env[c].fields| ==> env[c].fields[i].name in v.m ==>
                             Agree(env, env[c].fields[i].kind, v.m[env[c].fields[i].name],
                                   w.m[env[c].fields[i].name]))
    case ListOf(item) =>
      SameKind(v, w) && forall i :: 0 <= i < |v.Elements()| ==> Agree(env, item, v.Elements()[i], w.Elements()[i])
    case DictOf(val) =>
      && v.Dict? && w.Dict? && v.m.Keys == w.m.Keys
      && forall k :: k in v.m ==> Agree(env, val, v.m[k], w.m[k])
    case TupleOf(parts) =>
      && SameKind(v, w) && |v.Elements()| == |parts|
      && forall i :: 0 <= i < |parts| ==> Agree(env, parts[i], v.Elements()[i], w.Elements()[i])
    case UnionOf(arms) => exists i :: 0 <= i < |arms| && Agree(env, arms[i], v, w)
  }

  // ---- depth: the measure redaction never increases -------------------------------------

  ghost function MaxOf(s: set<nat>): (r: nat)
    ensures forall x :: x in s ==> x <= r
    ensures r == 0 || r in s
  {
    if s == {} then 0
    else
      var x :| x in s;
      var r := MaxOf(s - {x});
      assert s == (s - {x}) + {x};
      if x > r then x else r
  }

  ghost function Depth(v: Value): nat {
    match v
    case Null | Atom(_) | Str(_) => 0
    case List(xs) => 1 + MaxOf(set i | 0 <= i < |xs| :: Depth(xs[i]))
    case Tuple(xs) => 1 + MaxOf(set i | 0 <= i < |xs| :: Depth(xs[i]))
    case Dict(m) => 1 + MaxOf(set k | k in m :: Depth(m[k]))
  }

  lemma ElementIsShallower(v: Value, i: nat)
    requires v.Sequence() && i < |v.Elements()|
    ensures Depth(v.Elements()[i]) < Depth(v)
  {
    var xs := v.Elements();
    var s := set i | 0 <= i < |xs| :: Depth(xs[i]);
    assert Depth(xs[i]) in s && Depth(v) == 1 + MaxOf(s);
  }

  lemma EntryIsShallower(v: Value, k: string)
    requires v.Dict? && k in v.m
    ensures Depth(v.m[k]) < Depth(v)
  {
    var s := set k | k in v.m :: Depth(v.m[k]);
    assert Depth(v.m[k]) in s && Depth(v) == 1 + MaxOf(s);
  }

  lemma ShallowElements(v: Value, w: Value)
    requires v.Sequence() && w.Sequence() && |w.Elements()| <= |v.Elements()|
    requires forall i :: 0 <= i < |w.Elements()| ==> Depth(w.Elements()[i]) <= Depth(v.Elements()[i])
    ensures Depth(w) <= Depth(v)
  {
    var xs := w.Elements();
    var s := set i | 0 <= i < |xs| :: Depth(xs[i]);
    if MaxOf(s) != 0 {
      var i :| 0 <= i < |xs| && Depth(xs[i]) == MaxOf(s);
      ElementIsShallower(v, i);
    }
  }

  lemma ShallowEntries(v: Value, w: Value)
    requires v.Dict? && w.Dict? && w.m.Keys <= v.m.Keys
    requires forall k :: k in w.m ==> Depth(w.m[k]) <= Depth(v.m[k])
    ensures Depth(w) <= Depth(v)
  {
    var s := set k | k in w.m :: Depth(w.m[k]);
    if MaxOf(s) != 0 {
      var k :| k in w.m && Depth(w.m[k]) == MaxOf(s);
      EntryIsShallower(v, k);
    }
  }
}
