/** Where the secret positions of a schema are, and that values without any cannot differ. */
module SecretPaths {
  import opened Options
  import opened Schemas

  function Child(env: Env, t: Schema, i: nat): Option<Schema> {
    match t
    case Leaf | NoneType | Any => None
    case Metadata(_, inner) => if i == 0 then Some(inner) else None
    case Struct(c) => if c in env && i < |env[c].fields| then Some(env[c].fields[i].kind) else None
    case ListOf(item) => if i == 0 then Some(item) else None
    case DictOf(val) => if i == 0 then Some(val) else None
    case TupleOf(parts) => if i < |parts| then Some(parts[i]) else None
    case UnionOf(arms) => if i < |arms| then Some(arms[i]) else None
  }

  /** The schema a path of child positions leads to, through as many classes as it likes. */
  function Follow(env: Env, t: Schema, path: seq<nat>): Option<Schema>
    decreases |path|
  {
    if path == [] then Some(t)
    else
      match Child(env, t, path[0])
      case None => None
      case Some(u) => Follow(env, u, path[1..])
  }

  ghost predicate LeadsToSecret(env: Env, t: Schema, path: seq<nat>) {
    match Follow(env, t, path)
    case None => false
    case Some(u) => u.Metadata? && u.secret
  }

  /** No secret position is reachable at any depth. */
  ghost predicate Clean(env: Env, t: Schema) {
    forall path: seq<nat> :: !LeadsToSecret(env, t, path)
  }

  lemma {:induction false} CleanChild(env: Env, t: Schema, i: nat)
    requires Clean(env, t) && Child(env, t, i).Some?
    ensures Clean(env, Child(env, t, i).value)
  {
    forall path: seq<nat> ensures !LeadsToSecret(env, Child(env, t, i).value, path) {
      assert ([i] + path)[1..] == path;
      assert !LeadsToSecret(env, t, [i] + path);
    }
  }

  lemma {:induction false} CleanIsNotMasked(env: Env, t: Schema)
    requires Clean(env, t)
    ensures t.Metadata? ==> !t.secret
  {
    assert !LeadsToSecret(env, t, []);
  }

  /** Values of a schema without secrets that differ only inside secrets do not differ. */
  lemma {:induction false} AgreeClean(env: Env, t: Schema, v: Value, w: Value)
    requires Clean(env, t) && Agree(env, t, v, w)
    ensures v == w
    decreases v, t
  {
    match t
    case Leaf | NoneType | Any =>
    case Metadata(_, inner) =>
      CleanIsNotMasked(env, t);
      CleanChild(env, t, 0);
      AgreeClean(env, inner, v, w);
    case Struct(c) => AgreeCleanStruct(env, c, v, w);
    case ListOf(item) =>
      CleanChild(env, t, 0);
      forall i | 0 <= i < |v.Elements()| ensures v.Elements()[i] == w.Elements()[i] {
        AgreeClean(env, item, v.Elements()[i], w.Elements()[i]);
      }
      assert v.Elements() == w.Elements();
    case DictOf(val) =>
      CleanChild(env, t, 0);
      forall k | k in v.m ensures v.m[k] == w.m[k] {
        AgreeClean(env, val, v.m[k], w.m[k]);
      }
      assert v.m == w.m;
    case TupleOf(parts) =>
      forall i | 0 <= i < |parts| ensures v.Elements()[i] == w.Elements()[i] {
        CleanChild(env, t, i);
        AgreeClean(env, parts[i], v.Elements()[i], w.Elements()[i]);
      }
      assert v.Elements() == w.Elements();
    case UnionOf(arms) =>
      var i :| 0 <= i < |arms| && Agree(env, arms[i], v, w);
      CleanChild(env, t, i);
      AgreeClean(env, arms[i], v, w);
  }

  lemma {:induction false} AgreeCleanStruct(env: Env, c: ClassId, v: Value, w: Value)
    requires Clean(env, Struct(c)) && Agree(env, Struct(c), v, w)
    ensures v == w
    decreases v, Struct(c), 0
  {
    var d := env[c];
    if d.arrayLike {
      forall k | 0 <= k < |v.Elements()| ensures v.Elements()[k] == w.Elements()[k] {
        if k >= d.Offset() {
          var i := k - d.Offset();
          CleanChild(env, Struct(c), i);
          assert Agree(env, d.fields[i].kind, v.Elements()[d.Offset() + i], w.Elements()[d.Offset() + i]);
          AgreeClean(env, d.fields[i].kind, v.Elements()[k], w.Elements()[k]);
        }
      }
      assert v.Elements() == w.Elements();
    } else {
      forall k | k in v.m ensures v.m[k] == w.m[k] {
        assert OwnKey(d, k);
        if Names(d.fields, k) {
          var i :| 0 <= i < |d.fields| && d.fields[i].name == k;
          CleanChild(env, Struct(c), i);
          AgreeClean(env, d.fields[i].kind, v.m[k], w.m[k]);
        }
      }
      assert v.m == w.m;
    }
  }
}
