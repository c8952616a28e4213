/** What a plan means: the schema-directed view it computes, and when there is no plan at all. */
module RedactionMeaning {
  import opened Options
  import opened Schemas
  import opened SecretPaths
  import opened Redaction
  import opened RedactionProofs

  // ---- the view a reader expects, straight from the schema ----------------------------------

  /** An arm the value belongs to. */
  ghost function ArmOf(env: Env, arms: seq<Schema>, v: Value): (i: nat)
    requires Conforms(env, UnionOf(arms), v)
    ensures i < |arms| && Conforms(env, arms[i], v)
  {
    var i :| 0 <= i < |arms| && Conforms(env, arms[i], v);
    i
  }

  ghost function FieldOf(d: ClassDef, k: string): (i: nat)
    requires Names(d.fields, k)
    ensures i < |d.fields| && d.fields[i].name == k
  {
    var i :| 0 <= i < |d.fields| && d.fields[i].name == k;
    i
  }

  /** No plan, no stack, no order of arms: every secret position is replaced unless it is null,
      and everything else is kept where it is. */
  ghost function View(env: Env, t: Schema, v: Value): Value
    requires Conforms(env, t, v)
    decreases v, t
  {
    match t
    case Leaf | NoneType | Any => v
    case Metadata(secret, inner) =>
      if secret then (if v.Null? then Null else REDACTED) else View(env, inner, v)
    case Struct(c) =>
      if env[c].arrayLike then
        List(seq(|v.Elements()|, k requires 0 <= k < |v.Elements()| =>
               if k < env[c].Offset() then v.Elements()[k]
               else
                 var i := k - env[c].Offset();
                 View(env, env[c].fields[i].kind, v.Elements()[env[c].Offset() + i])))
      else
        Dict(map k | k in v.m ::
               if Names(env[c].fields, k) then View(env, env[c].fields[FieldOf(env[c], k)].kind, v.m[k])
               else v.m[k])
    case ListOf(item) =>
      List(seq(|v.Elements()|, i requires 0 <= i < |v.Elements()| => View(env, item, v.Elements()[i])))
    case DictOf(val) => Dict(map k | k in v.m :: View(env, val, v.m[k]))
    case TupleOf(parts) =>
      List(seq(|parts|, i requires 0 <= i < |parts| => View(env, parts[i], v.Elements()[i])))
    case UnionOf(arms) => View(env, arms[ArmOf(env, arms, v)], v)
  }

  /** The value with every tuple turned into a list. */
  function Listed(v: Value): Value {
    match v
    case Null | Atom(_) | Str(_) => v
    case List(xs) => List(seq(|xs|, i requires 0 <= i < |xs| => Listed(xs[i])))
    case Tuple(xs) => List(seq(|xs|, i requires 0 <= i < |xs| => Listed(xs[i])))
    case Dict(m) => Dict(map k | k in m :: Listed(m[k]))
  }

  /** No masked arm beside another arm that has non-null values. */
  predicate StrictSchema(t: Schema) {
    match t
    case Leaf | NoneType | Any | Struct(_) => true
    case Metadata(_, inner) => StrictSchema(inner)
    case ListOf(item) => StrictSchema(item)
    case DictOf(val) => StrictSchema(val)
    case TupleOf(parts) => forall i :: 0 <= i < |parts| ==> StrictSchema(parts[i])
    case UnionOf(arms) =>
      && (forall i :: 0 <= i < |arms| ==> StrictSchema(arms[i]))
      && (forall i, j :: 0 <= i < |arms| && 0 <= j < |arms| && i != j && Secret(arms[i]) ==> OnlyNull(arms[j]))
  }

  predicate StrictEnv(env: Env) {
    forall c :: c in env ==>
      forall i :: 0 <= i < |env[c].fields| ==> StrictSchema(env[c].fields[i].kind)
  }

  lemma {:induction false} StrictArm(env: Env, arms: seq<Schema>, stack: set<ClassId>, v: Value, i: nat)
    requires WfEnv(env) && WfSchema(env, UnionOf(arms)) && StrictSchema(UnionOf(arms))
    requires i < |arms| && Conforms(env, arms[i], v) && Told(env, arms, stack, i)
    ensures Redact(env, v, Compile(env, UnionOf(arms), stack)) == Redact(env, v, Compile(env, arms[i], stack))
  {
    ConformsFits(env, arms[i], v);
    FitsForm(env, arms[i], v);
    UnionActsAsItsArm(env, arms, stack, v, i);
    if !v.Null? && OverMasked(env, arms, stack, i) {
      var j :| 0 <= j < |arms| && Secret(arms[j]);
      if j == i {
        SecretPlan(env, arms[i], stack);
      }
    }
  }

  /** Without secrets the view is the value, up to tuples that become lists. */
  lemma {:induction false} CleanView(env: Env, t: Schema, v: Value)
    requires Clean(env, t) && Conforms(env, t, v)
    ensures Listed(View(env, t, v)) == Listed(v)
    decreases v, t, 1
  {
    match t
    case Leaf | NoneType | Any =>
    case Metadata(_, inner) =>
      CleanIsNotMasked(env, t);
      CleanChild(env, t, 0);
      CleanView(env, inner, v);
    case Struct(c) => CleanStructView(env, c, v);
    case ListOf(item) =>
      CleanChild(env, t, 0);
      forall i | 0 <= i < |v.Elements()| ensures Listed(View(env, item, v.Elements()[i])) == Listed(v.Elements()[i]) {
        CleanView(env, item, v.Elements()[i]);
      }
      SameItemsSameListed(View(env, t, v), v);
    case DictOf(val) =>
      CleanChild(env, t, 0);
      forall k | k in v.m ensures Listed(View(env, val, v.m[k])) == Listed(v.m[k]) {
        CleanView(env, val, v.m[k]);
      }
      SameKeysSameListed(View(env, t, v).m, v.m);
    case TupleOf(parts) =>
      forall i | 0 <= i < |parts| ensures Listed(View(env, parts[i], v.Elements()[i])) == Listed(v.Elements()[i]) {
        CleanChild(env, t, i);
        CleanView(env, parts[i], v.Elements()[i]);
      }
      SameItemsSameListed(View(env, t, v), v);
    case UnionOf(arms) =>
      var i := ArmOf(env, arms, v);
      CleanChild(env, t, i);
      CleanView(env, arms[i], v);
  }

  lemma {:induction false} CleanStructView(env: Env, c: ClassId, v: Value)
    requires Clean(env, Struct(c)) && Conforms(env, Struct(c), v)
    ensures Listed(View(env, Struct(c), v)) == Listed(v)
    decreases v, Struct(c), 0
  {
    var t, d := Struct(c), env[c];
    if d.arrayLike {
      forall k | 0 <= k < |v.Elements()| ensures Listed(View(env, t, v).Elements()[k]) == Listed(v.Elements()[k]) {
        if k >= d.Offset() {
          CleanChild(env, t, k - d.Offset());
          CleanView(env, d.fields[k - d.Offset()].kind, v.Elements()[k]);
        }
      }
      SameItemsSameListed(View(env, t, v), v);
    } else {
      forall k | k in v.m ensures Listed(View(env, t, v).m[k]) == Listed(v.m[k]) {
        if Names(d.fields, k) {
          var i := FieldOf(d, k);
          CleanChild(env, t, i);
          CleanView(env, d.fields[i].kind, v.m[k]);
        }
      }
      SameKeysSameListed(View(env, t, v).m, v.m);
    }
  }

  lemma {:induction false} SameKeysSameListed(m: map<string, Value>, n: map<string, Value>)
    requires m.Keys == n.Keys
    requires forall k :: k in m ==> Listed(m[k]) == Listed(n[k])
    ensures Listed(Dict(m)) == Listed(Dict(n))
  {
    assert (map k | k in m :: Listed(m[k])) == (map k | k in n :: Listed(n[k]));
  }

  lemma {:induction false} SameItemsSameListed(v: Value, w: Value)
    requires v.Sequence() && w.Sequence() && |v.Elements()| == |w.Elements()|
    requires forall i :: 0 <= i < |v.Elements()| ==> Listed(v.Elements()[i]) == Listed(w.Elements()[i])
    ensures Listed(v) == Listed(w)
  {
    assert Listed(v).items == Listed(w).items;
  }

  lemma {:induction false} ListActsByItem(env: Env, item: Schema, stack: set<ClassId>, v: Value)
    requires v.Sequence()
    ensures var r := Redact(env, v, Compile(env, ListOf(item), stack));
            && r.Sequence() && |r.Elements()| == |v.Elements()|
            && (Compile(env, ListOf(item), stack).Some? ==> r.List?)
            && forall i :: 0 <= i < |v.Elements()| ==>
                 r.Elements()[i] == Redact(env, v.Elements()[i], Compile(env, item, stack))
  {}

  /** The compiler is right: laying the compiled plan over a value gives the schema's own view
      of it, up to tuples that become lists. */
  lemma {:induction false} PlanComputesView(env: Env, t: Schema, stack: set<ClassId>, v: Value)
    requires WfEnv(env) && WfSchema(env, t) && StrictEnv(env) && StrictSchema(t) && Conforms(env, t, v)
    requires CoveredEnv(env, false) && Covered(env, t, stack, false)
    ensures Listed(Redact(env, v, Compile(env, t, stack))) == Listed(View(env, t, v))
    decreases v, t, Cut(t, stack), 3
  {
    match t
    case Leaf | NoneType | Any =>
    case Metadata(secret, inner) =>
      if !secret {
        PlanComputesView(env, inner, stack, v);
      }
    case Struct(c) => StructComputesView(env, c, stack, v);
    case ListOf(item) => ListComputesView(env, item, stack, v);
    case DictOf(val) => DictComputesView(env, val, stack, v);
    case TupleOf(parts) => TupleComputesView(env, parts, stack, v);
    case UnionOf(arms) =>
      var i := ArmOf(env, arms, v);
      PlanComputesView(env, arms[i], stack, v);
      StrictArm(env, arms, stack, v, i);
  }

  lemma {:induction false} StructComputesView(env: Env, c: ClassId, stack: set<ClassId>, v: Value)
    requires WfEnv(env) && StrictEnv(env) && Conforms(env, Struct(c), v)
    requires CoveredEnv(env, false) && Covered(env, Struct(c), stack, false)
    ensures Listed(Redact(env, v, Compile(env, Struct(c), stack))) == Listed(View(env, Struct(c), v))
    decreases v, Struct(c), Cut(Struct(c), stack), 2
  {
    var t := Struct(c);
    if env[c].arrayLike {
      NoPlanIsClean(env, t, stack);
      CleanView(env, t, v);
    } else if c in stack {
      PlanComputesView(env, t, {}, v);
      RecurseActsAsItsClass(env, c, stack, v);
    } else {
      FieldsComputeView(env, c, stack, v);
      StructActsByKey(env, c, stack, v);
      SameKeysSameListed(map k | k in v.m :: Redact(env, v.m[k], KeyPlan(env, c, stack, k)), View(env, t, v).m);
    }
  }

  lemma {:induction false} ListComputesView(env: Env, item: Schema, stack: set<ClassId>, v: Value)
    requires WfEnv(env) && WfSchema(env, item) && StrictEnv(env) && StrictSchema(item) && Conforms(env, ListOf(item), v)
    requires CoveredEnv(env, false) && Covered(env, item, stack, false)
    ensures Listed(Redact(env, v, Compile(env, ListOf(item), stack))) == Listed(View(env, ListOf(item), v))
    decreases v, ListOf(item), 0, 2
  {
    ListActsByItem(env, item, stack, v);
    hide Redact, Compile;
    forall i | 0 <= i < |v.Elements()|
      ensures Listed(Redact(env, v.Elements()[i], Compile(env, item, stack))) ==
              Listed(View(env, item, v.Elements()[i]))
    {
      PlanComputesView(env, item, stack, v.Elements()[i]);
    }
    SameItemsSameListed(Redact(env, v, Compile(env, ListOf(item), stack)), View(env, ListOf(item), v));
  }

  lemma {:induction false} DictComputesView(env: Env, val: Schema, stack: set<ClassId>, v: Value)
    requires WfEnv(env) && WfSchema(env, val) && StrictEnv(env) && StrictSchema(val) && Conforms(env, DictOf(val), v)
    requires CoveredEnv(env, false) && Covered(env, val, stack, false)
    ensures Listed(Redact(env, v, Compile(env, DictOf(val), stack))) == Listed(View(env, DictOf(val), v))
    decreases v, DictOf(val), 0, 2
  {
    DictActsByValue(env, val, stack, v);
    hide Redact, Compile;
    forall k | k in v.m
      ensures Listed(Redact(env, v.m[k], Compile(env, val, stack))) == Listed(View(env, val, v.m[k]))
    {
      PlanComputesView(env, val, stack, v.m[k]);
    }
    SameKeysSameListed(map k | k in v.m :: Redact(env, v.m[k], Compile(env, val, stack)),
                       View(env, DictOf(val), v).m);
  }

  lemma {:induction false} TupleComputesView(env: Env, parts: seq<Schema>, stack: set<ClassId>, v: Value)
    requires WfEnv(env) && WfSchema(env, TupleOf(parts)) && StrictEnv(env) && StrictSchema(TupleOf(parts))
    requires Conforms(env, TupleOf(parts), v)
    requires CoveredEnv(env, false) && Covered(env, TupleOf(parts), stack, false)
    ensures Listed(Redact(env, v, Compile(env, TupleOf(parts), stack))) == Listed(View(env, TupleOf(parts), v))
    decreases v, TupleOf(parts), 0, 2
  {
    TupleActsBySlot(env, parts, stack, v);
    hide Redact, Compile;
    forall i | 0 <= i < |parts|
      ensures Listed(Redact(env, v.Elements()[i], Compile(env, parts[i], stack))) ==
              Listed(View(env, parts[i], v.Elements()[i]))
    {
      PlanComputesView(env, parts[i], stack, v.Elements()[i]);
    }
    SameItemsSameListed(Redact(env, v, Compile(env, TupleOf(parts), stack)), View(env, TupleOf(parts), v));
  }

  lemma {:induction false} FieldsComputeView(env: Env, c: ClassId, stack: set<ClassId>, v: Value)
    requires WfEnv(env) && StrictEnv(env) && c in env && c !in stack && Conforms(env, Struct(c), v)
    requires !env[c].arrayLike && CoveredEnv(env, false) && Covered(env, Struct(c), stack, false)
    ensures forall k :: k in v.m ==>
              Listed(Redact(env, v.m[k], KeyPlan(env, c, stack, k))) == Listed(View(env, Struct(c), v).m[k])
    decreases v, Struct(c), 0, 1
  {
    forall k | k in v.m
      ensures Listed(Redact(env, v.m[k], KeyPlan(env, c, stack, k))) == Listed(View(env, Struct(c), v).m[k])
    {
      assert WfClass(env, env[c]);
      FieldPlan(env, env[c].fields, stack + {c}, k);
      if Names(env[c].fields, k) {
        var i := FieldOf(env[c], k);
        PlanComputesView(env, env[c].fields[i].kind, stack + {c}, v.m[k]);
      }
    }
  }

  // ---- redacting twice ------------------------------------------------------------------------

  /** A redacted value still fits its schema, tag included, unless it is masked. */
  lemma {:induction false} RedactKeepsFit(env: Env, t: Schema, stack: set<ClassId>, v: Value)
    requires WfEnv(env) && WfSchema(env, t) && Covered(env, t, stack, false) && Fits(env, t, v)
    ensures var r := Redact(env, v, Compile(env, t, stack)); r == REDACTED || Fits(env, t, r)
    decreases t
  {
    if Compile(env, t, stack).Some? {
      MaskOrForm(env, v, Compile(env, t, stack).value);
    }
    match t
    case Metadata(secret, inner) =>
      if !secret {
        RedactKeepsFit(env, inner, stack, v);
      }
    case Struct(c) =>
      if !env[c].arrayLike {
        StructKeepsTag(env, c, stack, v);
      }
    case UnionOf(arms) =>
      var i :| 0 <= i < |arms| && Fits(env, arms[i], v);
      RedactKeepsFit(env, arms[i], stack, v);
      UnionActsAsItsArm(env, arms, stack, v, i);
    case _ =>
  }

  lemma {:induction false} StructKeepsTag(env: Env, c: ClassId, stack: set<ClassId>, v: Value)
    requires WfEnv(env) && c in env && TagPresent(env[c], v)
    ensures var r := Redact(env, v, Compile(env, Struct(c), stack));
            TagPresent(env[c], r) && r.m.Keys == v.m.Keys
  {
    var top := if c in stack then {} else stack;
    StructActsByKey(env, c, top, v);
    if c in stack {
      RecurseActsAsItsClass(env, c, stack, v);
    }
    assert WfClass(env, env[c]);
    if env[c].tagField.Some? {
      FieldPlan(env, env[c].fields, top + {c}, env[c].tagField.value);
    }
  }

  ghost predicate Settled(env: Env, v: Value, plan: Option<Plan>) {
    Redact(env, Redact(env, v, plan), plan) == Redact(env, v, plan)
  }

  lemma {:induction false} StructSettles(env: Env, c: ClassId, stack: set<ClassId>, v: Value)
    requires c in env && c !in stack && v.Dict?
    requires forall k :: k in v.m ==> Settled(env, v.m[k], KeyPlan(env, c, stack, k))
    ensures Settled(env, v, Compile(env, Struct(c), stack))
  {
    var r := Redact(env, v, Compile(env, Struct(c), stack));
    StructActsByKey(env, c, stack, v);
    StructActsByKey(env, c, stack, r);
    assert (map k | k in r.m :: Redact(env, r.m[k], KeyPlan(env, c, stack, k))) == r.m;
  }

  lemma {:induction false} ListSettles(env: Env, item: Schema, stack: set<ClassId>, v: Value)
    requires v.Sequence()
    requires forall i :: 0 <= i < |v.Elements()| ==> Settled(env, v.Elements()[i], Compile(env, item, stack))
    ensures Settled(env, v, Compile(env, ListOf(item), stack))
  {
    var plan := Compile(env, ListOf(item), stack);
    if plan.Some? {
      var r := Redact(env, v, plan);
      ListActsByItem(env, item, stack, v);
      ListActsByItem(env, item, stack, r);
      assert Redact(env, r, plan).Elements() == r.Elements();
    }
  }

  lemma {:induction false} DictSettles(env: Env, val: Schema, stack: set<ClassId>, v: Value)
    requires v.Dict?
    requires forall k :: k in v.m ==> Settled(env, v.m[k], Compile(env, val, stack))
    ensures Settled(env, v, Compile(env, DictOf(val), stack))
  {
    var r := Redact(env, v, Compile(env, DictOf(val), stack));
    DictActsByValue(env, val, stack, v);
    DictActsByValue(env, val, stack, r);
    assert (map k | k in r.m :: Redact(env, r.m[k], Compile(env, val, stack))) == r.m;
  }

  lemma {:induction false} TupleSettles(env: Env, parts: seq<Schema>, stack: set<ClassId>, v: Value)
    requires v.Sequence() && |v.Elements()| == |parts|
    requires forall i :: 0 <= i < |parts| ==> Settled(env, v.Elements()[i], Compile(env, parts[i], stack))
    ensures Settled(env, v, Compile(env, TupleOf(parts), stack))
  {
    var plan := Compile(env, TupleOf(parts), stack);
    if plan.Some? {
      var r := Redact(env, v, plan);
      TupleActsBySlot(env, parts, stack, v);
      TupleActsBySlot(env, parts, stack, r);
      assert Redact(env, r, plan).Elements() == r.Elements();
    }
  }

  /** Redacting a redacted value changes nothing, unions that are masked whole included. */
  lemma {:induction false} RedactIsIdempotent(env: Env, t: Schema, stack: set<ClassId>, v: Value)
    requires WfEnv(env) && WfSchema(env, t) && Conforms(env, t, v)
    requires CoveredEnv(env, false) && Covered(env, t, stack, false)
    ensures Redact(env, Redact(env, v, Compile(env, t, stack)), Compile(env, t, stack)) ==
            Redact(env, v, Compile(env, t, stack))
    decreases v, t, Cut(t, stack), 1
  {
    match t
    case Leaf | NoneType | Any =>
    case Metadata(secret, inner) =>
      if !secret {
        RedactIsIdempotent(env, inner, stack, v);
      }
    case Struct(c) =>
      if env[c].arrayLike {
      } else if c in stack {
        RedactIsIdempotent(env, t, {}, v);
        StructActsByKey(env, c, {}, v);
        RecurseActsAsItsClass(env, c, stack, v);
        RecurseActsAsItsClass(env, c, stack, Redact(env, v, CompilePlan(env, c)));
      } else {
        FieldsSettle(env, c, stack, v);
        StructSettles(env, c, stack, v);
      }
    case ListOf(item) =>
      forall i | 0 <= i < |v.Elements()| ensures Settled(env, v.Elements()[i], Compile(env, item, stack)) {
        RedactIsIdempotent(env, item, stack, v.Elements()[i]);
      }
      ListSettles(env, item, stack, v);
    case DictOf(val) =>
      forall k | k in v.m ensures Settled(env, v.m[k], Compile(env, val, stack)) {
        RedactIsIdempotent(env, val, stack, v.m[k]);
      }
      DictSettles(env, val, stack, v);
    case TupleOf(parts) =>
      forall i | 0 <= i < |parts| ensures Settled(env, v.Elements()[i], Compile(env, parts[i], stack)) {
        RedactIsIdempotent(env, parts[i], stack, v.Elements()[i]);
      }
      TupleSettles(env, parts, stack, v);
    case UnionOf(arms) =>
      UnionSettles(env, arms, stack, v);
  }

  lemma {:induction false} FieldsSettle(env: Env, c: ClassId, stack: set<ClassId>, v: Value)
    requires WfEnv(env) && c in env && c !in stack && Conforms(env, Struct(c), v)
    requires !env[c].arrayLike && CoveredEnv(env, false) && Covered(env, Struct(c), stack, false)
    ensures forall k :: k in v.m ==> Settled(env, v.m[k], KeyPlan(env, c, stack, k))
    decreases v, Struct(c), 0, 0
  {
    forall k | k in v.m ensures Settled(env, v.m[k], KeyPlan(env, c, stack, k)) {
      assert WfClass(env, env[c]);
      FieldPlan(env, env[c].fields, stack + {c}, k);
      if Names(env[c].fields, k) {
        var i := FieldOf(env[c], k);
        RedactIsIdempotent(env, env[c].fields[i].kind, stack + {c}, v.m[k]);
      }
    }
  }

  lemma {:induction false} UnionSettles(env: Env, arms: seq<Schema>, stack: set<ClassId>, v: Value)
    requires WfEnv(env) && WfSchema(env, UnionOf(arms)) && Conforms(env, UnionOf(arms), v)
    requires CoveredEnv(env, false) && Covered(env, UnionOf(arms), stack, false)
    ensures Settled(env, v, Compile(env, UnionOf(arms), stack))
    decreases v, UnionOf(arms), 0, 0
  {
    var i := ArmOf(env, arms, v);
    ConformsFits(env, arms[i], v);
    UnionActsAsItsArm(env, arms, stack, v, i);
    var plan := Compile(env, UnionOf(arms), stack);
    var r := Redact(env, v, plan);
    if r == REDACTED {
      if plan.Some? {
        StaysRedacted(env, plan.value);
      }
    } else {
      RedactKeepsFit(env, arms[i], stack, v);
      UnionActsAsItsArm(env, arms, stack, r, i);
      RedactIsIdempotent(env, arms[i], stack, v);
    }
  }

  // ---- when there is no plan ------------------------------------------------------------------

  /** The classes a path enters before it ends. */
  function Entered(env: Env, t: Schema, path: seq<nat>): set<ClassId>
    decreases |path|
  {
    if path == [] then {}
    else
      (if t.Struct? then {t.cls} else {}) +
      match Child(env, t, path[0])
      case None => {}
      case Some(u) => Entered(env, u, path[1..])
  }

  /** The path comes back to a class that it entered, or that is being compiled. */
  ghost predicate LeadsBack(env: Env, t: Schema, path: seq<nat>, stack: set<ClassId>) {
    match Follow(env, t, path)
    case None => false
    case Some(u) => u.Struct? && u.cls in stack + Entered(env, t, path)
  }

  /** Without a plan, no path leads to a secret or back to a class it came from. */
  lemma {:induction false} NoPlanNoSecret(env: Env, t: Schema, stack: set<ClassId>, path: seq<nat>)
    requires Compile(env, t, stack).None?
    ensures !LeadsToSecret(env, t, path) && !LeadsBack(env, t, path, stack)
    decreases |path|
  {
    if path != [] && Child(env, t, path[0]).Some? {
      var u := Child(env, t, path[0]).value;
      if Compile(env, u, Below(t, stack)).Some? {
        ChildPlan(env, t, stack, path[0]);
      }
      NoPlanNoSecret(env, u, Below(t, stack), path[1..]);
      assert stack + Entered(env, t, path) == Below(t, stack) + Entered(env, u, path[1..]);
    }
  }

  /** Every plan has a cause: a path to a secret, or one that comes back to a class. */
  lemma {:induction false} PlanHasCause(env: Env, t: Schema, stack: set<ClassId>) returns (path: seq<nat>)
    requires Compile(env, t, stack).Some?
    ensures LeadsToSecret(env, t, path) || LeadsBack(env, t, path, stack)
    decreases env.Keys - stack, t
  {
    path := [];
    if !(t.Metadata? && t.secret) && !(t.Struct? && t.cls in stack) {
      var i := PlannedChild(env, t, stack);
      var u := Child(env, t, i).value;
      assert t.Struct? ==> env.Keys - Below(t, stack) < env.Keys - stack by {
        if t.Struct? {
          assert t.cls in env.Keys - stack && t.cls !in env.Keys - Below(t, stack);
        }
      }
      var rest := PlanHasCause(env, u, Below(t, stack));
      path := [i] + rest;
      assert path[1..] == rest;
      assert stack + Entered(env, t, path) == Below(t, stack) + Entered(env, u, rest);
    }
  }

  lemma {:induction false} PlannedChild(env: Env, t: Schema, stack: set<ClassId>) returns (i: nat)
    requires Compile(env, t, stack).Some? && !(t.Metadata? && t.secret) && !(t.Struct? && t.cls in stack)
    ensures Child(env, t, i).Some? && Compile(env, Child(env, t, i).value, Below(t, stack)).Some?
    ensures !t.Struct? ==> Child(env, t, i).value < t
  {
    i := 0;
    match t
    case Struct(c) =>
      i := PlannedField(env, env[c].fields, stack + {c});
    case TupleOf(parts) =>
      var plans := CompileParts(env, parts, stack);
      i :| 0 <= i < |plans| && plans[i].Some?;
    case UnionOf(arms) =>
      i := PlannedArm(env, arms, stack);
    case _ =>
  }

  lemma {:induction false} PlannedField(env: Env, fields: seq<Field>, stack: set<ClassId>) returns (i: nat)
    requires CompileFields(env, fields, stack) != map[]
    ensures i < |fields| && Compile(env, fields[i].kind, stack).Some?
  {
    i := |fields| - 1;
    if Compile(env, fields[i].kind, stack).None? {
      i := PlannedField(env, fields[..i], stack);
    }
  }

  lemma {:induction false} PlannedArm(env: Env, arms: seq<Schema>, stack: set<ClassId>) returns (i: nat)
    requires CompileArms(env, arms, stack) != []
    ensures i < |arms| && Compile(env, arms[i], stack).Some?
  {
    i := |arms| - 1;
    if Compile(env, arms[i], stack).None? {
      i := PlannedArm(env, arms[..i], stack);
    }
  }

  /** `compile_plan` returns `None` exactly when no secret position is reachable at any depth
      and no class is reachable from itself. */
  lemma {:induction false} NoPlanExactlyWhenClean(env: Env, c: ClassId)
    ensures CompilePlan(env, c).None? <==>
            forall path: seq<nat> ::
              !LeadsToSecret(env, Struct(c), path) && !LeadsBack(env, Struct(c), path, {})
  {
    if CompilePlan(env, c).None? {
      forall path: seq<nat>
        ensures !LeadsToSecret(env, Struct(c), path) && !LeadsBack(env, Struct(c), path, {})
      {
        NoPlanNoSecret(env, Struct(c), {}, path);
      }
    } else {
      var path := PlanHasCause(env, Struct(c), {});
    }
  }
}
