/** Inputs on which redaction falls short, each the smallest of its kind. */
module RedactionLeaks {
  import opened Options
  import opened Schemas
  import opened SecretPaths
  import opened Redaction
  import opened RedactionProofs
  import opened RedactionLimits

  const SECRET_LEAF := Metadata(true, Leaf)

  lemma {:induction false} OneField(env: Env, name: string, kind: Schema, stack: set<ClassId>)
    ensures CompileFields(env, [Field(name, kind)], stack) ==
            match Compile(env, kind, stack)
            case None => map[]
            case Some(p) => map[name := p]
  {
    assert [Field(name, kind)][..0] == [];
  }

  lemma {:induction false} TwoFields(env: Env, f: Field, g: Field, stack: set<ClassId>)
    ensures CompileFields(env, [f, g], stack) ==
            match Compile(env, g.kind, stack)
            case None => CompileFields(env, [f], stack)
            case Some(p) => CompileFields(env, [f], stack)[g.name := p]
  {
    assert [f, g][..1] == [f];
  }

  /** The plan of a class whose first field is its only one with a plan. */
  lemma {:induction false} StructPlan(env: Env, c: ClassId, stack: set<ClassId>, p: Plan)
    requires c in env && c !in stack && 1 <= |env[c].fields| <= 2
    requires Compile(env, env[c].fields[0].kind, stack + {c}) == Some(p)
    requires |env[c].fields| == 2 ==> Compile(env, env[c].fields[1].kind, stack + {c}).None?
    ensures Compile(env, Struct(c), stack) == Some(OfStruct(map[env[c].fields[0].name := p]))
  {
    var fields := env[c].fields;
    if |fields| == 1 {
      assert fields == [Field(fields[0].name, fields[0].kind)];
      OneField(env, fields[0].name, fields[0].kind, stack + {c});
    } else {
      assert fields == [Field(fields[0].name, fields[0].kind), fields[1]];
      OneField(env, fields[0].name, fields[0].kind, stack + {c});
      TwoFields(env, Field(fields[0].name, fields[0].kind), fields[1], stack + {c});
    }
    var sub := CompileFields(env, fields, stack + {c});
    assert fields[0].name in sub;
  }

  lemma {:induction false} OneArm(env: Env, arm: Schema, stack: set<ClassId>)
    ensures CompileArms(env, [arm], stack) ==
            match Compile(env, arm, stack)
            case None => []
            case Some(p) => [Member(TagOf(env, arm), p)]
    ensures UnionTagField(env, [arm], stack) ==
            if Compile(env, arm, stack).Some? && TagOf(env, arm) != Null then TagFieldOf(env, arm) else None
  {
    assert [arm][..0] == [];
  }

  lemma {:induction false} TwoArms(env: Env, a: Schema, b: Schema, stack: set<ClassId>)
    ensures CompileArms(env, [a, b], stack) ==
            match Compile(env, b, stack)
            case None => CompileArms(env, [a], stack)
            case Some(p) => CompileArms(env, [a], stack) + [Member(TagOf(env, b), p)]
    ensures UnionTagField(env, [a, b], stack) ==
            if Compile(env, b, stack).Some? && TagOf(env, b) != Null then TagFieldOf(env, b)
            else UnionTagField(env, [a], stack)
  {
    assert [a, b][..1] == [a];
  }

  lemma {:induction false} ArmAgrees(env: Env, arms: seq<Schema>, i: nat, v: Value, w: Value)
    requires i < |arms| && Agree(env, arms[i], v, w)
    ensures Agree(env, UnionOf(arms), v, w)
  {}

  lemma {:induction false} StructAgrees(env: Env, c: ClassId, v: Value, w: Value)
    requires c in env && !env[c].arrayLike && TagPresent(env[c], v) && TagPresent(env[c], w) && v.m.Keys == w.m.Keys
    requires forall k :: k in v.m ==> OwnKey(env[c], k)
    requires forall i :: 0 <= i < |env[c].fields| ==> env[c].fields[i].name in v.m
    requires forall i :: 0 <= i < |env[c].fields| ==>
               Agree(env, env[c].fields[i].kind, v.m[env[c].fields[i].name], w.m[env[c].fields[i].name])
    ensures Agree(env, Struct(c), v, w)
  {}

  lemma {:induction false} WrapAgrees(env: Env, secret: bool, t: Schema, v: Value, w: Value)
    requires if secret then Conforms(env, t, v) && Conforms(env, t, w) && (v.Null? <==> w.Null?)
             else Agree(env, t, v, w)
    ensures Agree(env, Metadata(secret, t), v, w)
  {}

  lemma {:induction false} PairIsWf(env: Env, a: Schema, b: Schema)
    requires WfSchema(env, a) && WfSchema(env, b) && Separable(env, a, b)
    ensures WfSchema(env, UnionOf([a, b]))
  {}

  // ---- a wrapped struct arm beside a bare one -----------------------------------------------------

  function Wrapped(): Env {
    map["A" := ClassDef(Some("type"), Str("A"), false, [Field("x", Leaf)]),
        "B" := ClassDef(Some("type"), Str("B"), false, [Field("p", SECRET_LEAF)])]
  }

  const WRAPPED := UnionOf([Metadata(true, Struct("A")), Struct("B")])

  function OfA(n: int): Value { Dict(map["type" := Str("A"), "x" := Atom(n)]) }

  lemma {:induction false} WrappedClasses()
    ensures var env := Wrapped();
            && "A" in env && "B" in env && forall c :: c in env ==> c == "A" || c == "B"
    ensures Wrapped()["A"] == ClassDef(Some("type"), Str("A"), false, [Field("x", Leaf)])
    ensures Wrapped()["B"] == ClassDef(Some("type"), Str("B"), false, [Field("p", SECRET_LEAF)])
  {
    assert "A"[0] != "B"[0];
  }

  lemma {:induction false} WrappedIsWf()
    ensures WfEnv(Wrapped()) && WfSchema(Wrapped(), WRAPPED)
    ensures Compile(Wrapped(), Struct("B"), {}).Some? && TagOf(Wrapped(), Struct("B")) != Null
  {
    var env := Wrapped();
    WrappedClasses();
    hide Wrapped;
    StructPlan(env, "B", {}, Mask);
    assert DistinctTags(env, "A", "B") by { assert "A"[0] != "B"[0]; }
    hide Compile;
    assert |"x"| != |"type"| && |"p"| != |"type"|;
    assert WfClass(env, env["A"]) && WfClass(env, env["B"]);
  }

  lemma {:induction false} OfAConforms(n: int)
    ensures Conforms(Wrapped(), Struct("A"), OfA(n))
  {
    var env, v := Wrapped(), OfA(n);
    WrappedClasses();
    hide Wrapped;
    assert env["A"].fields[0].name == "x";
    assert |"x"| != |"type"|;
    assert v.m["x"] == Atom(n);
  }

  lemma {:induction false} OfAEscapes(n: int)
    ensures Redact(Wrapped(), OfA(n), Compile(Wrapped(), WRAPPED, {})) == OfA(n)
  {
    var env, arms := Wrapped(), WRAPPED.arms;
    WrappedIsWf();
    OfAConforms(n);
    WrappedClasses();
    ConformsFits(env, arms[0], OfA(n));
    assert !ArrayStruct(env, arms[0]);
    assert Struct("A") in Atoms(arms[0]) && TagPresent(env["A"], OfA(n));
    hide Wrapped, Conforms, WfEnv, WfSchema, Redact, Compile, Fits, Core, ArrayStruct, Atoms, TagPresent, OfA;
    assert BareArmPlanned(env, arms, {}) by { assert Compile(env, arms[1], {}).Some? && TagOf(env, arms[1]) != Null; }
    WrappedArmEscapes(env, arms, {}, 0, "A", OfA(n));
  }

  /** `Annotated[A, SECRET] | B`: the whole of `A` is secret, and none of it is masked. */
  lemma {:induction false} WrappedArmLeaks(n: int)
    ensures var env, v, w := Wrapped(), OfA(n), OfA(n + 1);
            && WfEnv(env) && WfSchema(env, WRAPPED) && Agree(env, WRAPPED, v, w)
            && Redact(env, v, Compile(env, WRAPPED, {})) == v && Redact(env, w, Compile(env, WRAPPED, {})) == w
            && v != w
  {
    WrappedIsWf();
    OfAConforms(n);
    OfAConforms(n + 1);
    OfAEscapes(n);
    OfAEscapes(n + 1);
    assert OfA(n).m["x"] == Atom(n) && OfA(n + 1).m["x"] == Atom(n + 1);
    hide Wrapped, OfA, WfEnv, WfSchema, Conforms, Agree, Redact, Compile;
    WrapAgrees(Wrapped(), true, Struct("A"), OfA(n), OfA(n + 1));
    ArmAgrees(Wrapped(), WRAPPED.arms, 0, OfA(n), OfA(n + 1));
  }

  // ---- an array-like struct ------------------------------------------------------------------------

  /** A class that msgspec encodes as an array has a plan for dicts: its values go through as
      they are, under every class stack. */
  lemma {:induction false} ArrayStructEscapes(env: Env, c: ClassId, stack: set<ClassId>, v: Value)
    requires c in env && env[c].arrayLike && Conforms(env, Struct(c), v)
    ensures Redact(env, v, Compile(env, Struct(c), stack)) == v
  {
    InertStruct(env, c, stack, v);
  }

  lemma {:induction false} ArrayStructLeaks(n: int)
    ensures var env := map["A" := ClassDef(None, Null, true, [Field("p", SECRET_LEAF)])];
            && WfEnv(env) && Agree(env, Struct("A"), List([Atom(n)]), List([Atom(n + 1)]))
            && CompilePlan(env, "A") == Some(OfStruct(map["p" := Mask]))
            && Redact(env, List([Atom(n)]), CompilePlan(env, "A")) == List([Atom(n)])
  {
    var env: Env := map["A" := ClassDef(None, Null, true, [Field("p", SECRET_LEAF)])];
    var v, w := List([Atom(n)]), List([Atom(n + 1)]);
    assert WfClass(env, env["A"]);
    StructPlan(env, "A", {}, Mask);
    assert env["A"].Offset() == 0;
    assert Conforms(env, Leaf, v.Elements()[0]) && Conforms(env, Leaf, w.Elements()[0]);
    assert Agree(env, SECRET_LEAF, v.Elements()[0], w.Elements()[0]);
    ArrayStructEscapes(env, "A", {}, v);
  }

  // ---- two wrapped struct arms ----------------------------------------------------------------------

  /** Two classes `A` and `B`, each wrapped in a union, so that no tag tells them apart.  Under
      `x`, `B` keeps a secret under the key that `A` reads as the tag of `T`. */
  function Crossed(tag: string): Env {
    map["A" := ClassDef(Some("type"), Str("A"), false, [Field("x", UnionOf([Struct("T")]))]),
        "B" := ClassDef(Some("type"), Str("B"), false, [Field("x", Struct("C"))]),
        "C" := ClassDef(None, Null, false, [Field("k", SECRET_LEAF), Field("n", Leaf)]),
        "T" := ClassDef(Some("k"), Str(tag), false, [Field("n", SECRET_LEAF)])]
  }

  const CROSSED := UnionOf([Metadata(false, Struct("A")), Metadata(false, Struct("B"))])

  function Inner(k: Value, n: Value): Value { Dict(map["k" := k, "n" := n]) }

  function Outer(x: Value): Value { Dict(map["type" := Str("B"), "x" := x]) }

  function PlanT(): Plan { OfStruct(map["n" := Mask]) }

  function PlanC(): Plan { OfStruct(map["k" := Mask]) }

  function PlanX(tag: string): Plan { OfUnion(Some("k"), [Member(Str(tag), PlanT())]) }

  lemma {:induction false} CrossedClasses(tag: string)
    ensures var env := Crossed(tag);
            && "A" in env && "B" in env && "C" in env && "T" in env
            && forall c :: c in env ==> c == "A" || c == "B" || c == "C" || c == "T"
    ensures Crossed(tag)["A"] == ClassDef(Some("type"), Str("A"), false, [Field("x", UnionOf([Struct("T")]))])
    ensures Crossed(tag)["B"] == ClassDef(Some("type"), Str("B"), false, [Field("x", Struct("C"))])
    ensures Crossed(tag)["C"] == ClassDef(None, Null, false, [Field("k", SECRET_LEAF), Field("n", Leaf)])
    ensures Crossed(tag)["T"] == ClassDef(Some("k"), Str(tag), false, [Field("n", SECRET_LEAF)])
  {
    assert "A"[0] != "B"[0] && "C"[0] != "A"[0] && "C"[0] != "B"[0];
    assert "T"[0] != "A"[0] && "T"[0] != "B"[0] && "T"[0] != "C"[0];
  }

  lemma {:induction false} WfFields(env: Env, d: ClassDef)
    requires 1 <= |d.fields| <= 2 && forall i :: 0 <= i < |d.fields| ==> WfSchema(env, d.fields[i].kind)
    requires |d.fields| == 2 ==> d.fields[0].name != d.fields[1].name
    requires d.tagField.Some? <==> d.tag != Null
    requires d.tagField.Some? ==> forall i :: 0 <= i < |d.fields| ==> d.fields[i].name != d.tagField.value
    ensures WfClass(env, d)
  {}

  lemma {:induction false} CrossedIsWf(tag: string)
    ensures WfEnv(Crossed(tag)) && WfSchema(Crossed(tag), CROSSED)
  {
    var env := Crossed(tag);
    CrossedClasses(tag);
    hide Crossed;
    assert |"x"| != |"type"| && "k"[0] != "n"[0] && "A"[0] != "B"[0];
    assert WfSchema(env, UnionOf([Struct("T")]));
    hide WfClass;
    WfFields(env, env["A"]);
    WfFields(env, env["B"]);
    WfFields(env, env["C"]);
    WfFields(env, env["T"]);
    assert WfEnv(env);
    hide WfSchema;
    CrossedArms(tag);
  }

  lemma {:induction false} CrossedArms(tag: string)
    ensures WfSchema(Crossed(tag), CROSSED)
  {
    var env := Crossed(tag);
    CrossedClasses(tag);
    hide Crossed;
    var a, b := Metadata(false, Struct("A")), Metadata(false, Struct("B"));
    assert Core(a) == Struct("A") && Core(b) == Struct("B");
    assert DistinctTags(env, "A", "B") by { assert "A"[0] != "B"[0]; }
    assert WfSchema(env, Struct("A")) && WfSchema(env, Struct("B"));
    PairIsWf(env, a, b);
  }

  lemma {:induction false} UnionPlan(env: Env, arms: seq<Schema>, stack: set<ClassId>)
    requires CompileArms(env, arms, stack) != []
    ensures Compile(env, UnionOf(arms), stack) ==
            Some(OfUnion(UnionTagField(env, arms, stack), CompileArms(env, arms, stack)))
  {}

  lemma {:induction false} PlanOfA(tag: string)
    ensures Compile(Crossed(tag), Struct("A"), {}) == Some(OfStruct(map["x" := PlanX(tag)]))
  {
    var env := Crossed(tag);
    CrossedClasses(tag);
    hide Crossed;
    var none: set<ClassId> := {};
    assert "A"[0] != "T"[0] && none + {"A"} == {"A"};
    StructPlan(env, "T", {"A"}, Mask);
    OneArm(env, Struct("T"), {"A"});
    assert TagOf(env, Struct("T")) == Str(tag) && TagFieldOf(env, Struct("T")) == Some("k");
    UnionPlan(env, [Struct("T")], {"A"});
    hide Compile;
    assert env["A"].fields[0].kind == UnionOf([Struct("T")]);
    StructPlan(env, "A", none, PlanX(tag));
  }

  lemma {:induction false} PlanOfB(tag: string)
    ensures Compile(Crossed(tag), Struct("B"), {}) == Some(OfStruct(map["x" := PlanC()]))
  {
    var env := Crossed(tag);
    CrossedClasses(tag);
    hide Crossed;
    var none: set<ClassId> := {};
    assert "B"[0] != "C"[0] && none + {"B"} == {"B"};
    StructPlan(env, "C", {"B"}, Mask);
    assert env["B"].fields[0].kind == Struct("C");
    hide Compile;
    StructPlan(env, "B", none, PlanC());
  }

  lemma {:induction false} CrossedPlan(tag: string)
    ensures Compile(Crossed(tag), CROSSED, {}) ==
            Some(OfUnion(None, [Member(Null, OfStruct(map["x" := PlanX(tag)])),
                                Member(Null, OfStruct(map["x" := PlanC()]))]))
  {
    var env := Crossed(tag);
    var a, b := Metadata(false, Struct("A")), Metadata(false, Struct("B"));
    PlanOfA(tag);
    PlanOfB(tag);
    hide Crossed, PlanX, PlanC;
    assert Compile(env, a, {}) == Compile(env, Struct("A"), {}) && Compile(env, b, {}) == Compile(env, Struct("B"), {});
    hide Compile;
    OneArm(env, a, {});
    TwoArms(env, a, b, {});
    UnionPlan(env, [a, b], {});
    var ma, mb := Member(Null, OfStruct(map["x" := PlanX(tag)])), Member(Null, OfStruct(map["x" := PlanC()]));
    assert [ma] + [mb] == [ma, mb] && CROSSED.arms == [a, b];
  }

  lemma {:induction false} StructAtKey(env: Env, v: Value, k: string, p: Plan)
    requires v.Dict? && k in v.m
    ensures Apply(env, v, OfStruct(map[k := p])) == Dict(v.m[k := Apply(env, v.m[k], p)])
  {
    ActsByKey(env, v, OfStruct(map[k := p]));
    assert Redact(env, v.m[k], Some(p)) == Apply(env, v.m[k], p);
    hide Apply;
    assert Apply(env, v, OfStruct(map[k := p])).m == v.m[k := Apply(env, v.m[k], p)];
  }

  lemma {:induction false} TwoEntries(f: string, a: Value, g: string, b: Value, c: Value)
    requires f != g
    ensures var m := map[f := a, g := b];
            && m == map[g := b, f := a] && m[f] == a && m[g] == b
            && m[g := c] == map[f := a, g := c] == map[g := c, f := a]
  {}

  lemma {:induction false} StructAtX(env: Env, p: Plan, x: Value, y: Value)
    requires Apply(env, x, p) == y
    ensures Apply(env, Outer(x), OfStruct(map["x" := p])) == Outer(y)
  {
    hide Apply;
    assert |"x"| != |"type"|;
    TwoEntries("type", Str("B"), "x", x, y);
    StructAtKey(env, Outer(x), "x", p);
  }

  lemma {:induction false} ApplyT(env: Env, k: Value, n: Value)
    requires n != Null
    ensures Apply(env, Inner(k, n), PlanT()) == Inner(k, REDACTED)
  {
    assert Apply(env, n, Mask) == REDACTED;
    hide Apply;
    assert "k"[0] != "n"[0];
    TwoEntries("k", k, "n", n, REDACTED);
    StructAtKey(env, Inner(k, n), "n", Mask);
  }

  lemma {:induction false} ApplyC(env: Env, k: Value, n: Value)
    requires k != Null
    ensures Apply(env, Inner(k, n), PlanC()) == Inner(REDACTED, n)
  {
    assert Apply(env, k, Mask) == REDACTED;
    hide Apply;
    assert "k"[0] != "n"[0];
    TwoEntries("n", n, "k", k, REDACTED);
    StructAtKey(env, Inner(k, n), "k", Mask);
  }

  lemma {:induction false} OneMemberUnion(env: Env, v: Value, f: string, m: Member)
    requires v.Dict? && f in v.m
    ensures Apply(env, v, OfUnion(Some(f), [m])) == if v.m[f] == m.tag then Apply(env, v, m.plan) else v
  {
    assert [m][..0] == [];
    assert Select([m], v.m[f]) == if v.m[f] == m.tag then Some(m.plan) else None;
  }

  lemma {:induction false} ApplyX(env: Env, tag: string, k: Value, n: Value)
    requires n != Null
    ensures Apply(env, Inner(k, n), PlanX(tag)) == Inner(k, if k == Str(tag) then REDACTED else n)
  {
    assert "k"[0] != "n"[0];
    assert Tagged(Some("k"), Inner(k, n)) && Inner(k, n).m["k"] == k;
    ApplyT(env, k, n);
    hide Inner, PlanT;
    OneMemberUnion(env, Inner(k, n), "k", Member(Str(tag), PlanT()));
  }

  /** What the plan does to a value of `B`: first `T`'s mask, if the secret is `T`'s tag, then
      the secret's own. */
  lemma {:induction false} CrossedView(tag: string, k: Value, n: Value)
    requires k != Null && n != Null
    ensures Redact(Crossed(tag), Outer(Inner(k, n)), Compile(Crossed(tag), CROSSED, {})) ==
            Outer(Inner(REDACTED, if k == Str(tag) then REDACTED else n))
  {
    var env, v := Crossed(tag), Outer(Inner(k, n));
    var seen := if k == Str(tag) then REDACTED else n;
    var a, b := Member(Null, OfStruct(map["x" := PlanX(tag)])), Member(Null, OfStruct(map["x" := PlanC()]));
    CrossedPlan(tag);
    ApplyX(env, tag, k, n);
    StructAtX(env, PlanX(tag), Inner(k, n), Inner(k, seen));
    ApplyC(env, k, seen);
    StructAtX(env, PlanC(), Inner(k, seen), Inner(REDACTED, seen));
    FoldOfTwo(env, v, a, b);
    hide Apply, ApplyAll, Compile, Crossed, Inner, PlanC, PlanX;
    UnionWithoutTag(env, v, [a, b]);
  }

  lemma {:induction false} UnionWithoutTag(env: Env, v: Value, members: seq<Member>)
    requires !v.Null?
    ensures Apply(env, v, OfUnion(None, members)) == ApplyAll(env, v, members)
  {}

  lemma {:induction false} FoldOfTwo(env: Env, v: Value, a: Member, b: Member)
    ensures ApplyAll(env, v, [a, b]) == Apply(env, Apply(env, v, a.plan), b.plan)
  {
    assert [a, b] == [a] + [b] && [a] == [] + [a];
    ApplyOneMore(env, v, [], a);
    ApplyOneMore(env, v, [a], b);
  }

  lemma {:induction false} InnerAgrees(tag: string, k: Value, l: Value, n: Value)
    requires (k.Atom? || k.Str?) && (l.Atom? || l.Str?) && (n.Atom? || n.Str?)
    ensures Agree(Crossed(tag), Struct("C"), Inner(k, n), Inner(l, n))
  {
    var env := Crossed(tag);
    CrossedClasses(tag);
    assert Agree(env, SECRET_LEAF, k, l) && Agree(env, Leaf, n, n);
    hide Crossed, Agree;
    assert "k"[0] != "n"[0];
    assert env["C"].fields[0].name == "k" && env["C"].fields[1].name == "n";
    assert Inner(k, n).m["k"] == k && Inner(l, n).m["k"] == l && Inner(k, n).m["n"] == n && Inner(l, n).m["n"] == n;
    StructAgrees(env, "C", Inner(k, n), Inner(l, n));
  }

  lemma {:induction false} OuterAgrees(tag: string, k: Value, l: Value, n: Value)
    requires (k.Atom? || k.Str?) && (l.Atom? || l.Str?) && (n.Atom? || n.Str?)
    ensures Agree(Crossed(tag), Struct("B"), Outer(Inner(k, n)), Outer(Inner(l, n)))
  {
    var env := Crossed(tag);
    CrossedClasses(tag);
    InnerAgrees(tag, k, l, n);
    hide Crossed, Inner, Agree;
    assert |"x"| != |"type"|;
    assert env["B"].fields[0].name == "x";
    assert Outer(Inner(k, n)).m["x"] == Inner(k, n) && Outer(Inner(l, n)).m["x"] == Inner(l, n);
    StructAgrees(env, "B", Outer(Inner(k, n)), Outer(Inner(l, n)));
  }

  lemma {:induction false} ViewsDiffer(n: Value)
    requires n != REDACTED
    ensures Outer(Inner(REDACTED, n)) != Outer(Inner(REDACTED, REDACTED))
  {
    assert Outer(Inner(REDACTED, n)).m["x"].m["n"] == n;
    assert Outer(Inner(REDACTED, REDACTED)).m["x"].m["n"] == REDACTED;
  }

  /** Two values that differ only inside a secret, and views that show which of two it was. */
  lemma {:induction false} CrosstalkLeaks(n: int)
    ensures var env := Crossed("foo");
            var v, w := Outer(Inner(Str("foo"), Atom(n))), Outer(Inner(Str("bar"), Atom(n)));
            && WfEnv(env) && WfSchema(env, CROSSED) && Agree(env, CROSSED, v, w)
            && Redact(env, v, Compile(env, CROSSED, {})) != Redact(env, w, Compile(env, CROSSED, {}))
  {
    var foo, bar := Str("foo"), Str("bar");
    assert "foo"[0] != "bar"[0];
    CrossedIsWf("foo");
    CrossedView("foo", foo, Atom(n));
    CrossedView("foo", bar, Atom(n));
    ViewsDiffer(Atom(n));
    OuterAgrees("foo", foo, bar, Atom(n));
    hide Crossed, Outer, Inner, Agree, WfEnv, WfSchema, Redact, Compile;
    WrapAgrees(Crossed("foo"), false, Struct("B"), Outer(Inner(foo, Atom(n))), Outer(Inner(bar, Atom(n))));
    ArmAgrees(Crossed("foo"), CROSSED.arms, 1, Outer(Inner(foo, Atom(n))), Outer(Inner(bar, Atom(n))));
  }

  /** A class tagged with the mask itself: redacting the redacted value masks more. */
  lemma {:induction false} MaskTagRedactsTwice(n: int)
    ensures var env := Crossed("********");
            var v := Outer(Inner(Atom(n), Atom(n)));
            var plan := Compile(env, CROSSED, {});
            && WfEnv(env) && WfSchema(env, CROSSED) && Agree(env, CROSSED, v, v)
            && Redact(env, Redact(env, v, plan), plan) != Redact(env, v, plan)
  {
    CrossedIsWf("********");
    CrossedView("********", Atom(n), Atom(n));
    CrossedView("********", REDACTED, Atom(n));
    ViewsDiffer(Atom(n));
    OuterAgrees("********", Atom(n), Atom(n), Atom(n));
    hide Crossed, Outer, Inner, Agree, WfEnv, WfSchema, Redact, Compile;
    WrapAgrees(Crossed("********"), false, Struct("B"), Outer(Inner(Atom(n), Atom(n))), Outer(Inner(Atom(n), Atom(n))));
    ArmAgrees(Crossed("********"), CROSSED.arms, 1, Outer(Inner(Atom(n), Atom(n))), Outer(Inner(Atom(n), Atom(n))));
  }

  // ---- a plan without a secret ---------------------------------------------------------------------

  function Tree(): Env {
    map["Tree" := ClassDef(None, Null, false, [Field("below", ListOf(Struct("Tree")))])]
  }

  /** A class that holds itself and no secret has a plan all the same. */
  lemma {:induction false} CleanClassWithPlan()
    ensures WfEnv(Tree()) && Clean(Tree(), Struct("Tree"))
    ensures CompilePlan(Tree(), "Tree") == Some(OfStruct(map["below" := OfList(Recurse("Tree"))]))
  {
    forall path: seq<nat> ensures !LeadsToSecret(Tree(), Struct("Tree"), path) {
      TreeIsClean(Struct("Tree"), path);
    }
    assert Compile(Tree(), ListOf(Struct("Tree")), {"Tree"}) == Some(OfList(Recurse("Tree")));
    StructPlan(Tree(), "Tree", {}, OfList(Recurse("Tree")));
  }

  lemma {:induction false} TreeIsClean(t: Schema, path: seq<nat>)
    requires t == Struct("Tree") || t == ListOf(Struct("Tree"))
    ensures !LeadsToSecret(Tree(), t, path)
    decreases |path|
  {
    if path != [] && Child(Tree(), t, path[0]).Some? {
      TreeIsClean(Child(Tree(), t, path[0]).value, path[1..]);
    }
  }
}
