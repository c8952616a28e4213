/** What a plan does to the values of its schema, and when it hides every secret. */
module RedactionProofs {
  import opened Options
  import opened Schemas
  import opened SecretPaths
  import opened Redaction

  // ---- the form of a value ----------------------------------------------------------------

  /** The outer form (and tag) of a value of schema `t`; redaction keeps it. */
  predicate Fits(env: Env, t: Schema, v: Value) {
    match t
    case Leaf => v.Atom? || v.Str?
    case NoneType => v.Null?
    case Any => true
    case Metadata(_, inner) => Fits(env, inner, v)
    case Struct(c) =>
      && c in env
      && if env[c].arrayLike then v.Sequence()
         else TagPresent(env[c], v) && forall k :: k in v.m ==> OwnKey(env[c], k)
    case DictOf(_) => v.Dict?
    case ListOf(_) | TupleOf(_) => v.Sequence()
    case UnionOf(arms) => exists i :: 0 <= i < |arms| && Fits(env, arms[i], v)
  }

  predicate MayBeObject(env: Env, t: Schema) {
    match t
    case Any | DictOf(_) => true
    case Metadata(_, inner) => MayBeObject(env, inner)
    case Struct(c) => c !in env || !env[c].arrayLike
    case UnionOf(arms) => exists i :: 0 <= i < |arms| && MayBeObject(env, arms[i])
    case _ => false
  }

  predicate MayBeArray(env: Env, t: Schema) {
    match t
    case Any | ListOf(_) | TupleOf(_) => true
    case Metadata(_, inner) => MayBeArray(env, inner)
    case Struct(c) => c in env && env[c].arrayLike
    case UnionOf(arms) => exists i :: 0 <= i < |arms| && MayBeArray(env, arms[i])
    case _ => false
  }

  predicate OnlyNull(t: Schema) {
    match t
    case NoneType => true
    case Metadata(_, inner) => OnlyNull(inner)
    case UnionOf(arms) => forall i :: 0 <= i < |arms| ==> OnlyNull(arms[i])
    case _ => false
  }

  lemma {:induction false} ConformsFits(env: Env, t: Schema, v: Value)
    requires Conforms(env, t, v)
    ensures Fits(env, t, v)
    decreases t
  {
    match t
    case Metadata(_, inner) => ConformsFits(env, inner, v);
    case UnionOf(arms) =>
      var i :| 0 <= i < |arms| && Conforms(env, arms[i], v);
      ConformsFits(env, arms[i], v);
    case _ =>
  }

  lemma {:induction false} AgreeFits(env: Env, t: Schema, v: Value, w: Value)
    requires Agree(env, t, v, w)
    ensures Fits(env, t, v) && Fits(env, t, w)
    ensures v.Null? <==> w.Null?
    decreases t
  {
    match t
    case Metadata(secret, inner) =>
      if secret {
        ConformsFits(env, inner, v);
        ConformsFits(env, inner, w);
      } else {
        AgreeFits(env, inner, v, w);
      }
    case UnionOf(arms) =>
      var i :| 0 <= i < |arms| && Agree(env, arms[i], v, w);
      AgreeFits(env, arms[i], v, w);
    case _ =>
  }

  lemma {:induction false} FitsForm(env: Env, t: Schema, v: Value)
    requires Fits(env, t, v)
    ensures v.Dict? ==> MayBeObject(env, t)
    ensures v.Sequence() ==> MayBeArray(env, t)
    ensures OnlyNull(t) ==> v.Null?
  {
    match t
    case Metadata(_, inner) => FitsForm(env, inner, v);
    case UnionOf(arms) =>
      var i :| 0 <= i < |arms| && Fits(env, arms[i], v);
      FitsForm(env, arms[i], v);
    case _ =>
  }

  predicate SameForm(v: Value, w: Value) {
    (v.Dict? <==> w.Dict?) && (v.Sequence() <==> w.Sequence()) && (v.Null? <==> w.Null?)
  }

  /** Redaction masks a value whole or keeps its form. */
  lemma {:induction false} MaskOrForm(env: Env, v: Value, p: Plan)
    ensures Apply(env, v, p) == REDACTED || SameForm(v, Apply(env, v, p))
    decreases Depth(v), Rank(p), 0
  {
    if !v.Null? {
      match p
      case OfUnion(tagField, members) =>
        UnionRank(tagField, members);
        if Tagged(tagField, v) {
          if Select(members, v.m[tagField.value]).Some? {
            var q := Select(members, v.m[tagField.value]).value;
            var i :| 0 <= i < |members| && members[i].plan == q;
            MemberRankBounded(members, i);
            MaskOrForm(env, v, q);
          }
        } else {
          AllMaskOrForm(env, v, members);
        }
      case Recurse(c) =>
        if CompilePlan(env, c).Some? {
          RecursePlan(env, c);
          MaskOrForm(env, v, CompilePlan(env, c).value);
        }
      case _ =>
    }
  }

  lemma {:induction false} AllMaskOrForm(env: Env, v: Value, members: seq<Member>)
    ensures ApplyAll(env, v, members) == REDACTED || SameForm(v, ApplyAll(env, v, members))
    decreases Depth(v), MembersRank(members), 1 + |members|
  {
    if members != [] {
      var n := |members| - 1;
      MemberRankBounded(members, n);
      AllMaskOrForm(env, v, members[..n]);
      var before := ApplyAll(env, v, members[..n]);
      MaskOrForm(env, before, members[n].plan);
      StaysRedacted(env, members[n].plan);
    }
  }

  lemma {:induction false} RecursePlan(env: Env, c: ClassId)
    ensures CompilePlan(env, c).Some? ==> CompilePlan(env, c).value.OfStruct?
  {}

  /** What is masked stays masked, whatever plan comes over it. */
  lemma {:induction false} StaysRedacted(env: Env, p: Plan)
    ensures Apply(env, REDACTED, p) == REDACTED
    decreases Rank(p), 0
  {
    match p
    case OfUnion(tagField, members) =>
      UnionRank(tagField, members);
      StayRedacted(env, members);
    case Recurse(c) => RecursePlan(env, c);
    case _ =>
  }

  lemma {:induction false} StayRedacted(env: Env, members: seq<Member>)
    ensures ApplyAll(env, REDACTED, members) == REDACTED
    decreases MembersRank(members), 1 + |members|
  {
    if members != [] {
      var n := |members| - 1;
      MemberRankBounded(members, n);
      StayRedacted(env, members[..n]);
      StaysRedacted(env, members[n].plan);
    }
  }

  // ---- a plan on a value of another form -----------------------------------------------------

  /** The plan of `b` finds nothing of its own form in the value, and masks nothing whole. */
  predicate Inert(b: Schema, x: Value) {
    match b
    case Leaf | NoneType | Any => true
    case Metadata(secret, inner) => if secret then x.Null? else Inert(inner, x)
    case Struct(_) | DictOf(_) => !x.Dict?
    case ListOf(_) | TupleOf(_) => !x.Sequence()
    case UnionOf(arms) => forall i :: 0 <= i < |arms| ==> Inert(arms[i], x)
  }

  /** No value of `a` has the form that the plan of `b` reaches into. */
  predicate Untouched(env: Env, a: Schema, b: Schema) {
    match b
    case Leaf | NoneType | Any => true
    case Metadata(secret, inner) => if secret then OnlyNull(a) else Untouched(env, a, inner)
    case Struct(_) | DictOf(_) => !MayBeObject(env, a)
    case ListOf(_) | TupleOf(_) => !MayBeArray(env, a)
    case UnionOf(arms) => forall i :: 0 <= i < |arms| ==> Untouched(env, a, arms[i])
  }

  lemma {:induction false} UntouchedIsInert(env: Env, a: Schema, b: Schema, x: Value)
    requires Untouched(env, a, b)
    requires (x.Dict? ==> MayBeObject(env, a)) && (x.Sequence() ==> MayBeArray(env, a)) && (OnlyNull(a) ==> x.Null?)
    ensures Inert(b, x)
  {
    match b
    case Metadata(secret, inner) =>
      if !secret {
        UntouchedIsInert(env, a, inner, x);
      }
    case UnionOf(arms) =>
      forall i | 0 <= i < |arms| ensures Inert(arms[i], x) {
        UntouchedIsInert(env, a, arms[i], x);
      }
    case _ =>
  }

  lemma {:induction false} InertKeeps(env: Env, b: Schema, stack: set<ClassId>, x: Value)
    requires Inert(b, x)
    ensures Redact(env, x, Compile(env, b, stack)) == x
    decreases b, 1
  {
    match b
    case Metadata(secret, inner) =>
      if !secret {
        InertKeeps(env, inner, stack, x);
      }
    case Struct(c) =>
      InertStruct(env, c, stack, x);
    case UnionOf(arms) => InertUnion(env, arms, stack, x);
    case _ =>
  }

  lemma {:induction false} InertStruct(env: Env, c: ClassId, stack: set<ClassId>, x: Value)
    requires !x.Dict?
    ensures Redact(env, x, Compile(env, Struct(c), stack)) == x
  {
    if c in stack && CompilePlan(env, c).Some? {
      RecursePlan(env, c);
      assert Apply(env, x, CompilePlan(env, c).value) == x;
    }
  }

  lemma {:induction false} InertUnion(env: Env, arms: seq<Schema>, stack: set<ClassId>, x: Value)
    requires Inert(UnionOf(arms), x)
    ensures Redact(env, x, Compile(env, UnionOf(arms), stack)) == x
    decreases UnionOf(arms), 0
  {
    forall j | 0 <= j < |arms| ensures Redact(env, x, Compile(env, arms[j], stack)) == x {
      InertKeeps(env, arms[j], stack, x);
    }
    if x.Null? {
    } else if Tagged(UnionTagField(env, arms, stack), x) {
      TaggedUnionSelects(env, arms, stack, x);
      SelectIsAnArm(env, arms, stack, x.m[UnionTagField(env, arms, stack).value]);
    } else {
      UntaggedUnionFolds(env, arms, stack, x);
      FoldOfInert(env, arms, stack, x);
    }
  }

  lemma {:induction false} FoldOfInert(env: Env, arms: seq<Schema>, stack: set<ClassId>, x: Value)
    requires forall j :: 0 <= j < |arms| ==> Redact(env, x, Compile(env, arms[j], stack)) == x
    ensures ApplyAll(env, x, CompileArms(env, arms, stack)) == x
  {
    if arms != [] {
      var n := |arms| - 1;
      assert forall j :: 0 <= j < n ==> arms[..n][j] == arms[j];
      FoldOfInert(env, arms[..n], stack, x);
      if Compile(env, arms[n], stack).Some? {
        ApplyOneMore(env, x, CompileArms(env, arms[..n], stack),
                     Member(TagOf(env, arms[n]), Compile(env, arms[n], stack).value));
      }
    }
  }

  // ---- unions -------------------------------------------------------------------------------

  /** A value with the union's tag goes to the first member of that tag. */
  lemma {:induction false} TaggedUnionSelects(env: Env, arms: seq<Schema>, stack: set<ClassId>, v: Value)
    requires Tagged(UnionTagField(env, arms, stack), v)
    ensures Redact(env, v, Compile(env, UnionOf(arms), stack)) ==
            Redact(env, v, Select(CompileArms(env, arms, stack), v.m[UnionTagField(env, arms, stack).value]))
  {}

  /** On a value without the union's tag every member with a plan is applied in turn. */
  lemma {:induction false} UntaggedUnionFolds(env: Env, arms: seq<Schema>, stack: set<ClassId>, v: Value)
    requires !v.Null? && !Tagged(UnionTagField(env, arms, stack), v)
    ensures Redact(env, v, Compile(env, UnionOf(arms), stack)) == ApplyAll(env, v, CompileArms(env, arms, stack))
  {}

  lemma {:induction false} ApplyOneMore(env: Env, v: Value, before: seq<Member>, m: Member)
    ensures ApplyAll(env, v, before + [m]) == Apply(env, ApplyAll(env, v, before), m.plan)
  {
    assert (before + [m])[..|before|] == before;
  }

  lemma {:induction false} CompileArmsUpTo(env: Env, arms: seq<Schema>, stack: set<ClassId>, n: nat)
    requires n < |arms|
    ensures var before := CompileArms(env, arms[..n], stack);
            CompileArms(env, arms[..n + 1], stack) ==
            match Compile(env, arms[n], stack)
            case None => before
            case Some(p) => before + [Member(TagOf(env, arms[n]), p)]
  {
    assert arms[..n + 1][..n] == arms[..n] && arms[..n + 1][n] == arms[n];
  }

  /** A selected plan is that of an arm. */
  lemma {:induction false} SelectIsAnArm(env: Env, arms: seq<Schema>, stack: set<ClassId>, tag: Value)
    ensures var q := Select(CompileArms(env, arms, stack), tag);
            q.Some? ==> exists j :: 0 <= j < |arms| && TagOf(env, arms[j]) == tag && Compile(env, arms[j], stack) == q
  {
    if arms != [] {
      var n := |arms| - 1;
      SelectIsAnArm(env, arms[..n], stack, tag);
      forall j | 0 <= j < n ensures arms[..n][j] == arms[j] {}
      if Compile(env, arms[n], stack).Some? {
        var before := CompileArms(env, arms[..n], stack);
        assert (before + [Member(TagOf(env, arms[n]), Compile(env, arms[n], stack).value)])[..|before|] == before;
      }
    }
  }

  lemma {:induction false} SelectSnoc(before: seq<Member>, m: Member, tag: Value)
    ensures Select(before + [m], tag) ==
            if Select(before, tag).Some? then Select(before, tag) else if m.tag == tag then Some(m.plan) else None
  {
    assert (before + [m])[..|before|] == before;
  }

  /** Of arms with other tags, only arm `i` can be selected. */
  lemma {:induction false} SelectArm(env: Env, arms: seq<Schema>, stack: set<ClassId>, tag: Value, i: nat, k: nat)
    requires i < |arms| && k <= |arms| && TagOf(env, arms[i]) == tag
    requires forall j :: 0 <= j < |arms| && j != i ==> TagOf(env, arms[j]) != tag
    ensures Select(CompileArms(env, arms[..k], stack), tag) ==
            if i < k then Compile(env, arms[i], stack) else None
  {
    if k > 0 {
      var n := k - 1;
      SelectArm(env, arms, stack, tag, i, n);
      CompileArmsUpTo(env, arms, stack, n);
      hide Compile, CompileArms, TagOf;
      if Compile(env, arms[n], stack).Some? {
        var m := Member(TagOf(env, arms[n]), Compile(env, arms[n], stack).value);
        SelectSnoc(CompileArms(env, arms[..n], stack), m, tag);
      }
    }
  }

  /** Some bare tagged struct arm has a plan: only such an arm gives the union a tag field. */
  predicate BareArmPlanned(env: Env, arms: seq<Schema>, stack: set<ClassId>) {
    exists j :: 0 <= j < |arms| && Compile(env, arms[j], stack).Some? && TagOf(env, arms[j]) != Null
  }

  lemma {:induction false} TagFieldOfUnion(env: Env, arms: seq<Schema>, stack: set<ClassId>)
    requires WfEnv(env)
    ensures UnionTagField(env, arms, stack).Some? <==> BareArmPlanned(env, arms, stack)
    ensures UnionTagField(env, arms, stack).Some? ==>
              exists j :: 0 <= j < |arms| && Compile(env, arms[j], stack).Some? &&
                          TagOf(env, arms[j]) != Null &&
                          TagFieldOf(env, arms[j]) == UnionTagField(env, arms, stack)
  {
    if arms != [] {
      var n := |arms| - 1;
      TagFieldOfUnion(env, arms[..n], stack);
      forall j | 0 <= j < n ensures arms[..n][j] == arms[j] {}
      if arms[n].Struct? && arms[n].cls in env {
        assert WfClass(env, env[arms[n].cls]);
      }
    }
  }

  lemma {:induction false} PairSeparable(env: Env, arms: seq<Schema>, i: nat, j: nat)
    requires WfSchema(env, UnionOf(arms)) && i < |arms| && j < |arms| && i != j
    ensures Separable(env, arms[i], arms[j])
  {
    if j < i {
      assert Separable(env, arms[j], arms[i]);
      forall x, y | x in Atoms(arms[i]) && y in Atoms(arms[j]) ensures Discernible(env, x, y) {
        assert Discernible(env, y, x);
      }
    }
  }

  predicate AnySecret(arms: seq<Schema>) {
    exists j :: 0 <= j < |arms| && Secret(arms[j])
  }

  /** A struct arm, wrapped or not, whose plan acts key by key. */
  predicate PlainStruct(env: Env, t: Schema) {
    Core(t).Struct? && Core(t).cls in env && !env[Core(t).cls].arrayLike && !Secret(t)
  }

  /** The plan of such an arm for a key; a class on the stack stands for its own plan. */
  function StructKey(env: Env, t: Schema, stack: set<ClassId>, k: string): Option<Plan>
    requires PlainStruct(env, t)
  {
    KeyPlan(env, Core(t).cls, if Core(t).cls in stack then {} else stack, k)
  }

  lemma {:induction false} CoreCompiles(env: Env, t: Schema, stack: set<ClassId>)
    requires !Secret(t)
    ensures Compile(env, t, stack) == Compile(env, Core(t), stack)
  {
    if t.Metadata? {
      CoreCompiles(env, t.inner, stack);
    }
  }

  lemma {:induction false} SameEntries(v: Value, w: Value)
    requires v.Dict? && w.Dict? && v.m.Keys == w.m.Keys && forall k :: k in v.m ==> v.m[k] == w.m[k]
    ensures v == w
  {
    assert v.m == w.m;
  }

  lemma {:induction false} StructPlanByKey(env: Env, t: Schema, stack: set<ClassId>, v: Value)
    requires PlainStruct(env, t) && v.Dict?
    ensures var r := Redact(env, v, Compile(env, t, stack));
            && r.Dict? && r.m.Keys == v.m.Keys
            && forall k :: k in v.m ==> r.m[k] == Redact(env, v.m[k], StructKey(env, t, stack, k))
  {
    var c := Core(t).cls;
    CoreCompiles(env, t, stack);
    if c in stack {
      RecurseActsAsItsClass(env, c, stack, v);
      StructActsByKey(env, c, {}, v);
    } else {
      StructActsByKey(env, c, stack, v);
    }
  }

  lemma {:induction false} StructFits(env: Env, t: Schema, v: Value)
    requires PlainStruct(env, t) && Fits(env, t, v)
    ensures v.Dict? && forall k :: k in v.m ==> OwnKey(env[Core(t).cls], k)
  {
    if t.Metadata? {
      StructFits(env, t.inner, v);
    }
  }

  /** Two struct arms: of the keys of `a`'s class, `b`'s plan has none, or masks what `a`'s masks. */
  predicate Harmless(env: Env, a: Schema, b: Schema, stack: set<ClassId>) {
    && PlainStruct(env, a) && PlainStruct(env, b)
    && (env[Core(a).cls].tagField.Some? ==> StructKey(env, b, stack, env[Core(a).cls].tagField.value).None?)
    && forall i :: 0 <= i < |env[Core(a).cls].fields| ==>
         var k := env[Core(a).cls].fields[i].name;
         StructKey(env, b, stack, k).None? ||
         (StructKey(env, b, stack, k) == Some(Mask) && StructKey(env, a, stack, k) == Some(Mask))
  }

  /** The plan of arm `j` leaves a value of arm `i` alone, or masks no more of it than its own. */
  predicate Quiet(env: Env, arms: seq<Schema>, stack: set<ClassId>, i: nat, j: nat)
    requires i < |arms| && j < |arms|
  {
    || j == i || Compile(env, arms[j], stack).None? || Untouched(env, arms[i], arms[j])
    || Harmless(env, arms[i], arms[j], stack)
  }

  /** Values of arm `i` carry the union's tag, and their own arm is selected, or needs no plan. */
  predicate SelectsOwn(env: Env, arms: seq<Schema>, stack: set<ClassId>, i: nat)
    requires i < |arms|
  {
    && UnionTagField(env, arms, stack).Some? && Core(arms[i]).Struct? && Core(arms[i]).cls in env
    && env[Core(arms[i]).cls].tagField == UnionTagField(env, arms, stack)
    && (arms[i].Struct? || Compile(env, arms[i], stack).None?)
  }

  /** The union's plan treats a value of arm `i` as a value of that arm: it selects the arm by
      its tag, or the fold over all members masks it, or every other member leaves it alone or masks
      no more of it than the arm's own. */
  predicate Told(env: Env, arms: seq<Schema>, stack: set<ClassId>, i: nat)
    requires i < |arms|
  {
    if UnionTagField(env, arms, stack).Some? && MayBeObject(env, arms[i]) then SelectsOwn(env, arms, stack, i)
    else AnySecret(arms) || forall j :: 0 <= j < |arms| ==> Quiet(env, arms, stack, i, j)
  }

  /** Is a non-null value of arm `i` masked because some arm is secret? */
  predicate OverMasked(env: Env, arms: seq<Schema>, stack: set<ClassId>, i: nat)
    requires i < |arms|
  {
    AnySecret(arms) && !(MayBeObject(env, arms[i]) && UnionTagField(env, arms, stack).Some?)
  }

  lemma {:induction false} SecretPlan(env: Env, t: Schema, stack: set<ClassId>)
    requires Secret(t)
    ensures Compile(env, t, stack) == Some(Mask)
    decreases t
  {
    if !t.secret {
      SecretPlan(env, t.inner, stack);
    }
  }

  /** The value a fold has come to ahead of arm `a`'s own member: that of the arm, or one where some
      keys are masked already that the arm's own plan masks. */
  ghost predicate OnTheWay(env: Env, a: Schema, stack: set<ClassId>, v: Value, x: Value) {
    x == v ||
    (PlainStruct(env, a) && v.Dict? && x.Dict? && x.m.Keys == v.m.Keys &&
     forall k :: k in v.m ==>
       x.m[k] == v.m[k] ||
       (StructKey(env, a, stack, k) == Some(Mask) && x.m[k] == Apply(env, v.m[k], Mask)))
  }

  lemma {:induction false} OwnMember(env: Env, a: Schema, stack: set<ClassId>, v: Value, x: Value)
    requires OnTheWay(env, a, stack, v, x)
    ensures Redact(env, x, Compile(env, a, stack)) == Redact(env, v, Compile(env, a, stack))
  {
    if x != v {
      StructPlanByKey(env, a, stack, v);
      StructPlanByKey(env, a, stack, x);
      hide Compile, StructKey, Apply;
      var r, s := Redact(env, v, Compile(env, a, stack)), Redact(env, x, Compile(env, a, stack));
      forall k | k in v.m ensures r.m[k] == s.m[k] {
        MaskAgain(env, v.m[k]);
      }
      SameEntries(r, s);
    }
  }

  lemma {:induction false} HarmlessKey(env: Env, a: Schema, b: Schema, stack: set<ClassId>, v: Value, k: string)
    requires Fits(env, a, v) && Harmless(env, a, b, stack) && v.Dict? && k in v.m
    ensures StructKey(env, b, stack, k).None? ||
            (StructKey(env, b, stack, k) == Some(Mask) && StructKey(env, a, stack, k) == Some(Mask))
  {
    StructFits(env, a, v);
    hide StructKey, Fits;
    assert OwnKey(env[Core(a).cls], k);
  }

  /** Arm `b`'s member on the way to that of arm `a`. */
  lemma {:induction false} HarmlessAhead(env: Env, a: Schema, b: Schema, stack: set<ClassId>, v: Value, x: Value)
    requires Fits(env, a, v) && Harmless(env, a, b, stack) && OnTheWay(env, a, stack, v, x)
    ensures OnTheWay(env, a, stack, v, Redact(env, x, Compile(env, b, stack)))
  {
    StructFits(env, a, v);
    StructPlanByKey(env, b, stack, x);
    hide Compile, StructKey, Fits, Apply;
    var y := Redact(env, x, Compile(env, b, stack));
    forall k | k in v.m
      ensures y.m[k] == v.m[k] || (StructKey(env, a, stack, k) == Some(Mask) && y.m[k] == Apply(env, v.m[k], Mask))
    {
      HarmlessKey(env, a, b, stack, v, k);
      MaskAgain(env, v.m[k]);
    }
  }

  lemma {:induction false} MaskAgain(env: Env, v: Value)
    ensures Apply(env, Apply(env, v, Mask), Mask) == Apply(env, v, Mask)
  {}

  /** And behind it. */
  lemma {:induction false} HarmlessBehind(env: Env, a: Schema, b: Schema, stack: set<ClassId>, v: Value)
    requires Fits(env, a, v) && Harmless(env, a, b, stack)
    ensures var r := Redact(env, v, Compile(env, a, stack)); Redact(env, r, Compile(env, b, stack)) == r
  {
    StructFits(env, a, v);
    var r := Redact(env, v, Compile(env, a, stack));
    var s := Redact(env, r, Compile(env, b, stack));
    StructPlanByKey(env, a, stack, v);
    StructPlanByKey(env, b, stack, r);
    hide Compile, StructKey, Fits, Apply;
    forall k | k in r.m ensures r.m[k] == s.m[k] {
      HarmlessKey(env, a, b, stack, v, k);
      MaskAgain(env, v.m[k]);
    }
    SameEntries(r, s);
  }

  /** One more arm `n` on a value `x` on the way to arm `i`, and on what comes behind it. */
  lemma {:induction false} FoldStep(
    env: Env, arms: seq<Schema>, stack: set<ClassId>, v: Value, x: Value, i: nat, n: nat)
    requires WfSchema(env, UnionOf(arms)) && i < |arms| && n < |arms|
    requires Fits(env, arms[i], v) && Quiet(env, arms, stack, i, n) && OnTheWay(env, arms[i], stack, v, x)
    ensures n == i ==> Redact(env, x, Compile(env, arms[n], stack)) == Redact(env, v, Compile(env, arms[i], stack))
    ensures n != i ==> OnTheWay(env, arms[i], stack, v, Redact(env, x, Compile(env, arms[n], stack)))
    ensures var r := Redact(env, v, Compile(env, arms[i], stack));
            n != i ==> Redact(env, r, Compile(env, arms[n], stack)) == r
  {
    if n == i {
      OwnMember(env, arms[i], stack, v, x);
    } else if Untouched(env, arms[i], arms[n]) {
      UntouchedMember(env, arms[i], arms[n], stack, v, x);
    } else if Compile(env, arms[n], stack).Some? {
      HarmlessAhead(env, arms[i], arms[n], stack, v, x);
      HarmlessBehind(env, arms[i], arms[n], stack, v);
    }
  }

  lemma {:induction false} UntouchedMember(env: Env, a: Schema, b: Schema, stack: set<ClassId>, v: Value, x: Value)
    requires Fits(env, a, v) && Untouched(env, a, b) && OnTheWay(env, a, stack, v, x)
    ensures Redact(env, x, Compile(env, b, stack)) == x
    ensures var r := Redact(env, v, Compile(env, a, stack)); Redact(env, r, Compile(env, b, stack)) == r
  {
    FitsForm(env, a, v);
    StillOfForm(env, v, Compile(env, a, stack));
    var r := Redact(env, v, Compile(env, a, stack));
    assert SameForm(v, x);
    hide Redact, Compile, OnTheWay, Fits, Apply;
    UntouchedOfForm(env, a, b, stack, v, x);
    if r == REDACTED {
      MaskStaysMask(env, Compile(env, b, stack));
    } else {
      UntouchedOfForm(env, a, b, stack, v, r);
    }
  }

  lemma {:induction false} StillOfForm(env: Env, v: Value, plan: Option<Plan>)
    ensures Redact(env, v, plan) == REDACTED || SameForm(v, Redact(env, v, plan))
  {
    if plan.Some? {
      MaskOrForm(env, v, plan.value);
    }
  }

  lemma {:induction false} MaskStaysMask(env: Env, plan: Option<Plan>)
    ensures Redact(env, REDACTED, plan) == REDACTED
  {
    if plan.Some? {
      StaysRedacted(env, plan.value);
    }
  }

  lemma {:induction false} UntouchedOfForm(env: Env, a: Schema, b: Schema, stack: set<ClassId>, v: Value, x: Value)
    requires Untouched(env, a, b) && SameForm(v, x)
    requires (v.Dict? ==> MayBeObject(env, a)) && (v.Sequence() ==> MayBeArray(env, a)) && (OnlyNull(a) ==> v.Null?)
    ensures Redact(env, x, Compile(env, b, stack)) == x
  {
    UntouchedIsInert(env, a, b, x);
    InertKeeps(env, b, stack, x);
  }

  /** The fold over one more arm lays that arm's plan over what it has come to. */
  lemma {:induction false} FoldOneMore(env: Env, arms: seq<Schema>, stack: set<ClassId>, v: Value, n: nat)
    requires n < |arms|
    ensures ApplyAll(env, v, CompileArms(env, arms[..n + 1], stack)) ==
            Redact(env, ApplyAll(env, v, CompileArms(env, arms[..n], stack)), Compile(env, arms[n], stack))
  {
    CompileArmsUpTo(env, arms, stack, n);
    hide Apply, ApplyAll, Compile, CompileArms;
    if Compile(env, arms[n], stack).Some? {
      var m := Member(TagOf(env, arms[n]), Compile(env, arms[n], stack).value);
      ApplyOneMore(env, v, CompileArms(env, arms[..n], stack), m);
    }
  }

  /** Where every other member leaves a value of arm `i` alone, or masks only what the arm's own plan
      masks, the fold is that arm's plan. */
  lemma {:induction false} FoldMembers(env: Env, arms: seq<Schema>, stack: set<ClassId>, v: Value, i: nat, k: nat)
    requires WfSchema(env, UnionOf(arms)) && i < |arms| && k <= |arms| && Fits(env, arms[i], v)
    requires forall j :: 0 <= j < |arms| ==> Quiet(env, arms, stack, i, j)
    ensures var x := ApplyAll(env, v, CompileArms(env, arms[..k], stack));
            if i < k then x == Redact(env, v, Compile(env, arms[i], stack))
            else OnTheWay(env, arms[i], stack, v, x)
  {
    if k == 0 {
      assert CompileArms(env, arms[..0], stack) == [];
    } else {
      var n := k - 1;
      hide Fits, Quiet, ApplyAll, Compile, CompileArms, Redact, OnTheWay, WfSchema;
      FoldMembers(env, arms, stack, v, i, n);
      FoldOneMore(env, arms, stack, v, n);
      var x := ApplyAll(env, v, CompileArms(env, arms[..n], stack));
      if n <= i {
        FoldStep(env, arms, stack, v, x, i, n);
      } else {
        assert OnTheWay(env, arms[i], stack, v, v) by { AtTheStart(env, arms[i], stack, v); }
        FoldStep(env, arms, stack, v, v, i, n);
      }
    }
  }

  lemma {:induction false} AtTheStart(env: Env, a: Schema, stack: set<ClassId>, v: Value)
    ensures OnTheWay(env, a, stack, v, v)
  {}

  /** A fold with a secret arm masks every value that is not null. */
  lemma {:induction false} FoldMasks(env: Env, arms: seq<Schema>, stack: set<ClassId>, v: Value, i: nat, k: nat)
    requires i < k <= |arms| && Secret(arms[i]) && !v.Null?
    ensures ApplyAll(env, v, CompileArms(env, arms[..k], stack)) == REDACTED
  {
    var n := k - 1;
    CompileArmsUpTo(env, arms, stack, n);
    if n == i {
      SecretPlan(env, arms[n], stack);
      MaskLast(env, v, CompileArms(env, arms[..n], stack), TagOf(env, arms[n]));
    } else {
      FoldMasks(env, arms, stack, v, i, n);
      hide Apply, ApplyAll, Compile, CompileArms, Secret;
      if Compile(env, arms[n], stack).Some? {
        var p := Compile(env, arms[n], stack).value;
        ApplyOneMore(env, v, CompileArms(env, arms[..n], stack), Member(TagOf(env, arms[n]), p));
        StaysRedacted(env, p);
      }
    }
  }

  lemma {:induction false} MaskLast(env: Env, v: Value, before: seq<Member>, tag: Value)
    requires !v.Null?
    ensures ApplyAll(env, v, before + [Member(tag, Mask)]) == REDACTED
  {
    ApplyOneMore(env, v, before, Member(tag, Mask));
  }

  lemma {:induction false} TaggedUnion(env: Env, arms: seq<Schema>, stack: set<ClassId>, v: Value, i: nat)
    requires WfEnv(env) && WfSchema(env, UnionOf(arms)) && i < |arms| && !v.Null? && Fits(env, arms[i], v)
    requires UnionTagField(env, arms, stack).Some? && MayBeObject(env, arms[i]) && Core(arms[i]).Struct?
    requires Core(arms[i]).cls in env && env[Core(arms[i]).cls].tagField == UnionTagField(env, arms, stack)
    ensures Redact(env, v, Compile(env, UnionOf(arms), stack)) ==
            if arms[i].Struct? then Redact(env, v, Compile(env, arms[i], stack)) else v
  {
    StructArmTagged(env, arms[i], v);
    TaggedUnionSelects(env, arms, stack, v);
    var tag := env[Core(arms[i]).cls].tag;
    forall k | 0 <= k < |arms| && k != i ensures TagOf(env, arms[k]) != tag {
      if arms[k].Struct? {
        PairSeparable(env, arms, i, k);
        StructsSeparable(env, arms[i], arms[k]);
      }
    }
    hide Apply, CompileArms, Fits;
    if arms[i].Struct? {
      SelectArm(env, arms, stack, tag, i, |arms|);
      assert arms[..|arms|] == arms;
    } else {
      SelectIsAnArm(env, arms, stack, tag);
    }
  }

  lemma {:induction false} StructArmTagged(env: Env, t: Schema, v: Value)
    requires WfEnv(env) && Fits(env, t, v) && MayBeObject(env, t) && Core(t).Struct?
    requires Core(t).cls in env && env[Core(t).cls].tagField.Some?
    ensures var d := env[Core(t).cls];
            d.tag != Null && v.Dict? && d.tagField.value in v.m && v.m[d.tagField.value] == d.tag
  {
    if t.Metadata? {
      StructArmTagged(env, t.inner, v);
    } else {
      assert WfClass(env, env[t.cls]);
    }
  }

  /** A union's plan does to a value of an arm it can tell what that arm's own plan does, or
      masks it whole when some arm is secret and no tag tells them apart. */
  lemma {:induction false} UnionActsAsItsArm(env: Env, arms: seq<Schema>, stack: set<ClassId>, v: Value, i: nat)
    requires WfEnv(env) && WfSchema(env, UnionOf(arms)) && i < |arms| && Fits(env, arms[i], v)
    requires Told(env, arms, stack, i)
    ensures Redact(env, v, Compile(env, UnionOf(arms), stack)) ==
            if !v.Null? && OverMasked(env, arms, stack, i) then REDACTED
            else Redact(env, v, Compile(env, arms[i], stack))
  {
    if v.Null? {
    } else if UnionTagField(env, arms, stack).Some? && MayBeObject(env, arms[i]) {
      TaggedUnion(env, arms, stack, v, i);
    } else {
      FitsForm(env, arms[i], v);
      UntaggedUnionFolds(env, arms, stack, v);
      hide Apply, ApplyAll, Compile, CompileArms, Fits, MayBeObject;
      assert arms[..|arms|] == arms;
      if AnySecret(arms) {
        var j :| 0 <= j < |arms| && Secret(arms[j]);
        FoldMasks(env, arms, stack, v, j, |arms|);
      } else {
        FoldMembers(env, arms, stack, v, i, |arms|);
      }
    }
  }

  // ---- which schemas are covered -----------------------------------------------------------------

  /** The plan compiled for `t` under `stack` reaches every secret: no array-like struct with a
      plan, and no union that cannot tell an arm.  A `lenient` reader asks that only where there
      are secrets to hide. */
  ghost predicate Covered(env: Env, t: Schema, stack: set<ClassId>, lenient: bool)
    decreases env.Keys - stack, t
  {
    (lenient && Clean(env, t)) ||
    match t
    case Leaf | NoneType | Any => true
    case Metadata(secret, inner) => secret || Covered(env, inner, stack, lenient)
    case Struct(c) =>
      && c in env && (env[c].arrayLike ==> Compile(env, t, stack).None?)
      && (c in stack || forall i :: 0 <= i < |env[c].fields| ==>
                                      Covered(env, env[c].fields[i].kind, stack + {c}, lenient))
    case ListOf(item) => Covered(env, item, stack, lenient)
    case DictOf(val) => Covered(env, val, stack, lenient)
    case TupleOf(parts) => forall i :: 0 <= i < |parts| ==> Covered(env, parts[i], stack, lenient)
    case UnionOf(arms) =>
      forall i :: 0 <= i < |arms| ==>
        && Covered(env, arms[i], stack, lenient)
        && (Told(env, arms, stack, i) || (lenient && Clean(env, arms[i])))
  }

  ghost predicate CoveredEnv(env: Env, lenient: bool) {
    forall c :: c in env ==> Covered(env, Struct(c), {}, lenient)
  }

  // ---- structs ------------------------------------------------------------------------------

  lemma {:induction false} FieldPlan(env: Env, fields: seq<Field>, stack: set<ClassId>, k: string)
    requires forall i, j :: 0 <= i < j < |fields| ==> fields[i].name != fields[j].name
    ensures var sub := CompileFields(env, fields, stack);
            && (!Names(fields, k) ==> k !in sub)
            && forall i :: 0 <= i < |fields| && fields[i].name == k ==>
                 match Compile(env, fields[i].kind, stack)
                 case None => k !in sub
                 case Some(p) => k in sub && sub[k] == p
  {
    if fields != [] {
      var n := |fields| - 1;
      assert forall i :: 0 <= i < n ==> fields[..n][i] == fields[i];
      FieldPlan(env, fields[..n], stack, k);
      if Names(fields[..n], k) {
        var i :| 0 <= i < n && fields[..n][i].name == k;
        assert fields[i].name == k;
      }
    }
  }

  /** The plan of the field a key names, or none for a key that names no field. */
  function KeyPlan(env: Env, c: ClassId, stack: set<ClassId>, k: string): Option<Plan>
    requires c in env
  {
    var sub := CompileFields(env, env[c].fields, stack + {c});
    if k in sub then Some(sub[k]) else None
  }

  /** A struct's plan acts key by key, also when it has no plan at all. */
  lemma {:induction false} StructActsByKey(env: Env, c: ClassId, stack: set<ClassId>, v: Value)
    requires c in env && c !in stack && v.Dict?
    ensures Redact(env, v, Compile(env, Struct(c), stack)) ==
            Dict(map k | k in v.m :: Redact(env, v.m[k], KeyPlan(env, c, stack, k)))
  {
    var m := map k | k in v.m :: Redact(env, v.m[k], KeyPlan(env, c, stack, k));
    var r := Redact(env, v, Compile(env, Struct(c), stack));
    var sub := CompileFields(env, env[c].fields, stack + {c});
    if sub == map[] {
      assert m == v.m;
    } else {
      assert r.Dict? && r.m == m;
    }
  }

  /** A recurse node stands for the plan of its class. */
  lemma {:induction false} RecurseActsAsItsClass(env: Env, c: ClassId, stack: set<ClassId>, v: Value)
    requires c in stack && !v.Null?
    ensures Redact(env, v, Compile(env, Struct(c), stack)) == Redact(env, v, CompilePlan(env, c))
  {}

  /** How deep the proof may still unfold: a recurse node first becomes its class's own plan. */
  function Cut(t: Schema, stack: set<ClassId>): nat {
    if t.Struct? && t.cls in stack then 1 else 0
  }

  // ---- containers redact the same when their parts do ------------------------------------------

  lemma {:induction false} ListRedactsByItem(env: Env, item: Schema, stack: set<ClassId>, v: Value, w: Value)
    requires SameKind(v, w)
    requires forall i :: 0 <= i < |v.Elements()| ==>
               Redact(env, v.Elements()[i], Compile(env, item, stack)) ==
               Redact(env, w.Elements()[i], Compile(env, item, stack))
    ensures Redact(env, v, Compile(env, ListOf(item), stack)) ==
            Redact(env, w, Compile(env, ListOf(item), stack))
  {
    var plan := Compile(env, item, stack);
    assert Compile(env, ListOf(item), stack) == if plan.None? then None else Some(OfList(plan.value));
    hide Compile;
    if plan.None? {
      assert v.Elements() == w.Elements();
    } else {
      assert Apply(env, v, OfList(plan.value)).items == Apply(env, w, OfList(plan.value)).items;
    }
  }

  lemma {:induction false} DictActsByValue(env: Env, val: Schema, stack: set<ClassId>, v: Value)
    requires v.Dict?
    ensures Redact(env, v, Compile(env, DictOf(val), stack)) ==
            Dict(map k | k in v.m :: Redact(env, v.m[k], Compile(env, val, stack)))
  {
    var plan := Compile(env, val, stack);
    assert Compile(env, DictOf(val), stack) == if plan.None? then None else Some(OfDict(plan.value));
    hide Compile;
    var m := map k | k in v.m :: Redact(env, v.m[k], plan);
    if plan.None? {
      assert m == v.m;
    } else {
      assert Apply(env, v, OfDict(plan.value)).m == m;
    }
  }

  lemma {:induction false} DictRedactsByValue(env: Env, val: Schema, stack: set<ClassId>, v: Value, w: Value)
    requires v.Dict? && w.Dict? && v.m.Keys == w.m.Keys
    requires forall k :: k in v.m ==>
               Redact(env, v.m[k], Compile(env, val, stack)) ==
               Redact(env, w.m[k], Compile(env, val, stack))
    ensures Redact(env, v, Compile(env, DictOf(val), stack)) ==
            Redact(env, w, Compile(env, DictOf(val), stack))
  {
    DictActsByValue(env, val, stack, v);
    DictActsByValue(env, val, stack, w);
    assert (map k | k in v.m :: Redact(env, v.m[k], Compile(env, val, stack))) ==
           (map k | k in w.m :: Redact(env, w.m[k], Compile(env, val, stack)));
  }

  lemma {:induction false} TupleActsBySlot(env: Env, parts: seq<Schema>, stack: set<ClassId>, v: Value)
    requires v.Sequence() && |v.Elements()| == |parts|
    ensures var r := Redact(env, v, Compile(env, TupleOf(parts), stack));
            && r.Sequence() && |r.Elements()| == |parts|
            && (r.List? || r == v)
            && (Compile(env, TupleOf(parts), stack).Some? ==> r.List?)
            && forall i :: 0 <= i < |parts| ==>
                 r.Elements()[i] == Redact(env, v.Elements()[i], Compile(env, parts[i], stack))
  {
    var plans := CompileParts(env, parts, stack);
    if Compile(env, TupleOf(parts), stack).None? {
      assert forall i :: 0 <= i < |parts| ==> plans[i].None?;
    }
  }

  lemma {:induction false} TupleRedactsBySlot(env: Env, parts: seq<Schema>, stack: set<ClassId>, v: Value, w: Value)
    requires SameKind(v, w) && |v.Elements()| == |parts|
    requires forall i :: 0 <= i < |parts| ==>
               Redact(env, v.Elements()[i], Compile(env, parts[i], stack)) ==
               Redact(env, w.Elements()[i], Compile(env, parts[i], stack))
    ensures Redact(env, v, Compile(env, TupleOf(parts), stack)) ==
            Redact(env, w, Compile(env, TupleOf(parts), stack))
  {
    TupleActsBySlot(env, parts, stack, v);
    TupleActsBySlot(env, parts, stack, w);
    assert Redact(env, v, Compile(env, TupleOf(parts), stack)).Elements() ==
           Redact(env, w, Compile(env, TupleOf(parts), stack)).Elements();
  }

  lemma {:induction false} StructRedactsByKey(env: Env, c: ClassId, stack: set<ClassId>, v: Value, w: Value)
    requires c in env && c !in stack && v.Dict? && w.Dict? && v.m.Keys == w.m.Keys
    requires forall k :: k in v.m ==>
               Redact(env, v.m[k], KeyPlan(env, c, stack, k)) == Redact(env, w.m[k], KeyPlan(env, c, stack, k))
    ensures Redact(env, v, Compile(env, Struct(c), stack)) == Redact(env, w, Compile(env, Struct(c), stack))
  {
    StructActsByKey(env, c, stack, v);
    StructActsByKey(env, c, stack, w);
    assert (map k | k in v.m :: Redact(env, v.m[k], KeyPlan(env, c, stack, k))) ==
           (map k | k in w.m :: Redact(env, w.m[k], KeyPlan(env, c, stack, k)));
  }

  // ---- without a plan -------------------------------------------------------------------------

  function Below(t: Schema, stack: set<ClassId>): set<ClassId> {
    if t.Struct? then stack + {t.cls} else stack
  }

  lemma {:induction false} ChildPlan(env: Env, t: Schema, stack: set<ClassId>, i: nat)
    requires Child(env, t, i).Some? && !(t.Metadata? && t.secret) && !(t.Struct? && t.cls in stack)
    requires Compile(env, Child(env, t, i).value, Below(t, stack)).Some?
    ensures Compile(env, t, stack).Some?
  {
    match t
    case Struct(c) =>
      SomeField(env, env[c].fields, stack + {c}, i);
    case TupleOf(parts) =>
      assert CompileParts(env, parts, stack)[i].Some?;
    case UnionOf(arms) =>
      SomeMember(env, arms, stack, i);
    case _ =>
  }

  lemma {:induction false} SomeField(env: Env, fields: seq<Field>, stack: set<ClassId>, i: nat)
    requires i < |fields| && Compile(env, fields[i].kind, stack).Some?
    ensures CompileFields(env, fields, stack) != map[]
  {
    var n := |fields| - 1;
    if i < n {
      SomeField(env, fields[..n], stack, i);
    }
    if Compile(env, fields[n].kind, stack).Some? {
      assert fields[n].name in CompileFields(env, fields, stack);
    }
  }

  lemma {:induction false} SomeMember(env: Env, arms: seq<Schema>, stack: set<ClassId>, i: nat)
    requires i < |arms| && Compile(env, arms[i], stack).Some?
    ensures CompileArms(env, arms, stack) != []
  {
    if i < |arms| - 1 {
      SomeMember(env, arms[..|arms| - 1], stack, i);
    }
  }

  /** Without a plan no secret is reachable. */
  lemma {:induction false} NoPlanIsClean(env: Env, t: Schema, stack: set<ClassId>)
    requires Compile(env, t, stack).None?
    ensures Clean(env, t)
  {
    forall path: seq<nat> ensures !LeadsToSecret(env, t, path) {
      NoPlanNoSecretAt(env, t, stack, path);
    }
  }

  lemma {:induction false} NoPlanNoSecretAt(env: Env, t: Schema, stack: set<ClassId>, path: seq<nat>)
    requires Compile(env, t, stack).None?
    ensures !LeadsToSecret(env, t, path)
    decreases |path|
  {
    if path != [] && Child(env, t, path[0]).Some? {
      var u := Child(env, t, path[0]).value;
      if Compile(env, u, Below(t, stack)).Some? {
        ChildPlan(env, t, stack, path[0]);
      }
      NoPlanNoSecretAt(env, u, Below(t, stack), path[1..]);
    }
  }

  // ---- main results ---------------------------------------------------------------------------

  /** Non-interference: values that differ only inside non-null secret positions have the same
      redacted view, for every well-formed schema that its plan covers wherever it has secrets,
      and under every class stack. */
  lemma {:induction false} NonInterference(env: Env, t: Schema, stack: set<ClassId>, v: Value, w: Value)
    requires WfEnv(env) && WfSchema(env, t) && Agree(env, t, v, w)
    requires CoveredEnv(env, true) && Covered(env, t, stack, true)
    ensures Redact(env, v, Compile(env, t, stack)) == Redact(env, w, Compile(env, t, stack))
    decreases v, t, Cut(t, stack), 3
  {
    if Clean(env, t) {
      AgreeClean(env, t, v, w);
    } else {
      hide Clean, Covered, CoveredEnv, WfEnv, WfSchema, Redact, Compile;
      match t
      case Leaf | NoneType | Any =>
      case Metadata(_, _) => WrappedDoesNotInterfere(env, t, stack, v, w);
      case Struct(c) => StructDoesNotInterfere(env, c, stack, v, w);
      case ListOf(_) => PartsDoNotInterfere(env, t, stack, v, w);
      case DictOf(_) => PartsDoNotInterfere(env, t, stack, v, w);
      case TupleOf(_) => PartsDoNotInterfere(env, t, stack, v, w);
      case UnionOf(arms) => UnionDoesNotInterfere(env, arms, stack, v, w);
    }
  }

  lemma {:induction false} WrappedDoesNotInterfere(env: Env, t: Schema, stack: set<ClassId>, v: Value, w: Value)
    requires WfEnv(env) && WfSchema(env, t) && Agree(env, t, v, w) && t.Metadata?
    requires CoveredEnv(env, true) && Covered(env, t, stack, true) && !Clean(env, t)
    ensures Redact(env, v, Compile(env, t, stack)) == Redact(env, w, Compile(env, t, stack))
    decreases v, t, 0, 2
  {
    if t.secret {
      AgreeFits(env, t, v, w);
      MaskHidesAll(env, t, stack, v, w);
    } else {
      CoveredInner(env, t, stack);
      hide Clean, Covered, CoveredEnv, WfEnv;
      NonInterference(env, t.inner, stack, v, w);
    }
  }

  lemma {:induction false} MaskHidesAll(env: Env, t: Schema, stack: set<ClassId>, v: Value, w: Value)
    requires t.Metadata? && t.secret && (v.Null? <==> w.Null?)
    ensures Redact(env, v, Compile(env, t, stack)) == Redact(env, w, Compile(env, t, stack))
  {}

  lemma {:induction false} CoveredInner(env: Env, t: Schema, stack: set<ClassId>)
    requires Covered(env, t, stack, true) && !Clean(env, t) && t.Metadata? && !t.secret
    ensures Covered(env, t.inner, stack, true)
  {
    hide Clean;
  }

  lemma {:induction false} CoveredArm(env: Env, arms: seq<Schema>, stack: set<ClassId>, i: nat)
    requires Covered(env, UnionOf(arms), stack, true) && !Clean(env, UnionOf(arms)) && i < |arms|
    ensures Covered(env, arms[i], stack, true) && (Told(env, arms, stack, i) || Clean(env, arms[i]))
  {
    hide Clean, Told;
  }

  lemma {:induction false} PartsDoNotInterfere(env: Env, t: Schema, stack: set<ClassId>, v: Value, w: Value)
    requires WfEnv(env) && WfSchema(env, t) && Agree(env, t, v, w) && (t.ListOf? || t.DictOf? || t.TupleOf?)
    requires CoveredEnv(env, true) && Covered(env, t, stack, true) && !Clean(env, t)
    ensures Redact(env, v, Compile(env, t, stack)) == Redact(env, w, Compile(env, t, stack))
    decreases v, t, 0, 2
  {
    hide Clean, Redact, Compile;
    match t
    case ListOf(item) =>
      forall i | 0 <= i < |v.Elements()|
        ensures Redact(env, v.Elements()[i], Compile(env, item, stack)) ==
                Redact(env, w.Elements()[i], Compile(env, item, stack))
      {
        NonInterference(env, item, stack, v.Elements()[i], w.Elements()[i]);
      }
      ListRedactsByItem(env, item, stack, v, w);
    case DictOf(val) =>
      forall k | k in v.m
        ensures Redact(env, v.m[k], Compile(env, val, stack)) == Redact(env, w.m[k], Compile(env, val, stack))
      {
        NonInterference(env, val, stack, v.m[k], w.m[k]);
      }
      DictRedactsByValue(env, val, stack, v, w);
    case TupleOf(parts) =>
      forall i | 0 <= i < |parts|
        ensures Redact(env, v.Elements()[i], Compile(env, parts[i], stack)) ==
                Redact(env, w.Elements()[i], Compile(env, parts[i], stack))
      {
        NonInterference(env, parts[i], stack, v.Elements()[i], w.Elements()[i]);
      }
      TupleRedactsBySlot(env, parts, stack, v, w);
  }

  /** A class that is not clean and not array-like acts key by key; on the stack it stands for
      its own plan. */
  lemma {:induction false} StructDoesNotInterfere(env: Env, c: ClassId, stack: set<ClassId>, v: Value, w: Value)
    requires WfEnv(env) && Agree(env, Struct(c), v, w)
    requires CoveredEnv(env, true) && Covered(env, Struct(c), stack, true) && !Clean(env, Struct(c))
    ensures Redact(env, v, Compile(env, Struct(c), stack)) == Redact(env, w, Compile(env, Struct(c), stack))
    decreases v, Struct(c), Cut(Struct(c), stack), 2
  {
    var t := Struct(c);
    if env[c].arrayLike {
      NoPlanIsClean(env, t, stack);
    } else if c in stack {
      NonInterference(env, t, {}, v, w);
      RecurseActsAsItsClass(env, c, stack, v);
      RecurseActsAsItsClass(env, c, stack, w);
    } else {
      FieldsDoNotInterfere(env, c, stack, v, w);
      StructRedactsByKey(env, c, stack, v, w);
    }
  }

  lemma {:induction false} FieldsDoNotInterfere(env: Env, c: ClassId, stack: set<ClassId>, v: Value, w: Value)
    requires WfEnv(env) && c in env && !env[c].arrayLike && c !in stack && Agree(env, Struct(c), v, w)
    requires CoveredEnv(env, true) && Covered(env, Struct(c), stack, true) && !Clean(env, Struct(c))
    ensures forall k :: k in v.m ==>
              Redact(env, v.m[k], KeyPlan(env, c, stack, k)) == Redact(env, w.m[k], KeyPlan(env, c, stack, k))
    decreases v, Struct(c), 0, 1
  {
    hide Clean;
    forall k | k in v.m
      ensures Redact(env, v.m[k], KeyPlan(env, c, stack, k)) == Redact(env, w.m[k], KeyPlan(env, c, stack, k))
    {
      assert WfClass(env, env[c]);
      FieldPlan(env, env[c].fields, stack + {c}, k);
      assert OwnKey(env[c], k);
      if Names(env[c].fields, k) {
        var i :| 0 <= i < |env[c].fields| && env[c].fields[i].name == k;
        NonInterference(env, env[c].fields[i].kind, stack + {c}, v.m[k], w.m[k]);
      }
    }
  }

  /** Values of one arm that the union can tell redact alike when that arm's plan redacts them
      alike. */
  lemma {:induction false} UnionLikeItsArm(env: Env, arms: seq<Schema>, stack: set<ClassId>, v: Value, w: Value, i: nat)
    requires WfEnv(env) && WfSchema(env, UnionOf(arms)) && i < |arms| && Told(env, arms, stack, i)
    requires Fits(env, arms[i], v) && Fits(env, arms[i], w) && (v.Null? <==> w.Null?)
    requires Redact(env, v, Compile(env, arms[i], stack)) == Redact(env, w, Compile(env, arms[i], stack))
    ensures Redact(env, v, Compile(env, UnionOf(arms), stack)) == Redact(env, w, Compile(env, UnionOf(arms), stack))
  {
    UnionActsAsItsArm(env, arms, stack, v, i);
    UnionActsAsItsArm(env, arms, stack, w, i);
    hide Told, OverMasked, Compile, Redact, Fits, WfEnv, WfSchema;
  }

  lemma {:induction false} AgreeingArm(env: Env, arms: seq<Schema>, v: Value, w: Value) returns (i: nat)
    requires WfSchema(env, UnionOf(arms)) && Agree(env, UnionOf(arms), v, w)
    ensures i < |arms| && WfSchema(env, arms[i]) && Agree(env, arms[i], v, w)
  {
    i :| 0 <= i < |arms| && Agree(env, arms[i], v, w);
  }

  lemma {:induction false} UnionDoesNotInterfere(env: Env, arms: seq<Schema>, stack: set<ClassId>, v: Value, w: Value)
    requires WfEnv(env) && WfSchema(env, UnionOf(arms)) && Agree(env, UnionOf(arms), v, w)
    requires CoveredEnv(env, true) && Covered(env, UnionOf(arms), stack, true) && !Clean(env, UnionOf(arms))
    ensures Redact(env, v, Compile(env, UnionOf(arms), stack)) ==
            Redact(env, w, Compile(env, UnionOf(arms), stack))
    decreases v, UnionOf(arms), 0, 0
  {
    hide Clean, Told, Compile, Covered, CoveredEnv, WfEnv, Agree, Redact, WfSchema, Fits;
    var i := AgreeingArm(env, arms, v, w);
    CoveredArm(env, arms, stack, i);
    if Clean(env, arms[i]) {
      AgreeClean(env, arms[i], v, w);
    } else {
      NonInterference(env, arms[i], stack, v, w);
      AgreeFits(env, arms[i], v, w);
      UnionLikeItsArm(env, arms, stack, v, w, i);
    }
  }
}
