/** Compiling a schema to a plan, and laying the plan over a value. */
module Redaction {
  import opened Options
  import opened Schemas

  const REDACTED := Str("********")

  /** A compiled plan.  An absent plan is `None`: nothing below is secret.  A member of a union
      keeps its arm's tag, `Null` for an arm without one. */
  datatype Plan =
    | Mask
    | OfStruct(sub: map<string, Plan>)
    | OfList(item: Plan)
    | OfDict(val: Plan)
    | OfTuple(parts: seq<Option<Plan>>)
    | OfUnion(tagField: Option<string>, members: seq<Member>)
    | Recurse(cls: ClassId)

  datatype Member = Member(tag: Value, plan: Plan)

  // ---- _compile ---------------------------------------------------------------------------

  function TagOf(env: Env, t: Schema): Value {
    if t.Struct? && t.cls in env then env[t.cls].tag else Null
  }

  function TagFieldOf(env: Env, t: Schema): Option<string> {
    if t.Struct? && t.cls in env then env[t.cls].tagField else None
  }

  /** The class stack grows inside the finite class environment, so compilation halts. */
  function Compile(env: Env, t: Schema, stack: set<ClassId>): Option<Plan>
    decreases env.Keys - stack, t, 0
  {
    match t
    case Leaf | NoneType | Any => None
    case Metadata(secret, inner) => if secret then Some(Mask) else Compile(env, inner, stack)
    case Struct(c) =>
      if c in stack then Some(Recurse(c))
      else if c !in env then None
      else
        var sub := CompileFields(env, env[c].fields, stack + {c});
        if sub == map[] then None else Some(OfStruct(sub))
    case ListOf(item) =>
      (match Compile(env, item, stack) case None => None case Some(p) => Some(OfList(p)))
    case DictOf(val) =>
      (match Compile(env, val, stack) case None => None case Some(p) => Some(OfDict(p)))
    case TupleOf(parts) =>
      var plans := CompileParts(env, parts, stack);
      if exists i :: 0 <= i < |plans| && plans[i].Some? then Some(OfTuple(plans)) else None
    case UnionOf(arms) =>
      var members := CompileArms(env, arms, stack);
      if members == [] then None else Some(OfUnion(UnionTagField(env, arms, stack), members))
  }

  function CompileFields(env: Env, fields: seq<Field>, stack: set<ClassId>): map<string, Plan>
    decreases env.Keys - stack, fields, 1
  {
    if fields == [] then map[]
    else
      var n := |fields| - 1;
      var rest := CompileFields(env, fields[..n], stack);
      match Compile(env, fields[n].kind, stack)
      case None => rest
      case Some(p) => rest[fields[n].name := p]
  }

  function CompileParts(env: Env, parts: seq<Schema>, stack: set<ClassId>): (plans: seq<Option<Plan>>)
    ensures |plans| == |parts|
    ensures forall i :: 0 <= i < |parts| ==> plans[i] == Compile(env, parts[i], stack)
    decreases env.Keys - stack, parts, 1
  {
    if parts == [] then []
    else
      var n := |parts| - 1;
      CompileParts(env, parts[..n], stack) + [Compile(env, parts[n], stack)]
  }

  function CompileArms(env: Env, arms: seq<Schema>, stack: set<ClassId>): seq<Member>
    decreases env.Keys - stack, arms, 1
  {
    if arms == [] then []
    else
      var n := |arms| - 1;
      var rest := CompileArms(env, arms[..n], stack);
      match Compile(env, arms[n], stack)
      case None => rest
      case Some(p) => rest + [Member(TagOf(env, arms[n]), p)]
  }

  /** The tag field of the last arm that has both a plan and a tag. */
  function UnionTagField(env: Env, arms: seq<Schema>, stack: set<ClassId>): Option<string>
    decreases env.Keys - stack, arms, 1
  {
    if arms == [] then None
    else
      var n := |arms| - 1;
      if Compile(env, arms[n], stack).Some? && TagOf(env, arms[n]) != Null then
        TagFieldOf(env, arms[n])
      else UnionTagField(env, arms[..n], stack)
  }

  function CompilePlan(env: Env, c: ClassId): Option<Plan> {
    Compile(env, Struct(c), {})
  }

  // ---- _apply -----------------------------------------------------------------------------

  /** How many times `_apply` can re-enter on the same value before it must step into it. */
  ghost function Rank(p: Plan): nat {
    match p
    case Mask | OfStruct(_) | OfList(_) | OfDict(_) | OfTuple(_) => 0
    case Recurse(_) => 1
    case OfUnion(_, members) => 1 + MaxOf(set i | 0 <= i < |members| :: Rank(members[i].plan))
  }

  ghost function MembersRank(members: seq<Member>): nat {
    MaxOf(set i | 0 <= i < |members| :: Rank(members[i].plan))
  }

  lemma MemberRankBounded(members: seq<Member>, i: nat)
    requires i < |members|
    ensures Rank(members[i].plan) <= MembersRank(members)
    ensures MembersRank(members[..i]) <= MembersRank(members)
  {
    var s := set j | 0 <= j < |members| :: Rank(members[j].plan);
    assert Rank(members[i].plan) in s && MembersRank(members) == MaxOf(s);
    var before := members[..i];
    var t := set j | 0 <= j < |before| :: Rank(before[j].plan);
    assert t <= s && MembersRank(before) == MaxOf(t);
  }

  lemma UnionRank(tagField: Option<string>, members: seq<Member>)
    ensures Rank(OfUnion(tagField, members)) == 1 + MembersRank(members)
  {
    var s := set j | 0 <= j < |members| :: Rank(members[j].plan);
    assert MembersRank(members) == MaxOf(s);
  }

  /** The first member whose tag equals the value's, if any. */
  function Select(members: seq<Member>, tag: Value): (r: Option<Plan>)
    ensures r.Some? ==> exists i :: 0 <= i < |members| && members[i].plan == r.value
  {
    if members == [] then None
    else
      var n := |members| - 1;
      match Select(members[..n], tag)
      case Some(p) => Some(p)
      case None => if members[n].tag == tag then Some(members[n].plan) else None
  }

  predicate Tagged(tagField: Option<string>, v: Value) {
    v.Dict? && tagField.Some? && tagField.value in v.m
  }

  /** `_apply`.  A union or recurse node re-enters on the same value, and the untagged union
      even on the result of an earlier member; it halts because results are never deeper. */
  function Apply(env: Env, v: Value, p: Plan): (r: Value)
    ensures Depth(r) <= Depth(v)
    ensures r.Null? <==> v.Null?
    decreases Depth(v), Rank(p), 0
  {
    if v.Null? then Null
    else
      match p
      case Mask => REDACTED
      case OfStruct(sub) =>
        if !v.Dict? then v
        else
          var r := Dict(map k | k in v.m ::
                          if k in sub then (EntryIsShallower(v, k); Apply(env, v.m[k], sub[k]))
                          else v.m[k]);
          ShallowEntries(v, r);
          r
      case OfList(item) =>
        if !v.Sequence() then v
        else
          var xs := v.Elements();
          var r := List(seq(|xs|, i requires 0 <= i < |xs| =>
                          (ElementIsShallower(v, i); Apply(env, xs[i], item))));
          ShallowElements(v, r);
          r
      case OfDict(val) =>
        if !v.Dict? then v
        else
          var r := Dict(map k | k in v.m :: (EntryIsShallower(v, k); Apply(env, v.m[k], val)));
          ShallowEntries(v, r);
          r
      case OfTuple(parts) =>
        if !v.Sequence() then v
        else
          var xs := v.Elements();
          var r := List(seq(|xs|, i requires 0 <= i < |xs| =>
                          if i < |parts| && parts[i].Some? then
                            (ElementIsShallower(v, i); Apply(env, xs[i], parts[i].value))
                          else xs[i]));
          ShallowElements(v, r);
          r
      case OfUnion(tagField, members) =>
        UnionRank(tagField, members);
        if Tagged(tagField, v) then
          match Select(members, v.m[tagField.value])
          case None => v
          case Some(q) =>
            var i :| 0 <= i < |members| && members[i].plan == q;
            MemberRankBounded(members, i);
            Apply(env, v, q)
        else ApplyAll(env, v, members)
      case Recurse(c) =>
        match CompilePlan(env, c)
        case None => v
        case Some(q) => Apply(env, v, q)
  }

  /** Best effort on a value without a tag: every member in turn, each on the last's result. */
  function ApplyAll(env: Env, v: Value, members: seq<Member>): (r: Value)
    ensures Depth(r) <= Depth(v)
    ensures r.Null? <==> v.Null?
    decreases Depth(v), MembersRank(members), 1 + |members|
  {
    if members == [] then v
    else
      var n := |members| - 1;
      MemberRankBounded(members, n);
      Apply(env, ApplyAll(env, v, members[..n]), members[n].plan)
  }

  /** `redact` on a builtins copy; an absent plan hands the value back. */
  function Redact(env: Env, v: Value, plan: Option<Plan>): Value {
    match plan
    case None => v
    case Some(p) => Apply(env, v, p)
  }
}
