/** Redaction only masks; redacting twice; and the values that escape it. */
module RedactionLimits {
  import opened Options
  import opened Schemas
  import opened Redaction
  import opened RedactionProofs

  // ---- redaction only masks --------------------------------------------------------------------

  /** `w` is `v` with some parts masked and some tuples turned into lists. */
  ghost predicate Coarser(v: Value, w: Value)
    decreases v
  {
    || v == w
    || (w == REDACTED && !v.Null?)
    || (v.Sequence() && w.List? && |v.Elements()| == |w.items| &&
        forall i :: 0 <= i < |v.Elements()| ==> Coarser(v.Elements()[i], w.items[i]))
    || (v.Dict? && w.Dict? && v.m.Keys == w.m.Keys && forall k :: k in v.m ==> Coarser(v.m[k], w.m[k]))
  }

  lemma {:induction false} CoarserTransitive(u: Value, v: Value, w: Value)
    requires Coarser(u, v) && Coarser(v, w)
    ensures Coarser(u, w)
    decreases u
  {
    if u == v || v == w || w == REDACTED || v == REDACTED {
    } else if u.Sequence() {
      forall i | 0 <= i < |u.Elements()| ensures Coarser(u.Elements()[i], w.items[i]) {
        CoarserTransitive(u.Elements()[i], v.items[i], w.items[i]);
      }
    } else {
      forall k | k in u.m ensures Coarser(u.m[k], w.m[k]) {
        CoarserTransitive(u.m[k], v.m[k], w.m[k]);
      }
    }
  }

  lemma {:induction false} CoarserAntisymmetric(v: Value, w: Value)
    requires Coarser(v, w) && Coarser(w, v)
    ensures v == w
    decreases v
  {
    if v.List? && w.List? {
      forall i | 0 <= i < |v.items| ensures v.items[i] == w.items[i] {
        CoarserAntisymmetric(v.items[i], w.items[i]);
      }
      assert v.items == w.items;
    } else if v.Dict? && w.Dict? {
      forall k | k in v.m ensures v.m[k] == w.m[k] {
        CoarserAntisymmetric(v.m[k], w.m[k]);
      }
      assert v.m == w.m;
    }
  }

  /** The plan for the value under a key, and the plan for an element. */
  function AtKey(p: Plan, k: string): Option<Plan>
    requires p.OfStruct? || p.OfDict?
  {
    if p.OfDict? then Some(p.val) else if k in p.sub then Some(p.sub[k]) else None
  }

  function AtIndex(p: Plan, i: nat): Option<Plan>
    requires p.OfList? || p.OfTuple?
  {
    if p.OfList? then Some(p.item) else if i < |p.parts| then p.parts[i] else None
  }

  lemma {:induction false} ActsByKey(env: Env, v: Value, p: Plan)
    requires v.Dict? && (p.OfStruct? || p.OfDict?)
    ensures var r := Apply(env, v, p);
            r.Dict? && r.m.Keys == v.m.Keys && forall k :: k in v.m ==> r.m[k] == Redact(env, v.m[k], AtKey(p, k))
  {}

  lemma {:induction false} ActsByIndex(env: Env, v: Value, p: Plan)
    requires v.Sequence() && (p.OfList? || p.OfTuple?)
    ensures var r := Apply(env, v, p);
            && r.List? && |r.items| == |v.Elements()|
            && forall i :: 0 <= i < |r.items| ==> r.items[i] == Redact(env, v.Elements()[i], AtIndex(p, i))
  {}

  /** Whatever the plan, redaction masks parts and lists tuples and does nothing else. */
  lemma {:induction false} ApplyOnlyMasks(env: Env, v: Value, p: Plan)
    ensures Coarser(v, Apply(env, v, p))
    decreases Depth(v), Rank(p), 1
  {
    if !v.Null? {
      match p
      case Mask =>
      case OfStruct(_) => KeysOnlyMasked(env, v, p);
      case OfDict(_) => KeysOnlyMasked(env, v, p);
      case OfList(_) => ItemsOnlyMasked(env, v, p);
      case OfTuple(_) => ItemsOnlyMasked(env, v, p);
      case OfUnion(tagField, members) =>
        UnionRank(tagField, members);
        if Tagged(tagField, v) {
          if Select(members, v.m[tagField.value]).Some? {
            var i :| 0 <= i < |members| && members[i].plan == Select(members, v.m[tagField.value]).value;
            MemberRankBounded(members, i);
            ApplyOnlyMasks(env, v, members[i].plan);
          }
        } else {
          FoldOnlyMasks(env, v, members);
        }
      case Recurse(c) =>
        if CompilePlan(env, c).Some? {
          RecursePlan(env, c);
          ApplyOnlyMasks(env, v, CompilePlan(env, c).value);
        }
    }
  }

  lemma {:induction false} KeysOnlyMasked(env: Env, v: Value, p: Plan)
    requires p.OfStruct? || p.OfDict?
    ensures Coarser(v, Apply(env, v, p))
    decreases Depth(v), Rank(p), 0
  {
    if v.Dict? {
      ActsByKey(env, v, p);
      hide Apply;
      forall k | k in v.m ensures Coarser(v.m[k], Apply(env, v, p).m[k]) {
        if AtKey(p, k).Some? {
          EntryIsShallower(v, k);
          ApplyOnlyMasks(env, v.m[k], AtKey(p, k).value);
        }
      }
    }
  }

  lemma {:induction false} ItemsOnlyMasked(env: Env, v: Value, p: Plan)
    requires p.OfList? || p.OfTuple?
    ensures Coarser(v, Apply(env, v, p))
    decreases Depth(v), Rank(p), 0
  {
    if v.Sequence() {
      ActsByIndex(env, v, p);
      hide Apply;
      forall i | 0 <= i < |v.Elements()| ensures Coarser(v.Elements()[i], Apply(env, v, p).items[i]) {
        if AtIndex(p, i).Some? {
          ElementIsShallower(v, i);
          ApplyOnlyMasks(env, v.Elements()[i], AtIndex(p, i).value);
        }
      }
    }
  }

  lemma {:induction false} FoldOnlyMasks(env: Env, v: Value, members: seq<Member>)
    ensures Coarser(v, ApplyAll(env, v, members))
    decreases Depth(v), MembersRank(members), 2 + |members|
  {
    if members != [] {
      var n := |members| - 1;
      MemberRankBounded(members, n);
      FoldOnlyMasks(env, v, members[..n]);
      var before := ApplyAll(env, v, members[..n]);
      ApplyOnlyMasks(env, before, members[n].plan);
      CoarserTransitive(v, before, ApplyAll(env, v, members));
    }
  }

  /** A fold that changes nothing changes nothing at any member. */
  lemma {:induction false} StillFold(env: Env, v: Value, members: seq<Member>, i: nat)
    requires i < |members| && ApplyAll(env, v, members) == v
    ensures Apply(env, v, members[i].plan) == v
    decreases |members|
  {
    var n := |members| - 1;
    var before := ApplyAll(env, v, members[..n]);
    FoldOnlyMasks(env, v, members[..n]);
    ApplyOnlyMasks(env, before, members[n].plan);
    CoarserAntisymmetric(v, before);
    if i < n {
      StillFold(env, v, members[..n], i);
    }
  }

  predicate AllStill(env: Env, v: Value, members: seq<Member>) {
    forall i :: 0 <= i < |members| ==> Apply(env, v, members[i].plan) == v
  }

  lemma {:induction false} OneMoreStill(env: Env, v: Value, members: seq<Member>)
    requires members != [] && AllStill(env, v, members[..|members| - 1])
    requires Apply(env, v, members[|members| - 1].plan) == v
    ensures AllStill(env, v, members)
  {
    hide Apply;
    var n := |members| - 1;
    forall i | 0 <= i < n ensures Apply(env, v, members[i].plan) == v {
      assert members[..n][i] == members[i];
    }
  }

  lemma {:induction false} FoldOfStill(env: Env, v: Value, members: seq<Member>)
    requires AllStill(env, v, members)
    ensures ApplyAll(env, v, members) == v
  {
    if members != [] {
      FoldOfStill(env, v, members[..|members| - 1]);
    }
  }

  // ---- redacting twice -----------------------------------------------------------------------------

  predicate PlainTag(tag: Value) {
    tag.Null? || tag.Atom? || (tag.Str? && tag != REDACTED)
  }

  /** No class is tagged with the mask itself. */
  predicate PlainTags(env: Env) {
    forall c :: c in env ==> PlainTag(env[c].tag)
  }

  /** The members of every union in the plan have such tags. */
  predicate PlainPlan(p: Plan) {
    match p
    case Mask | Recurse(_) => true
    case OfStruct(sub) => forall k :: k in sub ==> PlainPlan(sub[k])
    case OfList(item) => PlainPlan(item)
    case OfDict(val) => PlainPlan(val)
    case OfTuple(parts) => forall i :: 0 <= i < |parts| && parts[i].Some? ==> PlainPlan(parts[i].value)
    case OfUnion(_, members) =>
      forall i :: 0 <= i < |members| ==> PlainTag(members[i].tag) && PlainPlan(members[i].plan)
  }

  predicate PlainMembers(members: seq<Member>) {
    forall i :: 0 <= i < |members| ==> PlainTag(members[i].tag) && PlainPlan(members[i].plan)
  }

  lemma {:induction false} CompileIsPlain(env: Env, t: Schema, stack: set<ClassId>)
    requires PlainTags(env)
    ensures Compile(env, t, stack).Some? ==> PlainPlan(Compile(env, t, stack).value)
    decreases env.Keys - stack, t, 0
  {
    match t
    case Leaf | NoneType | Any =>
    case Metadata(_, inner) => CompileIsPlain(env, inner, stack);
    case Struct(c) =>
      if c in env && c !in stack {
        FieldsArePlain(env, env[c].fields, stack + {c});
      }
    case ListOf(item) => CompileIsPlain(env, item, stack);
    case DictOf(val) => CompileIsPlain(env, val, stack);
    case TupleOf(parts) =>
      forall i | 0 <= i < |parts|
        ensures Compile(env, parts[i], stack).Some? ==> PlainPlan(Compile(env, parts[i], stack).value)
      {
        CompileIsPlain(env, parts[i], stack);
      }
    case UnionOf(arms) => ArmsArePlain(env, arms, stack);
  }

  lemma {:induction false} FieldsArePlain(env: Env, fields: seq<Field>, stack: set<ClassId>)
    requires PlainTags(env)
    ensures PlainPlan(OfStruct(CompileFields(env, fields, stack)))
    decreases env.Keys - stack, fields, 1
  {
    if fields != [] {
      var n := |fields| - 1;
      FieldsArePlain(env, fields[..n], stack);
      CompileIsPlain(env, fields[n].kind, stack);
    }
  }

  lemma {:induction false} ArmsArePlain(env: Env, arms: seq<Schema>, stack: set<ClassId>)
    requires PlainTags(env)
    ensures PlainMembers(CompileArms(env, arms, stack))
    decreases env.Keys - stack, arms, 1
  {
    if arms != [] {
      var n := |arms| - 1;
      ArmsArePlain(env, arms[..n], stack);
      CompileIsPlain(env, arms[n], stack);
    }
  }

  lemma {:induction false} SelectIsAMember(members: seq<Member>, tag: Value)
    ensures Select(members, tag).Some? ==>
              exists i :: 0 <= i < |members| && members[i].tag == tag && members[i].plan == Select(members, tag).value
  {
    if members != [] {
      var n := |members| - 1;
      SelectIsAMember(members[..n], tag);
      forall i | 0 <= i < n ensures members[..n][i] == members[i] {}
    }
  }

  /** A tag below another value is that value, or the mask, which no member has. */
  lemma {:induction false} SelectCoarser(members: seq<Member>, x: Value, y: Value)
    requires PlainMembers(members) && Coarser(x, y)
    ensures Select(members, y) == Select(members, x) || Select(members, y).None?
  {
    SelectIsAMember(members, y);
  }

  /** A value that a plan leaves alone is left alone also after more of it is masked. */
  lemma {:induction false} StillCoarser(env: Env, v: Value, w: Value, p: Plan)
    requires PlainTags(env) && PlainPlan(p) && Apply(env, v, p) == v && Coarser(v, w)
    ensures Apply(env, w, p) == w
    decreases Depth(v), Rank(p), 3
  {
    if w == REDACTED {
      StaysRedacted(env, p);
    } else if v != w {
      match p
      case Mask =>
      case OfStruct(_) => KeysStillCoarser(env, v, w, p);
      case OfDict(_) => KeysStillCoarser(env, v, w, p);
      case OfList(_) => ItemsStillCoarser(env, v, w, p);
      case OfTuple(_) => ItemsStillCoarser(env, v, w, p);
      case OfUnion(_, _) => UnionStillCoarser(env, v, w, p);
      case Recurse(c) =>
        if CompilePlan(env, c).Some? {
          RecursePlan(env, c);
          CompileIsPlain(env, Struct(c), {});
          StillCoarser(env, v, w, CompilePlan(env, c).value);
        }
    }
  }

  lemma {:induction false} CoarserByKey(v: Value, w: Value)
    requires Coarser(v, w) && v.Dict? && w != REDACTED && v != w
    ensures w.Dict? && w.m.Keys == v.m.Keys && forall k :: k in v.m ==> Coarser(v.m[k], w.m[k])
  {}

  lemma {:induction false} PlainAtKey(p: Plan, k: string)
    requires PlainPlan(p) && (p.OfStruct? || p.OfDict?)
    ensures AtKey(p, k).Some? ==> PlainPlan(AtKey(p, k).value)
  {}

  lemma {:induction false} FlatStill(env: Env, w: Value, p: Plan)
    requires if p.OfStruct? || p.OfDict? then !w.Dict? else (p.OfList? || p.OfTuple?) && !w.Sequence()
    ensures Apply(env, w, p) == w
  {}

  lemma {:induction false} KeysStillCoarser(env: Env, v: Value, w: Value, p: Plan)
    requires PlainTags(env) && PlainPlan(p) && Apply(env, v, p) == v && Coarser(v, w) && (p.OfStruct? || p.OfDict?)
    requires w != REDACTED && v != w
    ensures Apply(env, w, p) == w
    decreases Depth(v), Rank(p), 2
  {
    if v.Dict? {
      CoarserByKey(v, w);
      hide Apply, PlainTags, PlainPlan, Coarser, Depth, Rank;
      DictStillCoarser(env, v, w, p);
    } else {
      FlatStill(env, w, p);
    }
  }

  lemma {:induction false} DictStillCoarser(env: Env, v: Value, w: Value, p: Plan)
    requires PlainTags(env) && PlainPlan(p) && Apply(env, v, p) == v && (p.OfStruct? || p.OfDict?)
    requires v.Dict? && w.Dict? && v.m.Keys == w.m.Keys && forall k :: k in v.m ==> Coarser(v.m[k], w.m[k])
    ensures Apply(env, w, p) == w
    decreases Depth(v), Rank(p), 1
  {
    ActsByKey(env, v, p);
    ActsByKey(env, w, p);
    hide Apply, Redact, PlainTags, PlainPlan, Coarser, AtKey, Depth, Rank;
    forall k | k in w.m ensures Apply(env, w, p).m[k] == w.m[k] {
      KeyStillCoarser(env, v, w.m[k], p, k);
    }
    SameEntries(Apply(env, w, p), w);
  }

  lemma {:induction false} KeyStillCoarser(env: Env, v: Value, y: Value, p: Plan, k: string)
    requires PlainTags(env) && PlainPlan(p) && (p.OfStruct? || p.OfDict?) && v.Dict? && k in v.m && Coarser(v.m[k], y)
    requires Redact(env, v.m[k], AtKey(p, k)) == v.m[k]
    ensures Redact(env, y, AtKey(p, k)) == y
    decreases Depth(v), Rank(p), 0
  {
    if AtKey(p, k).Some? {
      EntryIsShallower(v, k);
      PlainAtKey(p, k);
      hide Apply, PlainTags, PlainPlan, Coarser, Depth, Rank;
      StillCoarser(env, v.m[k], y, AtKey(p, k).value);
    }
  }

  lemma {:induction false} ItemsStillCoarser(env: Env, v: Value, w: Value, p: Plan)
    requires PlainTags(env) && PlainPlan(p) && Apply(env, v, p) == v && Coarser(v, w) && (p.OfList? || p.OfTuple?)
    requires w != REDACTED && v != w
    ensures Apply(env, w, p) == w
    decreases Depth(v), Rank(p), 0
  {
    if v.Sequence() {
      ActsByIndex(env, v, p);
      ActsByIndex(env, w, p);
      hide Apply, PlainTags;
      forall i | 0 <= i < |w.items| ensures Apply(env, w, p).items[i] == w.items[i] {
        if AtIndex(p, i).Some? {
          ElementIsShallower(v, i);
          assert v.Elements()[i] == Redact(env, v.Elements()[i], AtIndex(p, i));
          StillCoarser(env, v.Elements()[i], w.items[i], AtIndex(p, i).value);
        }
      }
      assert Apply(env, w, p).items == w.items;
    } else {
      FlatStill(env, w, p);
    }
  }

  lemma {:induction false} UnionStillCoarser(env: Env, v: Value, w: Value, p: Plan)
    requires PlainTags(env) && p.OfUnion? && PlainPlan(p) && Apply(env, v, p) == v && Coarser(v, w)
    requires w != REDACTED && v != w
    ensures Apply(env, w, p) == w
    decreases Depth(v), Rank(p), 0
  {
    var members := p.members;
    UnionRank(p.tagField, members);
    if Tagged(p.tagField, v) {
      var x, y := v.m[p.tagField.value], w.m[p.tagField.value];
      SelectCoarser(members, x, y);
      if Select(members, y).Some? {
        var i :| 0 <= i < |members| && members[i].plan == Select(members, x).value;
        MemberRankBounded(members, i);
        StillCoarser(env, v, w, members[i].plan);
      }
    } else {
      forall i | 0 <= i < |members| ensures Apply(env, w, members[i].plan) == w {
        StillFold(env, v, members, i);
        MemberRankBounded(members, i);
        StillCoarser(env, v, w, members[i].plan);
      }
      FoldOfStill(env, w, members);
    }
  }

  lemma {:induction false} AllStillCoarser(env: Env, v: Value, w: Value, members: seq<Member>)
    requires PlainTags(env) && PlainMembers(members) && Coarser(v, w)
    requires AllStill(env, v, members)
    ensures AllStill(env, w, members)
  {
    hide Apply, Coarser, PlainTags, PlainPlan;
    forall i | 0 <= i < |members| ensures Apply(env, w, members[i].plan) == w {
      StillCoarser(env, v, w, members[i].plan);
    }
  }

  /** Redacting twice is redacting once, for every plan and every value, conforming or not. */
  lemma {:induction false} RedactTwice(env: Env, v: Value, p: Plan)
    requires PlainTags(env) && PlainPlan(p)
    ensures Apply(env, Apply(env, v, p), p) == Apply(env, v, p)
    decreases Depth(v), Rank(p), 1
  {
    if !v.Null? {
      match p
      case Mask =>
      case OfStruct(_) => KeysTwice(env, v, p);
      case OfDict(_) => KeysTwice(env, v, p);
      case OfList(_) => ItemsTwice(env, v, p);
      case OfTuple(_) => ItemsTwice(env, v, p);
      case OfUnion(_, _) => UnionTwice(env, v, p);
      case Recurse(c) =>
        if CompilePlan(env, c).Some? {
          RecursePlan(env, c);
          CompileIsPlain(env, Struct(c), {});
          RedactTwice(env, v, CompilePlan(env, c).value);
        }
    }
  }

  lemma {:induction false} KeysTwice(env: Env, v: Value, p: Plan)
    requires PlainTags(env) && PlainPlan(p) && (p.OfStruct? || p.OfDict?)
    ensures Apply(env, Apply(env, v, p), p) == Apply(env, v, p)
    decreases Depth(v), Rank(p), 0
  {
    if v.Dict? {
      var r := Apply(env, v, p);
      ActsByKey(env, v, p);
      ActsByKey(env, r, p);
      hide Apply, PlainTags;
      forall k | k in r.m ensures Apply(env, r, p).m[k] == r.m[k] {
        if AtKey(p, k).Some? {
          EntryIsShallower(v, k);
          RedactTwice(env, v.m[k], AtKey(p, k).value);
        }
      }
      assert Apply(env, r, p).m == r.m;
    }
  }

  lemma {:induction false} ItemsTwice(env: Env, v: Value, p: Plan)
    requires PlainTags(env) && PlainPlan(p) && (p.OfList? || p.OfTuple?)
    ensures Apply(env, Apply(env, v, p), p) == Apply(env, v, p)
    decreases Depth(v), Rank(p), 0
  {
    if v.Sequence() {
      var r := Apply(env, v, p);
      ActsByIndex(env, v, p);
      ActsByIndex(env, r, p);
      hide Apply, PlainTags;
      forall i | 0 <= i < |r.items| ensures Apply(env, r, p).items[i] == r.items[i] {
        if AtIndex(p, i).Some? {
          ElementIsShallower(v, i);
          RedactTwice(env, v.Elements()[i], AtIndex(p, i).value);
        }
      }
      assert Apply(env, r, p).items == r.items;
    }
  }

  lemma {:induction false} UnionTwice(env: Env, v: Value, p: Plan)
    requires PlainTags(env) && PlainPlan(p) && p.OfUnion? && !v.Null?
    ensures Apply(env, Apply(env, v, p), p) == Apply(env, v, p)
    decreases Depth(v), Rank(p), 0
  {
    var members, r := p.members, Apply(env, v, p);
    UnionRank(p.tagField, members);
    ApplyOnlyMasks(env, v, p);
    if r == REDACTED {
      StaysRedacted(env, p);
    } else if Tagged(p.tagField, v) {
      var x, y := v.m[p.tagField.value], r.m[p.tagField.value];
      SelectCoarser(members, x, y);
      if Select(members, x).Some? {
        var i :| 0 <= i < |members| && members[i].plan == Select(members, x).value;
        MemberRankBounded(members, i);
        RedactTwice(env, v, members[i].plan);
      }
    } else {
      FoldTwice(env, v, members);
      FoldOfStill(env, r, members);
    }
  }

  /** After the fold every member leaves its result alone. */
  lemma {:induction false} FoldTwice(env: Env, v: Value, members: seq<Member>)
    requires PlainTags(env) && PlainMembers(members)
    ensures AllStill(env, ApplyAll(env, v, members), members)
    decreases Depth(v), MembersRank(members), 2 + |members|
  {
    if members != [] {
      var n := |members| - 1;
      MemberRankBounded(members, n);
      FoldTwice(env, v, members[..n]);
      var before, r := ApplyAll(env, v, members[..n]), ApplyAll(env, v, members);
      assert r == Apply(env, before, members[n].plan);
      hide Apply, ApplyAll, PlainTags, Coarser, AllStill;
      RedactTwice(env, before, members[n].plan);
      ApplyOnlyMasks(env, before, members[n].plan);
      AllStillCoarser(env, before, r, members[..n]);
      OneMoreStill(env, r, members);
    }
  }

  /** So is redacting any value with any compiled plan. */
  lemma {:induction false} RedactionSettles(env: Env, t: Schema, stack: set<ClassId>, v: Value)
    requires PlainTags(env)
    ensures var plan := Compile(env, t, stack); Redact(env, Redact(env, v, plan), plan) == Redact(env, v, plan)
  {
    CompileIsPlain(env, t, stack);
    if Compile(env, t, stack).Some? {
      RedactTwice(env, v, Compile(env, t, stack).value);
    }
  }

  // ---- values that escape ------------------------------------------------------------------------

  lemma {:induction false} ArmIsAMember(env: Env, arms: seq<Schema>, stack: set<ClassId>, i: nat) returns (k: nat)
    requires i < |arms| && Compile(env, arms[i], stack).Some?
    ensures var members := CompileArms(env, arms, stack);
            k < |members| && members[k].plan == Compile(env, arms[i], stack).value
  {
    var n := |arms| - 1;
    if i == n {
      k := |CompileArms(env, arms[..n], stack)|;
    } else {
      k := ArmIsAMember(env, arms[..n], stack, i);
    }
  }

  /** The values of class `c` carry no tag of another arm. */
  lemma {:induction false} TagIsNoArms(env: Env, arms: seq<Schema>, i: nat, c: ClassId, k: nat)
    requires WfEnv(env) && WfSchema(env, UnionOf(arms)) && i < |arms| && arms[i].Metadata? && k < |arms|
    requires c in env && env[c].tagField.Some? && Struct(c) in Atoms(arms[i])
    ensures TagOf(env, arms[k]) != env[c].tag
  {
    assert WfClass(env, env[c]);
    if arms[k].Struct? {
      PairSeparable(env, arms, i, k);
      assert Discernible(env, Struct(c), arms[k]);
    }
  }

  /** An arm that is wrapped in metadata, a struct or a union of structs, keeps no tag in the plan.
      The values of its class `c` go through as they are when a bare tagged struct arm of the union
      has a plan, and only then do those of them escape that the arm's own plan would have changed. */
  lemma {:induction false} WrappedArmEscapes(
    env: Env, arms: seq<Schema>, stack: set<ClassId>, i: nat, c: ClassId, v: Value)
    requires WfEnv(env) && WfSchema(env, UnionOf(arms)) && i < |arms| && arms[i].Metadata?
    requires c in env && !env[c].arrayLike && Struct(c) in Atoms(arms[i]) && TagPresent(env[c], v)
    ensures var r := Redact(env, v, Compile(env, UnionOf(arms), stack));
            && (BareArmPlanned(env, arms, stack) ==> r == v)
            && (Redact(env, v, Compile(env, arms[i], stack)) != v ==> (r == v <==> BareArmPlanned(env, arms, stack)))
  {
    TagFieldOfUnion(env, arms, stack);
    if BareArmPlanned(env, arms, stack) {
      var j :| 0 <= j < |arms| && Compile(env, arms[j], stack).Some? && TagOf(env, arms[j]) != Null &&
               TagFieldOf(env, arms[j]) == UnionTagField(env, arms, stack);
      PairSeparable(env, arms, i, j);
      assert Discernible(env, Struct(c), arms[j]);
      forall k | 0 <= k < |arms| ensures TagOf(env, arms[k]) != env[c].tag {
        TagIsNoArms(env, arms, i, c, k);
      }
      TaggedUnionSelects(env, arms, stack, v);
      SelectIsAnArm(env, arms, stack, env[c].tag);
    } else {
      UntaggedUnionFolds(env, arms, stack, v);
      if Redact(env, v, Compile(env, arms[i], stack)) != v && ApplyAll(env, v, CompileArms(env, arms, stack)) == v {
        var k := ArmIsAMember(env, arms, stack, i);
        StillFold(env, v, CompileArms(env, arms, stack), k);
      }
    }
  }
}
