/** The imperative half of `redaction.py`: the plan cache and the in-place overlay. */
module Redactors {
  import opened Options
  import opened Schemas
  import opened Redaction

  class Redactor {
    const env: Env
    var cache: map<ClassId, Option<Plan>>

    /** Every cached plan is the plan of its class. */
    ghost predicate Valid()
      reads this
    {
      forall c :: c in cache ==> cache[c] == CompilePlan(env, c)
    }

    constructor (env: Env)
      ensures Valid() && this.env == env && cache == map[]
    {
      this.env := env;
      cache := map[];
    }

    /** The first locked block of `compile_plan`. */
    method Lookup(c: ClassId) returns (hit: Option<Option<Plan>>)
      requires Valid()
      ensures hit.Some? <==> c in cache
      ensures hit.Some? ==> hit.value == CompilePlan(env, c)
    {
      hit := if c in cache then Some(cache[c]) else None;
    }

    /** The second locked block; another thread may have stored the same plan in between. */
    method Store(c: ClassId, plan: Option<Plan>)
      requires Valid() && plan == CompilePlan(env, c)
      modifies this
      ensures Valid() && cache == old(cache)[c := plan]
    {
      cache := cache[c := plan];
    }

    method CachedPlan(c: ClassId) returns (plan: Option<Plan>)
      requires Valid()
      modifies this
      ensures Valid() && plan == CompilePlan(env, c)
      ensures cache == old(cache)[c := plan]
    {
      var hit := Lookup(c);
      if hit.Some? {
        return hit.value;
      }
      plan := Compile(env, Struct(c), {});
      Store(c, plan);
    }

    /** `_apply`: the struct branch writes into the copy, the untagged union folds over its
        members, and a recurse node goes through the cache. */
    method Overlay(value: Value, p: Plan) returns (r: Value)
      requires Valid()
      modifies this
      ensures Valid() && r == Apply(env, value, p)
      decreases Depth(value), Rank(p), 3
    {
      if value.Null? {
        return Null;
      }
      match p
      case Mask => r := REDACTED;
      case OfStruct(_) => r := OverlayStruct(value, p);
      case OfList(_) => r := OverlayItems(value, p);
      case OfTuple(_) => r := OverlayItems(value, p);
      case OfDict(_) => r := OverlayValues(value, p);
      case OfUnion(_, _) =>
        if Tagged(p.tagField, value) {
          r := OverlaySelected(value, p);
        } else {
          r := OverlayEach(value, p);
        }
      case Recurse(c) =>
        var plan := CachedPlan(c);
        if plan.Some? {
          r := Overlay(value, plan.value);
        } else {
          r := value;
        }
    }

    /** A tagged value takes the first member with its tag. */
    method OverlaySelected(value: Value, p: Plan) returns (r: Value)
      requires Valid() && p.OfUnion? && Tagged(p.tagField, value)
      modifies this
      ensures Valid() && r == Apply(env, value, p)
      decreases Depth(value), Rank(p), 0
    {
      var members, tag, i := p.members, value.m[p.tagField.value], 0;
      UnionRank(p.tagField, members);
      while i < |members|
        invariant 0 <= i <= |members| && Valid() && Select(members[..i], tag) == None
      {
        assert members[..i + 1][..i] == members[..i];
        if members[i].tag == tag {
          SelectFirst(members, tag, i);
          MemberRankBounded(members, i);
          r := Overlay(value, members[i].plan);
          return;
        }
        i := i + 1;
      }
      assert members[..i] == members;
      r := value;
    }

    /** On any other value every member is laid over the last one's result. */
    method OverlayEach(value: Value, p: Plan) returns (r: Value)
      requires Valid() && p.OfUnion? && !value.Null? && !Tagged(p.tagField, value)
      modifies this
      ensures Valid() && r == Apply(env, value, p)
      decreases Depth(value), Rank(p), 0
    {
      UnionRank(p.tagField, p.members);
      r := OverlayMembers(value, p.members);
    }

    method OverlayMembers(value: Value, members: seq<Member>) returns (r: Value)
      requires Valid()
      modifies this
      ensures Valid() && r == ApplyAll(env, value, members)
      decreases Depth(value), MembersRank(members), 4
    {
      var i := 0;
      r := value;
      while i < |members|
        invariant 0 <= i <= |members| && Valid()
        invariant r == ApplyAll(env, value, members[..i])
      {
        MemberRankBounded(members, i);
        assert members[..i + 1][..i] == members[..i];
        r := Overlay(r, members[i].plan);
        i := i + 1;
      }
      assert members[..i] == members;
    }

    method OverlayStruct(value: Value, p: Plan) returns (r: Value)
      requires Valid() && p.OfStruct? && !value.Null?
      modifies this
      ensures Valid() && r == Apply(env, value, p)
      decreases Depth(value), 0, 0
    {
      if !value.Dict? {
        return value;
      }
      var m, todo := value.m, p.sub.Keys;
      while todo != {}
        invariant Valid() && todo <= p.sub.Keys && m.Keys == value.m.Keys
        invariant forall k :: k in m ==>
                    m[k] == if k in p.sub && k !in todo then Apply(env, value.m[k], p.sub[k]) else value.m[k]
        decreases todo
      {
        var k :| k in todo;
        if k in m {
          EntryIsShallower(value, k);
          var x := Overlay(m[k], p.sub[k]);
          m := m[k := x];
        }
        todo := todo - {k};
      }
      r := Dict(m);
      assert m == Apply(env, value, p).m;
    }

    method OverlayItems(value: Value, p: Plan) returns (r: Value)
      requires Valid() && (p.OfList? || p.OfTuple?) && !value.Null?
      modifies this
      ensures Valid() && r == Apply(env, value, p)
      decreases Depth(value), 0, 2
    {
      if !value.Sequence() {
        return value;
      }
      ghost var goal := ItemsApplied(env, value, p);
      var out := OverlayElements(value, p, goal);
      r := List(out);
    }

    method OverlayElements(value: Value, p: Plan, ghost goal: seq<Value>) returns (out: seq<Value>)
      requires Valid() && (p.OfList? || p.OfTuple?) && value.Sequence() && |goal| == |value.Elements()|
      requires forall i :: 0 <= i < |goal| ==> goal[i] == ApplyAt(env, value, p, i)
      modifies this
      ensures Valid() && out == goal
      decreases Depth(value), 0, 1
    {
      out := [];
      while |out| < |value.Elements()|
        invariant |out| <= |goal| && Valid()
        invariant forall i :: 0 <= i < |out| ==> out[i] == goal[i]
      {
        var x := OverlayElement(value, p, |out|);
        out := out + [x];
      }
    }

    method OverlayElement(value: Value, p: Plan, i: nat) returns (x: Value)
      requires Valid() && (p.OfList? || p.OfTuple?) && value.Sequence() && i < |value.Elements()|
      modifies this
      ensures Valid() && x == ApplyAt(env, value, p, i)
      decreases Depth(value), 0, 0
    {
      ElementIsShallower(value, i);
      x := value.Elements()[i];
      if p.OfList? {
        x := Overlay(x, p.item);
      } else if i < |p.parts| && p.parts[i].Some? {
        x := Overlay(x, p.parts[i].value);
      }
    }

    method OverlayValues(value: Value, p: Plan) returns (r: Value)
      requires Valid() && p.OfDict? && !value.Null?
      modifies this
      ensures Valid() && r == Apply(env, value, p)
      decreases Depth(value), 0, 1
    {
      if !value.Dict? {
        return value;
      }
      ghost var goal := ValuesApplied(env, value, p);
      var out := OverlayEntries(value, p, goal);
      r := Dict(out);
    }

    method OverlayEntries(value: Value, p: Plan, ghost goal: map<string, Value>) returns (out: map<string, Value>)
      requires Valid() && p.OfDict? && value.Dict? && goal.Keys == value.m.Keys
      requires forall k :: k in goal ==> goal[k] == Apply(env, value.m[k], p.val)
      modifies this
      ensures Valid() && out == goal
      decreases Depth(value), 0, 0
    {
      var todo := value.m.Keys;
      out := map[];
      while todo != {}
        invariant Valid() && todo <= goal.Keys && out.Keys == goal.Keys - todo
        invariant forall k :: k in out ==> out[k] == goal[k]
        decreases todo
      {
        var k :| k in todo;
        EntryIsShallower(value, k);
        var x := Overlay(value.m[k], p.val);
        out := out[k := x];
        todo := todo - {k};
      }
    }
  }

  /** What a list's plan, or the plan of slot `i` of a tuple, makes of element `i`. */
  function ApplyAt(env: Env, v: Value, p: Plan, i: nat): Value
    requires v.Sequence() && (p.OfList? || p.OfTuple?) && i < |v.Elements()|
  {
    var x := v.Elements()[i];
    if p.OfList? then Apply(env, x, p.item)
    else if i < |p.parts| && p.parts[i].Some? then Apply(env, x, p.parts[i].value)
    else x
  }

  lemma ItemsApplied(env: Env, v: Value, p: Plan) returns (items: seq<Value>)
    requires v.Sequence() && (p.OfList? || p.OfTuple?)
    ensures Apply(env, v, p) == List(items) && |items| == |v.Elements()|
    ensures forall i :: 0 <= i < |items| ==> items[i] == ApplyAt(env, v, p, i)
  {
    items := Apply(env, v, p).items;
  }

  lemma ValuesApplied(env: Env, v: Value, p: Plan) returns (m: map<string, Value>)
    requires v.Dict? && p.OfDict?
    ensures Apply(env, v, p) == Dict(m) && m.Keys == v.m.Keys
    ensures forall k :: k in m ==> m[k] == Apply(env, v.m[k], p.val)
  {
    m := Apply(env, v, p).m;
  }

  lemma SelectFirst(members: seq<Member>, tag: Value, i: nat)
    requires i < |members| && members[i].tag == tag && Select(members[..i], tag) == None
    ensures Select(members, tag) == Some(members[i].plan)
  {
    var n := |members| - 1;
    if i < n {
      assert members[..n][..i] == members[..i];
      SelectFirst(members[..n], tag, i);
    }
  }
}
