/** Jobs whose redaction raises: what is lost with them, without a queue and with one. */
module AuditLimits {
  import opened Options
  import opened Schemas
  import opened Redaction
  import RedactionLeaks
  import opened Audit
  import opened Lifecycles
  import opened Dispatch

  /** A result class with a secret field beside an unrestricted one: `convert` lets anything into
      the second, and the plan for the first has the whole result copied. */
  function SecretBesideAny(): Env {
    map["R" := ClassDef(None, Null, false, [Field("p", Metadata(true, Leaf)), Field("x", Any)]),
        "A" := ClassDef(None, Null, false, [])]
  }

  lemma {:induction false} SecretBesideAnyPlans()
    ensures CompilePlan(SecretBesideAny(), "R").Some? && CompilePlan(SecretBesideAny(), "A").None?
  {
    var env := SecretBesideAny();
    assert "A"[0] != "R"[0];
    assert env["R"].fields == [Field("p", Metadata(true, Leaf)), Field("x", Any)] && env["A"].fields == [];
    RedactionLeaks.StructPlan(env, "R", {}, Mask);
  }

  function Plain(kind: Kind): Method {
    Method(kind, false, true, Audited("A", Some("R"), None))
  }

  function Open(name: Name, kind: Kind, queued: bool): Config {
    Config(true, false, None, None, false, map[name := Plain(kind)], SecretBesideAny(), queued)
  }

  /** A handler's result converts to its class and does not convert to builtins: without a queue
      the handler has run, and there is no reply and no record. */
  lemma {:induction false} UnconvertibleResultIsLost(l: Lifecycle, name: Name, id: Id, a: Answers)
    requires !l.CLOSED? && ParamsFit(a) && a.ran.Gave? && a.converted.Some? && a.checked.Kept? && !a.resultConverts
    ensures var c, w := Open(name, Normal(true), false), Envelope(Uuid(id), true, Some(Call(name)));
            && Effects(c, l, w, a) == [Handled] && WireReply(c, l, w, a) == Raised
            && JobsOwed(c, l, w, a) == [JobOwed(c, w, a)] && Inline(c.env, JobsOwed(c, l, w, a)) == []
  {
    var c, w := Open(name, Normal(true), false), Envelope(Uuid(id), true, Some(Call(name)));
    SecretBesideAnyPlans();
    InlineOfOne(c.env, JobOwed(c, w, a));
    hide CompilePlan, SecretBesideAny, Inline;
  }

  /** The same for params that a validator replaced by something that does not convert: here it
      is the plan of the params that has them copied. */
  lemma {:induction false} UnconvertibleParamsAreLost(l: Lifecycle, name: Name, id: Id, a: Answers)
    requires !l.CLOSED? && a.params.Some? && a.accepts.Replaced? && a.ran.Gave? && a.checked.Kept? && !a.paramsConvert
    ensures var guarded := Method(Normal(true), false, true, Audited("R", None, None));
            var c := Config(true, false, None, None, false, map[name := guarded], SecretBesideAny(), false);
            var w := Envelope(Uuid(id), true, Some(Call(name)));
            && Effects(c, l, w, a) == [Handled] && WireReply(c, l, w, a) == Raised
            && JobsOwed(c, l, w, a) == [JobOwed(c, w, a)] && Inline(c.env, JobsOwed(c, l, w, a)) == []
  {
    var guarded := Method(Normal(true), false, true, Audited("R", None, None));
    var c := Config(true, false, None, None, false, map[name := guarded], SecretBesideAny(), false);
    var w := Envelope(Uuid(id), true, Some(Call(name)));
    SecretBesideAnyPlans();
    InlineOfOne(c.env, JobOwed(c, w, a));
    hide CompilePlan, SecretBesideAny, Inline;
  }

  /** A transfer whose connection does its part and whose final result does not convert: without a
      queue there is no reply and no record. */
  lemma {:induction false} UnconvertibleTransferIsLost(
    l: Lifecycle, name: Name, id: Id, a: Answers, next: Answers)
    requires !l.CLOSED? && ParamsFit(a) && a.ran.Gave? && a.interim
    requires next.ran.Gave? && next.converted.Some? && next.checked.Kept? && !next.resultConverts
    ensures var c, w := Open(name, Transfer(false, false), false), Envelope(Uuid(id), true, Some(Call(name)));
            var link := Link(true, Some(Dispatch.Unix), true, true, NoFrame);
            && TransferReply(c, l, w, a, link, next).None?
            && TransferJobs(c, l, w, a, link, next) == [FinalJob(c, w, a, next)]
            && Inline(c.env, TransferJobs(c, l, w, a, link, next)) == []
  {
    var c, w := Open(name, Transfer(false, false), false), Envelope(Uuid(id), true, Some(Call(name)));
    SecretBesideAnyPlans();
    InlineOfOne(c.env, FinalJob(c, w, a, next));
    hide CompilePlan, SecretBesideAny, Inline;
  }

  /** With a queue one such job costs every later record too. */
  lemma {:induction false} QueueLosesTheRest(env: Env, good: seq<Job>, bad: Job, more: seq<Job>)
    requires AllRecordable(env, good) && !Recordable(env, bad)
    ensures Drained(env, good + [bad] + more) == RecordsOf(env, good)
    ensures AllRecordable(env, more) ==>
              Inline(env, good + [bad] + more) == RecordsOf(env, good) + RecordsOf(env, more)
  {
    OneMoreJob(env, good, bad);
    assert (good + [bad])[..|good|] == good;
    BeforeBadStops(env, good + [bad], more);
    InlineConcat(env, good + [bad], more);
    InlineConcat(env, good, [bad]);
    InlineOfOne(env, bad);
    DrainedIsInlineIff(env, good);
    DrainedIsInlineIff(env, more);
    assert RecordsOf(env, good) + [] == RecordsOf(env, good);
  }
}
