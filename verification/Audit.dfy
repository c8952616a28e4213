/** Audit jobs and records of `protocol.py`: a job is redacted when it is drained, or at once
    when no queue is used. */
module Audit {
  import opened Filters
  import opened Options
  import opened Schemas
  import opened Redaction
  import opened RedactionProofs

  type Id(==, !new)
  type Name(==, !new)

  datatype Code =
    | INVALID_JSON | INVALID_REQUEST | METHOD_NOT_FOUND | INVALID_PARAMS | INTERNAL_ERROR
    | NOT_AUTHORIZED | REQUEST_FAILED | SESSION_NOT_ESTABLISHED | Chosen(code: int)

  /** A response envelope: an id, and either an error or a result. */
  datatype Response = Failed(id: Option<Id>, code: Code) | Succeeded(id: Option<Id>, result: Value)

  /** The methods of the wire: the control messages, and the registered ones. */
  datatype Target = CancelRequest | ServerInfo | SessionSetup | SessionContinue | SessionClose | Call(name: Name)

  datatype Request = Request(target: Target, id: Option<Id>, params: Value)

  /** What the audit needs of a method: its schemas and its static message. */
  datatype Audited = Audited(accepts: ClassId, gives: Option<ClassId>, message: Option<string>)

  /** The last two say whether `to_builtins` converts the params and the result. */
  datatype Job = Job(
    request: Request, response: Response, audited: Option<Audited>, detail: Option<string>,
    paramsConvert: bool, resultConverts: bool)

  datatype Record = Record(request: Request, response: Response, message: Option<string>)

  /** An empty text counts as none. */
  function Present(text: Option<string>): bool {
    text.Some? && text.value != ""
  }

  function AssembleMessage(base: Option<string>, detail: Option<string>): Option<string> {
    if Present(base) && Present(detail) then Some(base.value + " " + detail.value)
    else if Present(base) then base
    else if Present(detail) then detail
    else None
  }

  function AcceptsPlan(env: Env, audited: Option<Audited>): Option<Plan> {
    if audited.Some? then CompilePlan(env, audited.value.accepts) else None
  }

  function ReturnsPlan(env: Env, audited: Option<Audited>): Option<Plan> {
    if audited.Some? && audited.value.gives.Some? then CompilePlan(env, audited.value.gives.value) else None
  }

  /** `redact` copies to builtins what has a plan, and that may raise. */
  predicate Recordable(env: Env, job: Job) {
    && (AcceptsPlan(env, job.audited).Some? ==> job.paramsConvert)
    && (job.response.Succeeded? && ReturnsPlan(env, job.audited).Some? ==> job.resultConverts)
  }

  /** `_audit_record`, where it does not raise. */
  function RecordOf(env: Env, job: Job): Record {
    var request := job.request.(params := Redact(env, job.request.params, AcceptsPlan(env, job.audited)));
    var response :=
      if job.response.Succeeded? then
        job.response.(result := Redact(env, job.response.result, ReturnsPlan(env, job.audited)))
      else job.response;
    var base := if job.audited.Some? then job.audited.value.message else None;
    Record(request, response, AssembleMessage(base, job.detail))
  }

  function RecordsOf(env: Env, jobs: seq<Job>): seq<Record> {
    seq(|jobs|, i requires 0 <= i < |jobs| => RecordOf(env, jobs[i]))
  }

  lemma {:induction false} OneMoreRecord(env: Env, jobs: seq<Job>, job: Job)
    ensures RecordsOf(env, jobs + [job]) == RecordsOf(env, jobs) + [RecordOf(env, job)]
  {}

  // ---- what is recorded of a sequence of jobs --------------------------------------------------------

  predicate AllRecordable(env: Env, jobs: seq<Job>) {
    forall i :: 0 <= i < |jobs| ==> Recordable(env, jobs[i])
  }

  function CanRecord(env: Env): Job -> bool {
    (job: Job) => Recordable(env, job)
  }

  /** Run inline, each job is on its own: one that raises leaves no record. */
  function Inline(env: Env, jobs: seq<Job>): seq<Record> {
    RecordsOf(env, Filter(jobs, CanRecord(env)))
  }

  lemma {:induction false} InlineOfOne(env: Env, job: Job)
    ensures Inline(env, [job]) == if Recordable(env, job) then [RecordOf(env, job)] else []
  {
    hide Filter, Recordable, RecordOf;
    FilterOfOne(job, CanRecord(env));
  }

  lemma {:induction false} InlineConcat(env: Env, jobs: seq<Job>, more: seq<Job>)
    ensures Inline(env, jobs + more) == Inline(env, jobs) + Inline(env, more)
  {
    FilterConcat(jobs, more, CanRecord(env));
    hide Filter, RecordOf;
    RecordsConcat(env, Filter(jobs, CanRecord(env)), Filter(more, CanRecord(env)));
  }

  lemma {:induction false} RecordsConcat(env: Env, jobs: seq<Job>, more: seq<Job>)
    ensures RecordsOf(env, jobs + more) == RecordsOf(env, jobs) + RecordsOf(env, more)
  {}

  /** The jobs ahead of the first that raises. */
  function BeforeBad(env: Env, jobs: seq<Job>): (good: seq<Job>)
    ensures good <= jobs && AllRecordable(env, good)
  {
    if AllRecordable(env, jobs) then jobs else BeforeBad(env, jobs[..|jobs| - 1])
  }

  /** Drained from the queue, the first job that raises ends the drain thread. */
  function Drained(env: Env, jobs: seq<Job>): seq<Record> {
    RecordsOf(env, BeforeBad(env, jobs))
  }

  /** A queued job is recorded if and only if neither it nor any job before it raises. */
  lemma {:induction false} DrainedExactly(env: Env, jobs: seq<Job>, k: nat)
    requires k < |jobs|
    ensures k < |Drained(env, jobs)| <==> AllRecordable(env, jobs[..k + 1])
    ensures k < |Drained(env, jobs)| ==> Drained(env, jobs)[k] == RecordOf(env, jobs[k])
  {
    BeforeBadReaches(env, jobs, k);
  }

  lemma {:induction false} BeforeBadReaches(env: Env, jobs: seq<Job>, k: nat)
    requires k < |jobs|
    ensures k < |BeforeBad(env, jobs)| <==> AllRecordable(env, jobs[..k + 1])
  {
    if !AllRecordable(env, jobs) {
      var n := |jobs| - 1;
      if k < n {
        BeforeBadReaches(env, jobs[..n], k);
        assert jobs[..n][..k + 1] == jobs[..k + 1];
      } else {
        assert jobs[..k + 1] == jobs;
      }
    }
  }

  /** What follows a job that raises is not drained any more. */
  lemma {:induction false} BeforeBadStops(env: Env, jobs: seq<Job>, more: seq<Job>)
    requires !AllRecordable(env, jobs)
    ensures BeforeBad(env, jobs + more) == BeforeBad(env, jobs)
  {
    if more == [] {
      assert jobs + more == jobs;
    } else {
      var n := |more| - 1;
      var i :| 0 <= i < |jobs| && !Recordable(env, jobs[i]);
      assert (jobs + more)[i] == jobs[i] && (jobs + more)[..|jobs| + n] == jobs + more[..n];
      BeforeBadStops(env, jobs, more[..n]);
    }
  }

  /** No job that could be recorded comes behind one that raises. */
  predicate NoneBehindBad(env: Env, jobs: seq<Job>) {
    forall i, j :: 0 <= i < j < |jobs| && !Recordable(env, jobs[i]) ==> !Recordable(env, jobs[j])
  }

  lemma {:induction false} OneMoreJob(env: Env, jobs: seq<Job>, job: Job)
    ensures AllRecordable(env, jobs + [job]) <==> AllRecordable(env, jobs) && Recordable(env, job)
    ensures NoneBehindBad(env, jobs + [job]) <==>
            NoneBehindBad(env, jobs) && (AllRecordable(env, jobs) || !Recordable(env, job))
  {
    var all := jobs + [job];
    assert all[|jobs|] == job && forall i :: 0 <= i < |jobs| ==> all[i] == jobs[i];
  }

  lemma {:induction false} GoodJobs(env: Env, jobs: seq<Job>)
    ensures |BeforeBad(env, jobs)| <= |Filter(jobs, CanRecord(env))|
    ensures |BeforeBad(env, jobs)| == |Filter(jobs, CanRecord(env))| <==> NoneBehindBad(env, jobs)
    ensures NoneBehindBad(env, jobs) ==> BeforeBad(env, jobs) == Filter(jobs, CanRecord(env))
  {
    if AllRecordable(env, jobs) {
      FilterAll(jobs, CanRecord(env));
    } else {
      var front, job := jobs[..|jobs| - 1], jobs[|jobs| - 1];
      assert jobs == front + [job];
      GoodJobs(env, front);
      OneMoreJob(env, front, job);
      FilterSnoc(front, job, CanRecord(env));
      assert Filter(front, CanRecord(env)) + [] == Filter(front, CanRecord(env));
      hide AllRecordable, NoneBehindBad, Filter, Recordable;
    }
  }

  lemma {:induction false} KeepsAll(env: Env, jobs: seq<Job>)
    ensures |Filter(jobs, CanRecord(env))| == |jobs| <==> AllRecordable(env, jobs)
    ensures AllRecordable(env, jobs) ==> Filter(jobs, CanRecord(env)) == jobs
  {
    FilterAll(jobs, CanRecord(env));
    FilterLength(jobs, CanRecord(env));
    if AllRecordable(env, jobs) {
      forall job | job in jobs ensures CanRecord(env)(job) {}
    } else {
      var i :| 0 <= i < |jobs| && !Recordable(env, jobs[i]);
      assert jobs[i] in jobs && !CanRecord(env)(jobs[i]);
    }
  }

  lemma {:induction false} KeepsGood(env: Env, jobs: seq<Job>)
    ensures |BeforeBad(env, jobs)| == |jobs| <==> AllRecordable(env, jobs)
  {
    if |BeforeBad(env, jobs)| == |jobs| {
      assert BeforeBad(env, jobs) == jobs;
    }
  }

  /** Draining gives the record sequence of inline mode if and only if no job that could be
      recorded comes behind one that raises; and every job is recorded, in either mode, if and
      only if none raises. */
  lemma {:induction false} DrainedIsInlineIff(env: Env, jobs: seq<Job>)
    ensures Drained(env, jobs) == Inline(env, jobs) <==> NoneBehindBad(env, jobs)
    ensures |Inline(env, jobs)| == |jobs| <==> AllRecordable(env, jobs)
    ensures |Drained(env, jobs)| == |jobs| <==> AllRecordable(env, jobs)
    ensures AllRecordable(env, jobs) ==> Inline(env, jobs) == RecordsOf(env, jobs)
  {
    GoodJobs(env, jobs);
    KeepsAll(env, jobs);
    KeepsGood(env, jobs);
    hide NoneBehindBad, Filter, Recordable, RecordOf, AllRecordable, BeforeBad;
  }

  // ---- what a record shows -------------------------------------------------------------------------

  /** Two jobs that differ only inside the secrets of their params and result. */
  ghost predicate SameOutsideSecrets(env: Env, a: Job, b: Job) {
    && a.audited.Some? && b.audited == a.audited && a.detail == b.detail
    && a.audited.value.accepts in env
    && b.request == a.request.(params := b.request.params)
    && Agree(env, Struct(a.audited.value.accepts), a.request.params, b.request.params)
    && if a.response.Failed? then b.response == a.response
       else
         && b.response.Succeeded? && b.response.id == a.response.id
         && match a.audited.value.gives
            case None => a.response.result == b.response.result
            case Some(c) => c in env && Agree(env, Struct(c), a.response.result, b.response.result)
  }

  /** Nobody can tell from the audit record what a secret was, in a request or in a result. */
  lemma {:induction false} AuditHidesSecrets(env: Env, a: Job, b: Job)
    requires WfEnv(env) && SameOutsideSecrets(env, a, b) && CoveredEnv(env, true)
    ensures RecordOf(env, a) == RecordOf(env, b)
  {
    NonInterference(env, Struct(a.audited.value.accepts), {}, a.request.params, b.request.params);
    if a.response.Succeeded? && a.audited.value.gives.Some? {
      NonInterference(env, Struct(a.audited.value.gives.value), {}, a.response.result, b.response.result);
    }
  }

  // ---- the trail ----------------------------------------------------------------------------------

  /** What a poll of the drain thread comes to. */
  datatype Polled = NothingQueued | Ran | Died

  /** The audit trail: `jobs` is everything ever audited, `records` what the handler was run on,
      and `alive` whether the drain thread still runs. */
  class Trail {
    const env: Env
    const useQueue: bool
    var queue: seq<Job>
    var records: seq<Record>
    var alive: bool
    ghost var jobs: seq<Job>

    /** How many jobs have left the queue. */
    ghost function Taken(): int
      reads this
    {
      |jobs| - |queue|
    }

    ghost predicate Valid()
      reads this
    {
      if useQueue then
        && 0 <= Taken() && queue == jobs[Taken()..] && records == Drained(env, jobs[..Taken()])
        && (alive <==> AllRecordable(env, jobs[..Taken()]))
      else alive && queue == [] && records == Inline(env, jobs)
    }

    constructor (env: Env, useQueue: bool)
      ensures Valid() && this.env == env && this.useQueue == useQueue && jobs == [] && records == [] && alive
    {
      this.env, this.useQueue := env, useQueue;
      queue, records, jobs, alive := [], [], [], true;
    }

    /** `_audit`: inline, the redaction may raise, and then there is no record. */
    method Add(job: Job) returns (raised: bool)
      requires Valid()
      modifies this`queue, this`records, this`jobs
      ensures Valid() && jobs == old(jobs) + [job]
      ensures raised <==> !useQueue && !Recordable(env, job)
      ensures records == old(records) + if useQueue || raised then [] else [RecordOf(env, job)]
    {
      ghost var taken := Taken();
      jobs := jobs + [job];
      if useQueue {
        assert jobs[..taken] == old(jobs)[..taken];
        queue := queue + [job];
        return false;
      }
      FilterSnoc(old(jobs), job, CanRecord(env));
      if !Recordable(env, job) {
        assert Filter(old(jobs), CanRecord(env)) + [] == Filter(old(jobs), CanRecord(env));
        return true;
      }
      OneMoreRecord(env, Filter(old(jobs), CanRecord(env)), job);
      records := records + [RecordOf(env, job)];
      raised := false;
    }

    /** `poll_audit` and `run`, as the one drain thread does them: the job is off the queue before
        its redaction can raise. */
    method DrainOne() returns (polled: Polled)
      requires Valid() && alive
      modifies this`queue, this`records, this`alive
      ensures Valid()
      ensures polled.NothingQueued? <==> old(queue) == []
      ensures polled.Died? <==> old(queue) != [] && !Recordable(env, old(queue)[0])
      ensures alive <==> !polled.Died?
      ensures queue == if polled.NothingQueued? then [] else old(queue)[1..]
      ensures records == old(records) + if polled.Ran? then [RecordOf(env, old(queue)[0])] else []
    {
      if queue == [] {
        return NothingQueued;
      }
      var job := queue[0];
      ghost var taken := Taken();
      NextTaken(env, jobs, taken);
      queue := queue[1..];
      if !Recordable(env, job) {
        alive := false;
        return Died;
      }
      records := records + [RecordOf(env, job)];
      polled := Ran;
    }

    /** `_audit_drain` as far as it gets: to the end of the queue, or to the first job that raises.
        Behind that one nothing is ever drained. */
    method Drain()
      requires Valid()
      modifies this`queue, this`records, this`alive
      ensures Valid()
      ensures records == if useQueue then Drained(env, jobs) else Inline(env, jobs)
      ensures useQueue ==> (alive <==> AllRecordable(env, jobs)) && (alive ==> queue == [])
    {
      while alive && queue != []
        invariant Valid()
        decreases |queue|
      {
        var polled := DrainOne();
      }
      if useQueue {
        AllTaken(env, jobs, Taken());
      }
    }
  }

  lemma {:induction false} NextTaken(env: Env, jobs: seq<Job>, k: nat)
    requires k < |jobs| && AllRecordable(env, jobs[..k])
    ensures jobs[k..][0] == jobs[k] && jobs[k..][1..] == jobs[k + 1..]
    ensures AllRecordable(env, jobs[..k + 1]) <==> Recordable(env, jobs[k])
    ensures Drained(env, jobs[..k + 1]) ==
            Drained(env, jobs[..k]) + if Recordable(env, jobs[k]) then [RecordOf(env, jobs[k])] else []
  {
    var before, all := jobs[..k], jobs[..k + 1];
    assert all == before + [jobs[k]] && all[..k] == before;
    OneMoreJob(env, before, jobs[k]);
    OneMoreRecord(env, before, jobs[k]);
    hide AllRecordable, Recordable, RecordOf;
  }

  /** When nothing is left, or the drain thread has died, what was taken decides. */
  lemma {:induction false} AllTaken(env: Env, jobs: seq<Job>, k: nat)
    requires k <= |jobs| && (AllRecordable(env, jobs[..k]) ==> k == |jobs|)
    ensures Drained(env, jobs[..k]) == Drained(env, jobs)
    ensures AllRecordable(env, jobs[..k]) <==> AllRecordable(env, jobs)
  {
    assert jobs == jobs[..k] + jobs[k..];
    if AllRecordable(env, jobs[..k]) {
      assert jobs[..k] == jobs;
    } else {
      BeforeBadStops(env, jobs[..k], jobs[k..]);
      var i :| 0 <= i < k && !Recordable(env, jobs[..k][i]);
      assert !Recordable(env, jobs[i]);
    }
  }
}
