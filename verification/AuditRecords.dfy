/** What an audit record holds of its job. */
module AuditRecords {
  import opened Options
  import opened Schemas
  import opened Redaction
  import opened RedactionProofs
  import opened RedactionMeaning
  import opened Audit

  predicate Given(text: Option<string>) {
    text.Some? && |text.value| > 0
  }

  /** A record keeps the method, the ids and a failure of its job, and everything that has no plan.
      Its message is the method's static text and the detail, joined by a blank when neither is
      empty. */
  lemma {:induction false} RecordShows(env: Env, job: Job)
    ensures var r := RecordOf(env, job);
            && r.request.target == job.request.target && r.request.id == job.request.id
            && ((job.audited.Some? ==> CompilePlan(env, job.audited.value.accepts).None?) ==>
                  r.request.params == job.request.params)
            && r.response.id == job.response.id && (r.response.Failed? <==> job.response.Failed?)
            && (job.response.Failed? ==> r.response.code == job.response.code)
            && (job.response.Succeeded?
                && (job.audited.Some? && job.audited.value.gives.Some? ==>
                      CompilePlan(env, job.audited.value.gives.value).None?) ==>
                  r.response.result == job.response.result)
    ensures var message := RecordOf(env, job).message;
            var text := if job.audited.Some? then job.audited.value.message else None;
            && (message.Some? <==> Given(text) || Given(job.detail))
            && (Given(text) && Given(job.detail) ==> message.value == text.value + " " + job.detail.value)
            && (Given(text) && !Given(job.detail) ==> message == text)
            && (!Given(text) && Given(job.detail) ==> message == job.detail)
  {
    hide CompilePlan;
  }

  /** The value is one of its class. */
  ghost predicate Viewed(env: Env, c: ClassId, v: Value) {
    c in env && Conforms(env, Struct(c), v)
  }

  /** Where the schemas' plans reach their secrets, a record shows exactly the schema's own view of
      the params and of the result, up to tuples that become lists. */
  lemma {:induction false} RecordShowsViews(env: Env, job: Job)
    requires WfEnv(env) && StrictEnv(env) && CoveredEnv(env, false) && job.audited.Some?
    ensures var r, audited := RecordOf(env, job), job.audited.value;
            && (Viewed(env, audited.accepts, job.request.params) ==>
                  Listed(r.request.params) == Listed(View(env, Struct(audited.accepts), job.request.params)))
            && (job.response.Succeeded? && audited.gives.Some?
                && Viewed(env, audited.gives.value, job.response.result) ==>
                  && r.response.Succeeded?
                  && Listed(r.response.result) == Listed(View(env, Struct(audited.gives.value), job.response.result)))
  {
    var audited := job.audited.value;
    if Viewed(env, audited.accepts, job.request.params) {
      PlanComputesView(env, Struct(audited.accepts), {}, job.request.params);
    }
    if job.response.Succeeded? && audited.gives.Some? && Viewed(env, audited.gives.value, job.response.result) {
      PlanComputesView(env, Struct(audited.gives.value), {}, job.response.result);
    }
  }
}
