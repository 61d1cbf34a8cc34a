/** BulkOps::WorkJob (lib/bulk_ops/work_job.rb): the background job that
    creates or updates one work, records its progress on a work proxy and,
    in its `after_perform` block, finalises a completed work. Every outside
    service is an input: the proxy the store finds, the search index, the
    durable store, the actor, the uploaded-file table. */
module WorkJob {
  import opened RubyValues
  import opened Collaborators
  import opened WorkResolution
  import opened AttributeDefaults
  import opened Finaliser

  const INITIALIZING := Str("Initializing the job")
  const MISSING_PROXY_PREFIX := "Cannot find work proxy with id: "

  /** The proxy writes of the "starting" update: none unless a proxy is
      already bound to the job instance. */
  function StartEffects(bound: WorkProxy?): (t: seq<Effect>)
    ensures bound == null <==> t == []
    ensures bound != null ==> t == [SaveOf(Starting, INITIALIZING)]
  {
    if bound == null then [] else [SaveOf(Starting, INITIALIZING)]
  }

  /** The proxy a job instance has bound, as a frame. */
  function Bound(p: WorkProxy?): (s: set<WorkProxy>)
    ensures p == null <==> s == {}
  {
    if p == null then {} else {p}
  }

  /** The state `perform` leaves once a proxy `p` is bound, the log reads
      `before` and `define_work` gave `r`. */
  ghost predicate DispatchSpec(job: Job, p: WorkProxy, before: seq<Effect>, userEmail: string,
                               r: Resolution, runningText: string, actor: ActorOutcome,
                               outcome: Outcome)
    reads job, p
  {
    // an indexed work the store cannot load: job_error, and stop
    && (r.action == Declined ==>
          outcome == Returned && job.status == Some(JobError) && r.reported.Some?
          && p.status == JobError && p.message == MessageHash(r.reported.value)
          && job.effects == before + [SaveOf(JobError, MessageHash(r.reported.value))])
    // otherwise "running" is recorded, then the action is dispatched
    && (r.action != Declined ==>
          ActionSpec(job, p, before, userEmail, r.action, r.assigns, runningText, actor, outcome))
  }

  /** The state `perform` leaves after `define_work` gave the truthy
      `action` and left `dispatchedWork` in `@work`: "running" is recorded, then
      the actor is sent `action`, and its return value ends in "complete". */
  ghost predicate ActionSpec(job: Job, p: WorkProxy, before: seq<Effect>, userEmail: string,
                             action: WorkAction, dispatchedWork: Option<Work>, runningText: string,
                             actor: ActorOutcome, outcome: Outcome)
    reads job, p
  {
    var running := before + [UserLookup(userEmail), SaveOf(Running, Str(runningText))];
    && (action.Built? ==>
          outcome == Raised(SendTargetNotSymbol) && job.status == Some(Running)
          && job.work == dispatchedWork && p.status == Running
          && p.message == Str(runningText) && job.effects == running)
    && (!action.Built? && actor.Raises? ==>
          outcome == Raised(ActorFailed) && job.status == Some(Running)
          && job.work == dispatchedWork && p.status == Running
          && p.message == Str(runningText)
          && job.effects == running + [Dispatched(action)])
    && (!action.Built? && actor.Returns? ==>
          outcome == Returned && job.status == Some(Complete)
          && job.work == Some(actor.after) && p.status == Complete
          && p.message == (if Truthy(actor.result) then actor.result else Str(runningText))
          && job.effects == running + [Dispatched(action), SaveOf(Complete, actor.result)])
  }

  class Job {
    /** `@status` (attr_accessor): the last status this instance recorded. */
    var status: Option<Status>
    /** `@work`: the object being created or updated. */
    var work: Option<Work>
    /** `@work_proxy`: the proxy record, once looked up. */
    var workProxy: WorkProxy?
    /** The calls this instance has made on outside services, in order. */
    var effects: seq<Effect>

    constructor ()
      ensures status.None? && work.None? && workProxy == null && effects == []
    {
      status := None;
      work := None;
      workProxy := null;
      effects := [];
    }

    /** `update_status stat, message` (lines 100-106): always records `stat`
        on the instance; writes the proxy only when one is bound, and its
        message only when `message` is truthy. */
    method UpdateStatus(stat: Status, message: Value) returns (saved: bool)
      modifies this`status, this`effects, Bound(workProxy)`status, Bound(workProxy)`message
      ensures status == Some(stat)
      ensures saved <==> workProxy != null
      ensures workProxy == null ==> effects == old(effects)
      ensures workProxy != null ==>
                effects == old(effects) + [SaveOf(stat, message)]
                && workProxy.status == stat
                && workProxy.message == (if Truthy(message) then message else old(workProxy.message))
    {
      status := Some(stat);
      if workProxy == null {
        return false;
      }
      var atts := SaveOf(stat, message);
      workProxy.Update(stat, atts.message);
      effects := effects + [atts];
      saved := true;
    }

    /** `report_error message` (lines 91-93): status "job_error" with the
        message wrapped in the hash `{message: message}`, which is truthy
        and so always written. */
    method ReportError(text: string) returns (saved: bool)
      modifies this`status, this`effects, Bound(workProxy)`status, Bound(workProxy)`message
      ensures status == Some(JobError)
      ensures saved <==> workProxy != null
      ensures workProxy == null ==> effects == old(effects)
      ensures workProxy != null ==>
                effects == old(effects) + [ProxySaved(JobError, Some(MessageHash(text)))]
                && workProxy.status == JobError && workProxy.message == MessageHash(text)
    {
      saved := UpdateStatus(JobError, MessageHash(text));
    }

    /** `perform` (lines 45-63). `found` is what `BulkOps::WorkProxy.find`
        returns for `workProxyId`; `index` and `store` stand for the search
        index and the durable store; `runningText` is the clock-dependent
        "running" message; `actor` is what the create/update actor does.
        `resolver` picks the `define_work` body: Ruby binds the later one
        (lines 108-111), which is `Simple`; `Resolving` is the body at lines
        68-81 that the later definition replaces. `workClass` and
        `userEmail` only reach the class lookup and the user lookup. */
    method Perform(workClass: string, userEmail: string, attributes: AttributeHash,
                   workProxyId: string, visibility: Value, found: WorkProxy?,
                   resolver: Resolver, index: set<string>, store: map<string, seq<string>>,
                   runningText: string, actor: ActorOutcome)
      returns (outcome: Outcome)
      modifies this, attributes`entries, Bound(workProxy)`status, Bound(workProxy)`message,
               Bound(found)`status, Bound(found)`message
      // a job instance that already recorded "complete" does nothing at all
      ensures old(status) == Some(Complete) ==>
                outcome == Returned && unchanged(this) && unchanged(attributes)
                && (found != null ==> unchanged(found))
                && (old(workProxy) != null ==> unchanged(old(workProxy)))
      // otherwise the preamble fills the defaults and binds the looked-up proxy;
      // a proxy bound by an earlier run sees only the "starting" write
      ensures old(status) != Some(Complete) ==>
                attributes.entries == DefaultAttributes(old(attributes.entries), visibility)
                && workProxy == found
                && (old(workProxy) != null && old(workProxy) != found ==>
                      old(workProxy).status == Starting && old(workProxy).message == INITIALIZING)
      // missing proxy: job_error on the instance only, and nothing after the lookup
      ensures old(status) != Some(Complete) && found == null ==>
                outcome == Returned && status == Some(JobError) && work == old(work)
                && effects == old(effects) + StartEffects(old(workProxy)) + [ProxyLookup(workProxyId)]
      ensures old(status) != Some(Complete) && found != null ==>
                var r := DefineWork(resolver, true, old(found.workId), index, store);
                var before := old(effects) + StartEffects(old(workProxy)) + [ProxyLookup(workProxyId)];
                DispatchSpec(this, found, before, userEmail, r, runningText, actor, outcome)
                && (r.action == Declined ==> work == old(work))
    {
      if status == Some(Complete) {
        return Returned;
      }
      Begin(attributes, workProxyId, visibility, found);
      if workProxy == null {
        var _ := ReportError(MISSING_PROXY_PREFIX + workProxyId);
        return Returned;
      }
      assert effects == old(effects) + StartEffects(old(workProxy)) + [ProxyLookup(workProxyId)];
      assert workProxy.workId == old(found.workId);
      outcome := Dispatch(userEmail, resolver, index, store, runningText, actor);
    }

    /** Lines 47-50 of `perform`: "starting" (written only to a proxy an
        earlier run left bound), the attribute defaults, and the proxy lookup. */
    method Begin(attributes: AttributeHash, workProxyId: string, visibility: Value, found: WorkProxy?)
      modifies this`status, this`effects, this`workProxy, attributes`entries,
               Bound(workProxy)`status, Bound(workProxy)`message
      ensures status == Some(Starting) && workProxy == found
      ensures attributes.entries == DefaultAttributes(old(attributes.entries), visibility)
      ensures effects == old(effects) + StartEffects(old(workProxy)) + [ProxyLookup(workProxyId)]
      ensures old(workProxy) != null ==>
                old(workProxy).status == Starting && old(workProxy).message == INITIALIZING
    {
      var _ := UpdateStatus(Starting, INITIALIZING);
      FillDefaults(attributes, visibility);
      effects := effects + [ProxyLookup(workProxyId)];
      workProxy := found;
    }

    /** Lines 48-49 of `perform`: the visibility and the default title,
        written into the caller's hash. */
    static method FillDefaults(attributes: AttributeHash, visibility: Value)
      modifies attributes`entries
      ensures attributes.entries == DefaultAttributes(old(attributes.entries), visibility)
    {
      if Present(visibility) {
        attributes.entries := attributes.entries["visibility" := visibility];
      }
      if Blank(Get(attributes.entries, "title")) {
        attributes.entries := attributes.entries["title" := UNTITLED];
      }
    }

    /** Lines 56-62 of `perform`, once a proxy is bound: `define_work`; unless
        it declined, the user lookup, "running", and the dispatch to the
        actor, whose return value becomes the "complete" message. */
    method Dispatch(userEmail: string, resolver: Resolver, index: set<string>,
                    store: map<string, seq<string>>, runningText: string, actor: ActorOutcome)
      returns (outcome: Outcome)
      requires workProxy != null
      modifies this`status, this`effects, this`work, workProxy`status, workProxy`message
      ensures workProxy == old(workProxy)
      ensures DefineWork(resolver, true, workProxy.workId, index, store).action == Declined ==> work == old(work)
      ensures DispatchSpec(this, workProxy, old(effects), userEmail,
                           DefineWork(resolver, true, workProxy.workId, index, store),
                           runningText, actor, outcome)
    {
      var r := DefineWork(resolver, true, workProxy.workId, index, store);
      if r.assigns.Some? {
        work := r.assigns;
      }
      if r.reported.Some? {
        var _ := ReportError(r.reported.value);
      }
      if !ActionTruthy(r.action) {
        return Returned;
      }
      outcome := RunAction(userEmail, r.action, runningText, actor);
    }

    /** Lines 58-62 of `perform`, with the truthy `action` `define_work`
        returned: the user lookup, "running", then `actor.send(action, env)`. */
    method RunAction(userEmail: string, action: WorkAction, runningText: string, actor: ActorOutcome)
      returns (outcome: Outcome)
      requires workProxy != null && ActionTruthy(action)
      modifies this`status, this`effects, this`work, workProxy`status, workProxy`message
      ensures workProxy == old(workProxy)
      ensures ActionSpec(this, workProxy, old(effects), userEmail, action, old(work),
                         runningText, actor, outcome)
    {
      effects := effects + [UserLookup(userEmail)];
      var _ := UpdateStatus(Running, Str(runningText));
      if action.Built? {
        // `actor.send(work_action, env)` with an object, not a symbol
        return Raised(SendTargetNotSymbol);
      }
      effects := effects + [Dispatched(action)];
      match actor
      case Raises =>
        return Raised(ActorFailed);
      case Returns(result, after) =>
        work := Some(after);
        var _ := UpdateStatus(Complete, result);
        return Returned;
    }

    /** The `after_perform` block (lines 9-43), run after `perform` returns
        normally. `uploads` is the uploaded-file table; `failing` the names
        whose `destroy!` raises. */
    method AfterPerform(uploads: UploadedFiles, failing: set<string>) returns (outcome: Outcome)
      modifies this`status, this`effects, uploads`names,
               Bound(workProxy)`status, Bound(workProxy)`message, Bound(workProxy)`workId,
               Bound(workProxy)`hold
      // no work, or a work without an id: "error", and nothing else
      ensures old(work).None? || old(work).value.id.None? ==>
                outcome == Returned && status == Some(Error) && unchanged(uploads)
                && (workProxy == null ==> effects == old(effects))
                && (workProxy != null ==>
                      effects == old(effects) + [SaveOf(Error, Bool(false))]
                      && workProxy.status == Error && workProxy.message == old(workProxy.message)
                      && workProxy.workId == old(workProxy.workId) && workProxy.hold == old(workProxy.hold))
      // a work with an id but no proxy: `work_id=` on nil raises before anything happens
      ensures old(work).Some? && old(work).value.id.Some? && workProxy == null ==>
                outcome == Raised(NilProxy) && status == old(status) && effects == old(effects)
                && unchanged(uploads)
      // success: work_id and "complete", every relationship in order, the upload
      // cleanup, the hold lifted, then the operation check when it applies
      ensures old(work).Some? && old(work).value.id.Some? && workProxy != null ==>
                var labels := old(work).value.fileSetLabels;
                outcome == Returned && status == Some(Complete)
                && workProxy.workId == old(work).value.id && workProxy.status == Complete
                && workProxy.message == old(workProxy.message) && !workProxy.hold
                && uploads.names == RunCleanup(labels, old(uploads.names), failing).remaining
                && effects == old(effects) + SuccessTrace(workProxy.relationships, labels,
                                                          old(uploads.names), failing,
                                                          workProxy.operation)
    {
      if work.None? || work.value.id.None? {
        var _ := UpdateStatus(Error, Bool(false));
        return Returned;
      }
      if workProxy == null {
        return Raised(NilProxy);
      }
      outcome := Finalise(uploads, failing);
    }

    /** The success branch of the `after_perform` block (lines 15-41). */
    method Finalise(uploads: UploadedFiles, failing: set<string>) returns (outcome: Outcome)
      requires work.Some? && work.value.id.Some? && workProxy != null
      modifies this`status, this`effects, uploads`names,
               workProxy`status, workProxy`message, workProxy`workId, workProxy`hold
      ensures outcome == Returned && status == Some(Complete)
      ensures workProxy.workId == work.value.id && workProxy.status == Complete && !workProxy.hold
      ensures workProxy.message == old(workProxy.message)
      ensures uploads.names == RunCleanup(work.value.fileSetLabels, old(uploads.names), failing).remaining
      ensures effects == old(effects) + SuccessTrace(workProxy.relationships, work.value.fileSetLabels,
                                                     old(uploads.names), failing, workProxy.operation)
    {
      var w := work.value;
      workProxy.workId := w.id;
      var _ := UpdateStatus(Complete, Bool(false));
      ghost var saved := effects;
      assert saved == old(effects) + [SaveOf(Complete, Bool(false))];
      ResolveRelationships();
      ghost var resolved := effects;
      DeleteUploads(w.fileSetLabels, uploads, failing);
      ghost var cleaned := effects;
      workProxy.LiftHold();
      effects := effects + [HoldLifted];
      if workProxy.operation.Some? && workProxy.operation.value.respondsToCheckIfFinished {
        effects := effects + [CheckedIfFinished(workProxy.operation.value)];
      }
      assert effects == cleaned + [HoldLifted] + FinishCheck(workProxy.operation);
      outcome := Returned;
    }

    /** Lines 19-21: `resolve!` on every relationship of the proxy, in order. */
    method ResolveRelationships()
      requires workProxy != null
      modifies this`effects
      ensures effects == old(effects) + ResolveEffects(workProxy.relationships)
    {
      var rels := workProxy.relationships;
      var i := 0;
      while i < |rels|
        invariant 0 <= i <= |rels|
        invariant effects == old(effects) + ResolveEffects(rels[..i])
      {
        assert rels[..i + 1][..i] == rels[..i];
        effects := effects + [Resolved(rels[i])];
        i := i + 1;
      }
      assert rels[..|rels|] == rels;
    }

    /** Lines 24-32: for each file-set label, destroy the uploaded file of
        that name if there is one; a `destroy!` that raises (`failing`) is
        rescued with a warning and the loop goes on. */
    method DeleteUploads(labels: seq<string>, uploads: UploadedFiles, failing: set<string>)
      modifies this`effects, uploads`names
      ensures uploads.names == RunCleanup(labels, old(uploads.names), failing).remaining
      ensures effects == old(effects) + RunCleanup(labels, old(uploads.names), failing).trace
    {
      var i := 0;
      while i < |labels|
        invariant 0 <= i <= |labels|
        invariant uploads.names == RunCleanup(labels[..i], old(uploads.names), failing).remaining
        invariant effects == old(effects) + RunCleanup(labels[..i], old(uploads.names), failing).trace
      {
        assert labels[..i + 1][..i] == labels[..i];
        var name := labels[i];
        // `Hyrax::UploadedFile.find_by(file: fileset.label)`
        if name in uploads.names {
          if name in failing {
            // `destroy!` raised; the rescue only logs a warning
            effects := effects + [DestroyFailed(name)];
          } else {
            uploads.names := uploads.names - {name};
            effects := effects + [Destroyed(name)];
          }
        }
        i := i + 1;
      }
      assert labels[..|labels|] == labels;
    }
  }

  /** One execution as ActiveJob runs it: a new job instance, `perform`, and
      the `after_perform` block only when `perform` returned normally. */
  method RunFreshJob(workClass: string, userEmail: string, attributes: AttributeHash,
                     workProxyId: string, visibility: Value, found: WorkProxy?,
                     resolver: Resolver, index: set<string>, store: map<string, seq<string>>,
                     runningText: string, actor: ActorOutcome,
                     uploads: UploadedFiles, failing: set<string>)
    returns (job: Job, performed: Outcome, finalised: Option<Outcome>)
    modifies attributes`entries, uploads`names,
             Bound(found)`status, Bound(found)`message, Bound(found)`workId, Bound(found)`hold
    ensures fresh(job) && job.workProxy == found
    ensures performed.Returned? <==> finalised.Some?
    ensures attributes.entries == DefaultAttributes(old(attributes.entries), visibility)
    // a fresh instance never takes the "complete" shortcut, whatever the proxy says
    ensures |job.effects| > 0 && job.effects[0] == ProxyLookup(workProxyId)
    // no proxy: the finaliser finds no work and turns job_error into error
    ensures found == null ==>
              performed == Returned && finalised == Some(Returned)
              && job.status == Some(Error) && job.effects == [ProxyLookup(workProxyId)]
              && unchanged(uploads)
    // the `define_work` Ruby binds: `send` raises, the proxy stays "running"
    ensures found != null && resolver == Simple ==>
              performed == Raised(SendTargetNotSymbol) && finalised.None?
              && found.status == Running && found.workId == old(found.workId) && unchanged(uploads)
    // an indexed work the store cannot load: the finaliser turns job_error
    // into error and keeps the message
    ensures found != null && resolver == Resolving
            && DefineWorkResolving(true, old(found.workId), index, store).action == Declined ==>
              performed == Returned && finalised == Some(Returned)
              && found.status == Error
              && found.message == MessageHash(StoreMissText(old(found.workId).value))
              && found.workId == old(found.workId) && found.hold == old(found.hold)
              && unchanged(uploads)
  {
    job := new Job();
    performed := job.Perform(workClass, userEmail, attributes, workProxyId, visibility, found,
                             resolver, index, store, runningText, actor);
    if performed == Returned {
      var o := job.AfterPerform(uploads, failing);
      finalised := Some(o);
    } else {
      finalised := None;
    }
  }

  /** `perform` on a new proxy with no work id and an empty attribute hash,
      with the earlier `define_work` body (`Resolving`) or with the later
      body as its comment intends (`SimpleIngest`): the job ingests, the
      actor saves the work as "w1" with one file set "a.tif", and the proxy
      reads "complete" but has no work id yet. */
  method ScenarioNewWorkPerform(resolver: Resolver) returns (job: Job, proxy: WorkProxy, attributes: AttributeHash)
    requires resolver != Simple
    ensures fresh(job) && fresh(proxy)
    ensures job.workProxy == proxy && job.work == Some(Work(Some("w1"), ["a.tif"]))
    ensures proxy.status == Complete && proxy.workId.None? && proxy.hold
    ensures proxy.relationships == [Relationship(1)] && proxy.operation.None?
    ensures attributes.entries == map["title" := UNTITLED]
  {
    proxy := new WorkProxy("p1", Pending, Nil, None, [Relationship(1)], true, None);
    attributes := new AttributeHash(map[]);
    job := new Job();
    var performed := job.Perform("work", "user@example.org", attributes, "p1", Nil, proxy,
                                 resolver, {}, map[], "Started", Returns(Bool(true), Work(Some("w1"), ["a.tif"])));
  }

  /** The same run through the `after_perform` block: it ends complete with
      the new work id, the default title, the matching upload deleted and
      the other kept, and the hold lifted. */
  method ScenarioNewWork(resolver: Resolver) returns (proxy: WorkProxy, attributes: AttributeHash, uploads: UploadedFiles)
    requires resolver != Simple
    ensures proxy.status == Complete && proxy.workId == Some("w1") && !proxy.hold
    ensures attributes.entries == map["title" := UNTITLED]
    ensures uploads.names == {"b.tif"}
  {
    var job;
    job, proxy, attributes := ScenarioNewWorkPerform(resolver);
    uploads := new UploadedFiles({"a.tif", "b.tif"});
    var finalised := job.AfterPerform(uploads, {});
    assert LabelSet(["a.tif"]) == {"a.tif"};
  }

  /** The same inputs with the `define_work` body Ruby binds (`Simple`):
      `send` raises once "running" is written, so the proxy stays "running"
      with no work id, the hold stays and no upload is deleted. */
  method ScenarioNewWorkBoundBody() returns (proxy: WorkProxy, uploads: UploadedFiles)
    ensures proxy.status == Running && proxy.message == Str("Started")
    ensures proxy.workId.None? && proxy.hold
    ensures uploads.names == {"a.tif", "b.tif"}
  {
    proxy := new WorkProxy("p1", Pending, Nil, None, [Relationship(1)], true, None);
    var attributes := new AttributeHash(map[]);
    uploads := new UploadedFiles({"a.tif", "b.tif"});
    var job := new Job();
    var performed := job.Perform("work", "user@example.org", attributes, "p1", Nil, proxy,
                                 Simple, {}, map[], "Started", Returns(Bool(true), Work(Some("w1"), ["a.tif"])));
    // `perform` raised, so the `after_perform` block does not run
    assert performed == Raised(SendTargetNotSymbol);
  }

  /** A proxy naming work "w9", which the index holds and the durable store
      cannot load, run with the earlier `define_work` body (`Resolving`; the
      body Ruby binds never consults the store): `perform` records job_error, and the `after_perform` block,
      which still runs and finds no work, overwrites it with "error"; the
      job_error message stays. */
  method ScenarioStoreMiss() returns (proxy: WorkProxy)
    ensures proxy.status == Error && proxy.workId == Some("w9")
    ensures proxy.message == MessageHash(StoreMissText("w9"))
  {
    proxy := new WorkProxy("p2", Pending, Nil, Some("w9"), [], false, None);
    var attributes := new AttributeHash(map[]);
    var uploads := new UploadedFiles({});
    assert !BlankString("w9") by { assert !IsSpace("w9"[0]); }
    var job, performed, finalised := RunFreshJob("work", "user@example.org", attributes, "p2", Nil, proxy,
                                                 Resolving, {"w9"}, map[], "Started", Raises, uploads, {});
  }
}
