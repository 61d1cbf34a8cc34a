# BulkOps WorkJob, modelled in Dafny

`BulkOps::WorkJob` is the background job that creates or updates one work (a
digital object) in a Hyrax repository. It tracks its progress on a work-proxy
record: status "starting", then "running", then "complete", or "error" /
"job_error" on failure. After `perform` returns, an `after_perform` block either
marks the proxy "error" or finalises the work. Finalising means: record the
work id and "complete", resolve the proxy's relationships in order, delete the
uploaded files that became file sets, lift the edit hold, and notify the parent
operation.

This project models that job as a Dafny class whose methods change its fields,
the proxy record and the uploaded-file table, as the Ruby methods do. Every
outside service is an input:

- the proxy that `BulkOps::WorkProxy.find` returns (`found`). It is null when
  no proxy has that id, which is the case the `unless @work_proxy` test at line
  51 handles;
- the ids the Solr index knows (`index`);
- the ids the Fedora store can load, with their file-set labels (`store`);
- what the create/update actor does (`ActorOutcome`: returns a value and leaves
  the work in some state, or raises);
- the uploaded-file names, and the names whose `destroy!` raises (`failing`);
- the parent operation and whether it responds to `check_if_finished`.

These calls go into a log, `Job.effects`, in order: the proxy lookup, each
proxy write, the user lookup, the dispatch to the actor, each `resolve!`, each
`destroy!`, `lift_hold` and `check_if_finished`. The Solr lookup
(`SolrDocument.find`), the Fedora load (`ActiveFedora::Base.find`) and the
uploaded-file lookup (`Hyrax::UploadedFile.find_by`) are not logged: their
answers are read from the inputs `index`, `store` and the upload table. The log
is what lets the contracts state "no lookup", "no proxy write" and the fixed
order of the finaliser.

Files:

- `ruby_values.dfy` (`RubyValues`): Ruby values, truthiness, `blank?`/`present?`.
- `collaborators.dfy` (`Collaborators`): statuses, works, effects, and the
  `WorkProxy`, `UploadedFiles` and `AttributeHash` classes.
- `resolution.dfy` (`WorkResolution`): `record_exists?` and both bodies of
  `define_work`.
- `attributes.dfy` (`AttributeDefaults`): the title and visibility defaults.
- `finaliser.dfy` (`Finaliser`): the finaliser's loops as functions of their
  starting state, with lemmas about them.
- `work_job.dfy` (`WorkJob`): the `Job` class, one run of a fresh instance
  (`RunFreshJob`), and concrete scenario runs.

`define_work` is defined twice in the class. Ruby keeps the later definition,
which builds a fresh object and returns the object itself. `perform` takes the
body to use as a parameter (`Resolver`):

- `Simple` is the body Ruby binds;
- `Resolving` is the earlier body it replaces;
- `SimpleIngest` is the later body as its comment describes it (see Findings).

### Behaviour of the code worth noting

- **The finaliser turns `job_error` into `error`.** `after_perform` runs after
  every normal return of `perform`, early returns included. With the earlier
  `define_work` body (`Resolving`), a store that cannot load an indexed work
  leaves `@work` nil. The finaliser then writes "error" over the "job_error"
  that `report_error` wrote. The message stays. See `RunFreshJob` and
  `ScenarioStoreMiss`. The body Ruby binds never consults the store, so with it
  this path cannot be reached.
- **A missing proxy, when `find` returns nil, ends with `@status` "error".** The
  finaliser overwrites the "job_error" on the instance, and nothing is written
  to any proxy. A `find` that raises for an unknown id is not modelled (see Left
  out).
- **The rerun guard reads the job instance's own `@status`, not the proxy's.**
  A fresh instance never skips, so re-running a job on a proxy that is already
  "complete" still looks up the user and writes "running". There is one
  exception, with the earlier body (`Resolving`): when the store cannot load
  the indexed work, `define_work` returns false and `perform` stops with
  "job_error" before the user lookup. With the earlier or the corrected
  `define_work` body it otherwise dispatches to the actor. With the
  body Ruby binds, `send` raises first. `RunFreshJob` shows that the first
  effect is always the proxy lookup.
- **Relationship failures are not isolated.** `resolve!` errors are not
  rescued, so one failing relationship stops the rest of the block. Errors
  from `check_if_finished` are not rescued either.
- **The hold is lifted unconditionally.** `lift_hold` is called whether or not
  a hold is present.
- **With the `define_work` Ruby binds, no work is ever created.** `send` is
  given an object instead of a symbol and raises `TypeError`. The proxy stays
  "running" and the finaliser does not run.

## Model

| member | source | states |
|---|---|---|
| `Collaborators.SaveOf` | lib/bulk_ops/work_job.rb:103-105 | the attributes saved by `update_status` always carry the status; they carry the message exactly when the message is truthy |
| `Collaborators.FreshWork` | lib/bulk_ops/work_job.rb:78 | `constantize.new` gives an unsaved object: no id, no file sets |
| `Collaborators.WorkProxy.Update` | lib/bulk_ops/work_job.rb:105 | `update(atts)` sets the status, sets the message only when one is given, and touches no other field |
| `Collaborators.WorkProxy.LiftHold` | lib/bulk_ops/work_job.rb:35 | afterwards no hold is present, whether or not one was before; other fields unchanged |
| `WorkResolution.StoreMissText` | lib/bulk_ops/work_job.rb:74 | the store-miss message is the fixed prefix followed by the work id |
| `WorkResolution.StoreMissTextSaysCouldNotFind` | lib/bulk_ops/work_job.rb:74 | the store-miss message contains "Could not find work to update" |
| `WorkResolution.RecordExists` | lib/bulk_ops/work_job.rb:83-89 | true exactly when the index finds the id; false when the lookup raises `RecordNotFound` |
| `WorkResolution.DefineWorkResolving` | lib/bulk_ops/work_job.rb:68-89 | update with the loaded work exactly when the proxy has a present work id that the index finds and the store loads; report "could not find" and return false exactly when the index finds it and the store does not; otherwise ingest a fresh object |
| `WorkResolution.DefineWorkSimple` | lib/bulk_ops/work_job.rb:108-111 | the body Ruby binds assigns a fresh object to `@work` and returns that object, not a symbol |
| `WorkResolution.DefineWorkSimpleIngest` | lib/bulk_ops/work_job.rb:108-111 | corrected later body: assigns a fresh object and returns `:ingest` |
| `WorkResolution.SimpleIngestAgreesWithResolving` | lib/bulk_ops/work_job.rb:108-111 | the corrected body behaves exactly like the resolving body whenever the resolving body ingests, and only then |
| `WorkResolution.UpdateLoadsProxyWork` | lib/bulk_ops/work_job.rb:69-72 | an update loads the work whose id the proxy already holds |
| `WorkResolution.ResolversAgreeOnIngest` | lib/bulk_ops/work_job.rb:77-79 | when the resolving body ingests, both bodies assign the same fresh object, but only the resolving one returns a symbol |
| `AttributeDefaults.DefaultAttributes` | lib/bulk_ops/work_job.rb:48-49 | the title becomes `['Untitled']` when blank and is otherwise unchanged; visibility is set when present and otherwise untouched; every other key is unchanged |
| `AttributeDefaults.DefaultAttributesIdempotent` | lib/bulk_ops/work_job.rb:48-49 | filling the defaults twice gives the same hash as filling them once |
| `AttributeDefaults.DefaultTitleIsPresent` | lib/bulk_ops/work_job.rb:49 | after the preamble the title is always present |
| `Finaliser.ResolveEffectsInOrder` | lib/bulk_ops/work_job.rb:19-21 | the relationship loop makes one `resolve!` per relationship, in declared order, and nothing else |
| `Finaliser.RunCleanup` | lib/bulk_ops/work_job.rb:24-32 | after cleanup the uploads left are the old uploads minus those named by a file-set label whose deletion did not fail |
| `Finaliser.CleanupKeepsUnmatched` | lib/bulk_ops/work_job.rb:24-32 | an uploaded file survives exactly when no label names it or its own deletion failed |
| `Finaliser.CleanupTraceSound` | lib/bulk_ops/work_job.rb:24-32 | every cleanup call deletes an uploaded file named by a label; it fails exactly for files whose deletion raises |
| `Finaliser.CleanupTraceOncePerFile` | lib/bulk_ops/work_job.rb:24-32 | every matching upload whose deletion does not fail is deleted, and no successful deletion is repeated |
| `Finaliser.DestroyedIsGone` | lib/bulk_ops/work_job.rb:25-27 | a file that was deleted successfully is no longer on record |
| `Finaliser.FinishCheck` | lib/bulk_ops/work_job.rb:39-41 | `check_if_finished` is called, once, exactly when the operation is present and responds to it |
| `Finaliser.SuccessTraceLayout` | lib/bulk_ops/work_job.rb:15-41 | the success branch's log is the "complete" write, then the resolutions, then the cleanup calls, then the hold, then the operation check |
| `Finaliser.SuccessTraceOrder` | lib/bulk_ops/work_job.rb:15-41 | in the success branch: exactly one proxy write, and it comes first; every resolution precedes every deletion; the hold is lifted exactly once, after all of them; the operation check comes last |
| `WorkJob.StartEffects` | lib/bulk_ops/work_job.rb:47 | "starting" is written to a proxy only when one is already bound |
| `WorkJob.Job.UpdateStatus` | lib/bulk_ops/work_job.rb:100-106 | always sets `@status`; with no proxy, returns false and writes nothing; with a proxy, writes the status, and the message only when it is truthy |
| `WorkJob.Job.ReportError` | lib/bulk_ops/work_job.rb:91-93 | status "job_error", with the message wrapped in `{message: text}`, which is always written |
| `WorkJob.Job.Perform` | lib/bulk_ops/work_job.rb:45-63 | an instance whose `@status` is "complete" changes nothing. Otherwise: defaults filled, proxy bound. A missing proxy gives "job_error" with no user lookup, "running" write or dispatch. A store miss gives "job_error" and stops. Otherwise "running", then "complete" with the actor's value as message when truthy; a raising `send` or actor leaves "running" |
| `WorkJob.Job.Begin` | lib/bulk_ops/work_job.rb:47-50 | "starting" touches only an already-bound proxy; then the defaults, the lookup, and the binding of the proxy found |
| `WorkJob.Job.FillDefaults` | lib/bulk_ops/work_job.rb:48-49 | the caller's hash is changed in place to `DefaultAttributes` of its old contents |
| `WorkJob.Job.Dispatch` | lib/bulk_ops/work_job.rb:56-62 | after `define_work`: a false result stops with "job_error"; any other result goes on to the user lookup, "running" and the actor |
| `WorkJob.Job.RunAction` | lib/bulk_ops/work_job.rb:58-62 | user lookup, "running", then the dispatch. An object instead of a symbol raises before the actor runs. The actor's return value becomes the "complete" message when truthy |
| `WorkJob.Job.AfterPerform` | lib/bulk_ops/work_job.rb:9-43 | no work, or no id: "error" and nothing else (no relationships, no deletions, no hold, no operation call). A work with an id but no proxy raises before any change. Otherwise the success branch, in order |
| `WorkJob.Job.Finalise` | lib/bulk_ops/work_job.rb:15-41 | `work_id` becomes the work's id, status "complete", message kept, hold lifted, uploads cleaned; the log grows by exactly the success trace |
| `WorkJob.Job.ResolveRelationships` | lib/bulk_ops/work_job.rb:19-21 | the log grows by one resolution per relationship, in order |
| `WorkJob.Job.DeleteUploads` | lib/bulk_ops/work_job.rb:24-32 | the upload table and the log end as the cleanup functions say; a failed deletion stops nothing |
| `WorkJob.RunFreshJob` | lib/bulk_ops/work_job.rb:9-63 | the finaliser runs exactly when `perform` returns normally, and a fresh instance always looks up the proxy first. A missing proxy ends with "error" on the instance. The bound `define_work` raises `TypeError` and leaves "running". A store miss ends "error" with the job_error message |
| `WorkJob.ScenarioNewWorkPerform` | lib/bulk_ops/work_job.rb:45-63 | new proxy, empty attributes, with the earlier `define_work` body (`Resolving`) or the corrected later one (`SimpleIngest`): `perform` ingests, and `@work` is the saved work. The proxy reads "complete" with no work id yet, and the hold is still on |
| `WorkJob.ScenarioNewWork` | lib/bulk_ops/work_job.rb:9-63 | the same run, with either of those two bodies, through `after_perform`: ends "complete" with the new id, title `['Untitled']`, the matching upload deleted and the other kept, hold lifted |
| `WorkJob.ScenarioNewWorkBoundBody` | lib/bulk_ops/work_job.rb:108-111 | the same inputs with the body Ruby binds (`Simple`): `send` raises after "running", so the proxy stays "running" with no work id, the hold stays and no upload is deleted |
| `WorkJob.ScenarioStoreMiss` | lib/bulk_ops/work_job.rb:68-76 | with the earlier `define_work` body (`Resolving`), an indexed work "w9" that the store lacks: the proxy ends "error" (not "job_error"), work id unchanged, with the "could not find" message |

## Left out

- `RunFreshJob`: assumes `BulkOps::WorkProxy.find` returns nil for an unknown id, as the `unless @work_proxy` test at line 51 expects. An ActiveRecord-style `find` that raises `RecordNotFound` is not modelled. Such a `find` would leave `@status` "starting", skip `report_error` and skip `after_perform`.
- `Finaliser.RunCleanup`: takes uploaded-file names as unique in the table, with a failing `destroy!` failing on every attempt. `find_by(file: label)` returns one record. If two records share a name, Ruby deletes one per matching label, while the model removes the name. A deletion that fails once and succeeds later is not modelled. `DeleteUploads`, `CleanupKeepsUnmatched` and `CleanupTraceOncePerFile` share this assumption.
- ActiveJob itself: queueing, `queue_as` and the callback machinery. `after_perform` is an explicit method called after a normal return.
- Fedora, Solr, `Hyrax::UploadedFile`, `User.find_by_email`, `Ability.new` and `Hyrax::Actors::Environment`. Each is an input or an entry in the effect log. The user lookup is logged but changes nothing.
- The actor's in-place update of the work: the state it leaves the work in is an input (`ActorOutcome.after`).
- `workClass.capitalize.constantize` is Ruby reflection. It always gives a fresh object with no id. An unknown class name, which would raise `NameError`, is not modelled.
- The clock text of the "running" message is an input. The `Rails.logger.warn` of a failed deletion leaves no trace beyond the `DestroyFailed` effect.
- Exceptions from `resolve!` and `check_if_finished` are not modelled: both calls are treated as total, as the code does not rescue them.
- Concurrent job instances working on one proxy are not modelled.
- The `type` override is never used by the logic.
- `WorkJob.Job.UpdateStatus`: models `WorkProxy#update` as always saving. A failed validation, where `update` returns false, is not modelled.
- `lift_hold` and the hold record are not part of this model. The hold is a flag that `lift_hold` clears.
- `RubyValues.Blank`: `blank?` on strings counts only ASCII whitespace. Other Unicode space characters are not modelled.
- The attribute hash has string keys only. Symbol keys and indifferent access are not modelled.
- `record_exists?` returns nil, not false, if `SolrDocument.find` returns nil without raising. Both are falsy, so the model treats them as one case.

## Findings

| source | as written | input that shows it | evidently intended | confidence | as-written member | corrected member |
|---|---|---|---|---|---|---|
| lib/bulk_ops/work_job.rb:108-111 | a second `define_work` replaces the one at lines 68-81. It returns the new object, which `actor.send(work_action, env)` at line 62 cannot take (`TypeError`) | any run with a proxy found: the job raises after writing "running", and the finaliser never runs | a "simple ingest", as the method's comment says: assign the fresh object and return `:ingest` | not executed; Ruby's `send` raises `TypeError` for an argument that is neither a symbol nor a string | `WorkResolution.DefineWorkSimple` (consequence shown by `WorkJob.RunFreshJob` and `WorkJob.ScenarioNewWorkBoundBody`) | `WorkResolution.DefineWorkSimpleIngest` (a whole run with it: `WorkJob.ScenarioNewWork`) |
