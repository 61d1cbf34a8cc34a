/** The choice between creating and updating a work (`define_work` and
    `record_exists?` in lib/bulk_ops/work_job.rb). Both bodies of
    `define_work` are here; Ruby binds the later one, `DefineWorkSimple`. */
module WorkResolution {
  import opened RubyValues
  import opened Collaborators

  /** What one call of `define_work` does: the value it returns, the new
      value of `@work` (None: `@work` is not assigned) and the text it passes
      to `report_error`, if any. */
  datatype Resolution = Resolution(action: WorkAction, assigns: Option<Work>, reported: Option<string>)

  /** `record_exists? id`: true when the Solr lookup of `id` finds a
      document, false when it raises `RecordNotFound`. `index` holds the ids
      the search index finds. */
  function RecordExists(index: set<string>, id: string): (found: bool)
    ensures found <==> id in index
  {
    id in index
  }

  const COULD_NOT_FIND := "Could not find work to update"
  const STORE_MISS_PREFIX := COULD_NOT_FIND + " in Fedora (though it shows up in Solr). Work id: "

  /** The message of the store-miss error for work `id`. */
  function StoreMissText(id: string): (t: string)
    ensures |t| == |STORE_MISS_PREFIX| + |id|
    ensures t[..|STORE_MISS_PREFIX|] == STORE_MISS_PREFIX && t[|STORE_MISS_PREFIX|..] == id
  {
    STORE_MISS_PREFIX + id
  }

  /** The error text names the failure and the work id it was about. */
  lemma StoreMissTextSaysCouldNotFind(id: string)
    ensures COULD_NOT_FIND <= StoreMissText(id)
  {
    var t := StoreMissText(id);
    assert t == COULD_NOT_FIND + (" in Fedora (though it shows up in Solr). Work id: " + id);
  }

  /** The first `define_work` body (lines 68-81): update when the proxy names
      a work that the index knows and the durable store loads, report an
      error when the store cannot load an indexed work, else a fresh object.
      `store` maps the ids the store can load to their file-set labels. */
  function DefineWorkResolving(proxyBound: bool, proxyWorkId: Option<string>,
                               index: set<string>, store: map<string, seq<string>>): (r: Resolution)
    ensures r.action == Update <==>
              proxyBound && PresentId(proxyWorkId) && RecordExists(index, proxyWorkId.value)
              && proxyWorkId.value in store
    ensures r.action == Update ==>
              r.assigns == Some(Work(proxyWorkId, store[proxyWorkId.value])) && r.reported.None?
    ensures r.action == Declined <==>
              proxyBound && PresentId(proxyWorkId) && RecordExists(index, proxyWorkId.value)
              && proxyWorkId.value !in store
    ensures r.action == Declined ==>
              r.assigns.None? && r.reported == Some(StoreMissText(proxyWorkId.value))
    ensures r.action == Ingest <==>
              !(proxyBound && PresentId(proxyWorkId) && RecordExists(index, proxyWorkId.value))
    ensures r.action == Ingest ==> r.assigns == Some(FreshWork()) && r.reported.None?
    ensures !r.action.Built?
  {
    if proxyBound && PresentId(proxyWorkId) && RecordExists(index, proxyWorkId.value) then
      var id := proxyWorkId.value;
      if id in store then
        Resolution(Update, Some(Work(Some(id), store[id])), None)
      else
        Resolution(Declined, None, Some(StoreMissText(id)))
    else
      Resolution(Ingest, Some(FreshWork()), None)
  }

  /** The second `define_work` body (lines 108-111), which replaces the first:
      it assigns a fresh object to `@work` and returns that object itself. */
  function DefineWorkSimple(): (r: Resolution)
    ensures r.action.Built? && r.assigns == Some(r.action.target)
    ensures r.action.target.id.None? && r.reported.None?
  {
    Resolution(Built(FreshWork()), Some(FreshWork()), None)
  }

  /** The second body as its comment describes it, "a simple ingest": the
      fresh object goes to `@work` and `:ingest` is returned, so that the
      actor's `send` receives a symbol. */
  function DefineWorkSimpleIngest(): (r: Resolution)
    ensures r.action == Ingest && r.assigns == Some(FreshWork()) && r.reported.None?
  {
    Resolution(Ingest, Some(FreshWork()), None)
  }

  /** The corrected second body differs from the resolving one only where
      that one would update or report: whenever the resolving body ingests,
      the two do exactly the same. */
  lemma SimpleIngestAgreesWithResolving(proxyBound: bool, proxyWorkId: Option<string>,
                                        index: set<string>, store: map<string, seq<string>>)
    ensures DefineWorkResolving(proxyBound, proxyWorkId, index, store).action == Ingest
            <==> DefineWorkResolving(proxyBound, proxyWorkId, index, store) == DefineWorkSimpleIngest()
  {
  }

  /** Which `define_work` body `perform` calls: `Simple` is the one Ruby
      binds (the later definition wins), `Resolving` the one it replaces,
      `SimpleIngest` the later one as evidently intended. */
  datatype Resolver = Resolving | Simple | SimpleIngest

  function DefineWork(resolver: Resolver, proxyBound: bool, proxyWorkId: Option<string>,
                      index: set<string>, store: map<string, seq<string>>): Resolution
  {
    match resolver
    case Resolving => DefineWorkResolving(proxyBound, proxyWorkId, index, store)
    case Simple => DefineWorkSimple()
    case SimpleIngest => DefineWorkSimpleIngest()
  }

  /** An update keeps the proxy's work: the object loaded has the id the proxy
      already holds, so writing it back into `work_id` changes nothing. */
  lemma UpdateLoadsProxyWork(proxyWorkId: Option<string>, index: set<string>,
                             store: map<string, seq<string>>)
    requires DefineWorkResolving(true, proxyWorkId, index, store).action == Update
    ensures DefineWorkResolving(true, proxyWorkId, index, store).assigns.value.id == proxyWorkId
  {
  }

  /** The two bodies build the same fresh object whenever the first one
      ingests, but only the first returns a symbol the actor understands. */
  lemma ResolversAgreeOnIngest(proxyBound: bool, proxyWorkId: Option<string>,
                               index: set<string>, store: map<string, seq<string>>)
    requires DefineWorkResolving(proxyBound, proxyWorkId, index, store).action == Ingest
    ensures DefineWorkResolving(proxyBound, proxyWorkId, index, store).assigns
            == DefineWorkSimple().assigns
    ensures DefineWorkSimple().action == Built(FreshWork())
  {
  }
}
