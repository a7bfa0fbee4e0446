/** What the `rename` and `organize` commands decide before handing files to the
    worker pool: which files to process, whether there is anything to do, and how
    many workers to start. */
module Batch {
  import opened Wrappers
  import opened Paths
  import opened Extensions

  /** `collect_files`: `listing` is every file `os.walk` reports, in walk order. */
  function CollectFiles(listing: seq<FilePath>): (r: seq<FilePath>)
    ensures forall p :: p in r ==> p in listing && IsSupported(p.name)
    ensures forall p :: multiset(r)[p] == if IsSupported(p.name) then multiset(listing)[p] else 0
  {
    if |listing| == 0 then []
    else
      var init, last := listing[..|listing| - 1], listing[|listing| - 1];
      assert listing == init + [last];
      assert multiset(listing) == multiset(init) + multiset{last};
      var kept := if IsSupported(last.name) then [last] else [];
      assert multiset(kept) == if IsSupported(last.name) then multiset{last} else multiset{};
      CollectFiles(init) + kept
  }

  /** Nothing is collected exactly when no listed file has a supported extension. */
  lemma CollectNothing(listing: seq<FilePath>)
    ensures |CollectFiles(listing)| == 0 <==> forall p :: p in listing ==> !IsSupported(p.name)
  {
    var r := CollectFiles(listing);
    if exists p :: p in listing && IsSupported(p.name) {
      var p :| p in listing && IsSupported(p.name);
      assert multiset(r)[p] > 0;
    }
  }

  /** `max(1, os.cpu_count() - 1)`; `None` where `os.cpu_count()` gives `None` and the
      subtraction raises. */
  function DefaultWorkers(cpuCount: Option<int>): (r: Option<int>)
    ensures r.Some? <==> cpuCount.Some?
    ensures r.Some? ==> 1 <= r.value && cpuCount.value - 1 <= r.value
    ensures r.Some? && 2 <= cpuCount.value ==> r.value == cpuCount.value - 1
    ensures r.Some? && cpuCount.value <= 2 ==> r.value == 1
  {
    match cpuCount
    case None => None
    case Some(n) => Some(if 1 < n - 1 then n - 1 else 1)
  }

  /** What a command does with the walked listing. */
  datatype BatchPlan =
    | NoFiles                                      // "No supported files found."
    | Dispatch(files: seq<FilePath>, workers: int) // one task per file on a pool of `workers`
    | WorkerCountFailed                            // computing the default worker count raised
    | PoolRejected(workers: int)                   // `ProcessPoolExecutor` raised `ValueError`

  /** The start of `rename` and `organize`: collect, stop when there is nothing, else
      settle the worker count (`--workers` if given, the default otherwise) and start the
      pool, whose constructor rejects a count below one. */
  function PlanBatch(listing: seq<FilePath>, requested: Option<int>, cpuCount: Option<int>): (plan: BatchPlan)
    ensures plan.Dispatch? ==> 1 <= plan.workers
    ensures plan.Dispatch? && requested.Some? ==> plan.workers == requested.value
    ensures plan.Dispatch? && requested.None? ==> Some(plan.workers) == DefaultWorkers(cpuCount)
    ensures plan.PoolRejected? <==> (exists p :: p in listing && IsSupported(p.name))
                                      && requested.Some? && requested.value < 1
    ensures plan.PoolRejected? ==> plan.workers == requested.value
    ensures plan.Dispatch? ==> plan.files == CollectFiles(listing) && 0 < |plan.files|
    ensures plan.NoFiles? <==> forall p :: p in listing ==> !IsSupported(p.name)
    ensures plan.WorkerCountFailed? <==> (exists p :: p in listing && IsSupported(p.name))
                                           && requested.None? && cpuCount.None?
  {
    CollectNothing(listing);
    var files := CollectFiles(listing);
    if |files| == 0 then NoFiles
    else
      var workers := match requested
        case Some(n) => Some(n)
        case None => DefaultWorkers(cpuCount);
      match workers
      case None => WorkerCountFailed
      case Some(n) => if n < 1 then PoolRejected(n) else Dispatch(files, n)
  }
}
