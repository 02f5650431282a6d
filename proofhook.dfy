/**
 * useProofWorker: the page side of proof generation. It owns at most one
 * live worker at a time, posts it one request, and turns the worker's
 * messages into the progress/result/error/isGenerating state the screens
 * read. Workers are numbered in creation order; a terminated worker
 * delivers nothing more, which is the platform's promise for
 * Worker.terminate().
 */
module ProofHook {
  import opened Wrappers
  import opened Json
  import opened ProofWorker

  const WorkerErrorFallback: string := "Worker error"

  /** Every field of the hook, for stating what a handler leaves alone. */
  datatype HookFields = HookFields(
    progress: Option<int>,
    result: Option<string>,
    error: Option<string>,
    isGenerating: bool,
    workerRef: Option<nat>,
    terminated: set<nat>,
    nextWorker: nat,
    requests: seq<(nat, ProofRequest)>)

  /** The worker ids an optional reference names. */
  function Named(ref: Option<nat>): set<nat> {
    if ref.Some? then {ref.value} else {}
  }

  /** What generateProof leaves: the old worker terminated, outputs cleared, a new worker referenced and sent the request. */
  function Generated(f: HookFields, kind: ProofType, params: map<string, JsValue>): HookFields {
    HookFields(Some(0), None, None, true, Some(f.nextWorker), f.terminated + Named(f.workerRef), f.nextWorker + 1,
               f.requests + [(f.nextWorker, ProofRequest(kind, params))])
  }

  /** What cancel leaves: the referenced worker terminated and dropped, no progress, result and error kept. */
  function Cancelled(f: HookFields): HookFields {
    f.(terminated := f.terminated + Named(f.workerRef), workerRef := None, isGenerating := false, progress := None)
  }

  class ProofWorkerHook {
    var progress: Option<int>
    var result: Option<string>
    var error: Option<string>
    var isGenerating: bool
    /** workerRef.current, as the id of the worker it holds. */
    var workerRef: Option<nat>
    /** The workers terminate() was called on. */
    var terminated: set<nat>
    /** The id the next new Worker gets; every id below it was created. */
    var nextWorker: nat
    /** Each postMessage to a worker: its id and the request. */
    var requests: seq<(nat, ProofRequest)>

    function Fields(): HookFields
      reads this
    {
      HookFields(progress, result, error, isGenerating, workerRef, terminated, nextWorker, requests)
    }

    /** A worker is live when it was created and not terminated. */
    predicate Live(w: nat)
      reads this
    {
      w < nextWorker && w !in terminated
    }

    /**
     * Only created workers are referenced or terminated, and only the
     * referenced worker may be live; isGenerating says exactly
     * whether it is; while it runs neither a result nor an error is shown,
     * and never both at once.
     */
    predicate Valid()
      reads this
    {
      && (workerRef.Some? ==> workerRef.value < nextWorker)
      && (forall w :: w in terminated ==> w < nextWorker)
      && (forall w: nat :: w < nextWorker && w !in terminated ==> workerRef == Some(w))
      && (isGenerating <==> workerRef.Some? && Live(workerRef.value))
      && (isGenerating ==> result.None? && error.None?)
      && !(result.Some? && error.Some?)
    }

    constructor()
      ensures Fields() == HookFields(None, None, None, false, None, {}, 0, [])
      ensures Valid()
    {
      progress := None;
      result := None;
      error := None;
      isGenerating := false;
      workerRef := None;
      terminated := {};
      nextWorker := 0;
      requests := [];
    }

    /**
     * generateProof: terminate the referenced worker, clear the outputs,
     * start a new worker, reference it and post it the request.
     */
    method GenerateProof(kind: ProofType, params: map<string, JsValue>)
      requires Valid()
      modifies this
      ensures Fields() == Generated(old(Fields()), kind, params)
      ensures Valid()
      ensures forall w: nat :: w < old(nextWorker) ==> !Live(w)
    {
      if workerRef.Some? {
        terminated := terminated + {workerRef.value};
      }
      progress := Some(0);
      result := None;
      error := None;
      isGenerating := true;
      var worker := nextWorker;
      nextWorker := nextWorker + 1;
      workerRef := Some(worker);
      requests := requests + [(worker, ProofRequest(kind, params))];
    }

    /**
     * worker.onmessage for worker w. A progress message sets only progress;
     * a result or an error ends the run and terminates w.
     */
    method OnMessage(w: nat, msg: WorkerMessage)
      requires Valid()
      modifies this
      ensures Valid()
      ensures !old(Live(w)) ==> Fields() == old(Fields())
      ensures old(Live(w)) ==> old(workerRef) == Some(w)
      ensures old(Live(w)) && msg.Progress? ==> Fields() == old(Fields()).(progress := Some(msg.progress))
      ensures old(Live(w)) && msg.ProofResult? ==>
        Fields() == old(Fields()).(result := Some(msg.serializedTransaction), progress := Some(100),
                                   isGenerating := false, terminated := old(terminated) + {w})
      ensures old(Live(w)) && msg.ProofError? ==>
        Fields() == old(Fields()).(error := Some(msg.message), isGenerating := false, terminated := old(terminated) + {w})
    {
      if !Live(w) {
        return;
      }
      match msg {
        case Progress(p) =>
          progress := Some(p);
        case ProofResult(s) =>
          result := Some(s);
          progress := Some(100);
          isGenerating := false;
          terminated := terminated + {w};
        case ProofError(m) =>
          error := Some(m);
          isGenerating := false;
          terminated := terminated + {w};
      }
    }

    /** worker.onerror for worker w: the event's message, or "Worker error" when it has none. */
    method OnError(w: nat, message: string)
      requires Valid()
      modifies this
      ensures Valid()
      ensures !old(Live(w)) ==> Fields() == old(Fields())
      ensures old(Live(w)) ==>
        Fields() == old(Fields()).(error := Some(if message != "" then message else WorkerErrorFallback),
                                   isGenerating := false, terminated := old(terminated) + {w})
    {
      if !Live(w) {
        return;
      }
      error := Some(if message != "" then message else WorkerErrorFallback);
      isGenerating := false;
      terminated := terminated + {w};
    }

    /** cancel: terminate and drop the referenced worker; result and error stay as they are. */
    method Cancel()
      requires Valid()
      modifies this
      ensures Valid()
      ensures Fields() == Cancelled(old(Fields()))
      ensures forall w: nat :: !Live(w)
    {
      if workerRef.Some? {
        terminated := terminated + {workerRef.value};
      }
      workerRef := None;
      isGenerating := false;
      progress := None;
    }

    /** The unmount cleanup: only the referenced worker is terminated, after which no worker is live. */
    method Unmount()
      requires Valid()
      modifies this
      ensures Fields() == old(Fields()).(terminated := old(terminated) + Named(old(workerRef)))
      ensures forall w: nat :: !Live(w)
    {
      if workerRef.Some? {
        terminated := terminated + {workerRef.value};
      }
    }
  }
}
