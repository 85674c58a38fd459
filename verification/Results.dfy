/** The result of a pass, which decides whether it is requeued. */
module Results {
  import opened Base
  import opened DriverTypes
  import opened Cluster
  import opened Tasks
  import opened Plan
  import opened PlanFacts
  import opened PassSafety

  // The read that begins a pass is answered.
  predicate ReadAnswered(w: World) {
    w.alive && Head(w.script).fault == NoFault
  }

  // The custom resource in the view the read is served from.
  function Seen(w: World): Option<Driver> {
    View(Turned(w), Head(w.script).lag).driver
  }

  // The read was answered, and there was no custom resource to read.
  predicate FoundNone(w: World) {
    ReadAnswered(w) && Seen(w).None?
  }

  // The error of a read that is not answered.
  function ReadError(w: World): Error {
    if w.alive && Head(w.script).fault in {Reject, LostReply} then Unavailable else Crashed
  }

  // The three ways in which the read can end.
  lemma ReadEnds(w: World)
    ensures ReadDriver(w).Some? <==> ReadAnswered(w) && Seen(w).Some?
    ensures ReadDriver(w).Some? ==> ReadDriver(w) == Seen(w)
    ensures FoundNone(w) ==> Do(w, GetDriver) == (Failed(NotFound), Turned(w))
    ensures !ReadAnswered(w) ==> Do(w, GetDriver).0 == Failed(ReadError(w))
    ensures Do(w, GetDriver).1.state == if w.alive then Turned(w).state else w.state
  {
    hide Turned, View;
  }

  // All there was to do is done: a custom resource was read and every step of its plan
  // returned nil, or there was none to read.
  ghost predicate DidAll(w: World) {
    FoundNone(w) ||
    (ReadDriver(w).Some? &&
     RunAll(Do(w, GetDriver).1, ReadDriver(w).value, FullPlan(ReadDriver(w).value.spec)).0 == None)
  }

  // Every pass returns nil exactly when its read found no custom resource, or found one
  // and every step it asks for returned nil. A custom resource that is gone is no error
  // and nothing is done; a read that is not answered is an error, and nothing is done
  // either; otherwise the error is that of the first step that failed, and a status write
  // that fails is no error.
  lemma NilResult(w: World)
    ensures Pass(w).0 == None <==> DidAll(w)
    ensures ReadDriver(w).Some? ==>
              Pass(w).0 == RunAll(Do(w, GetDriver).1, ReadDriver(w).value, FullPlan(ReadDriver(w).value.spec)).0
    ensures FoundNone(w) ==> Pass(w) == (None, Turned(w))
    ensures !ReadAnswered(w) ==>
              Pass(w).0 == Some(ReadError(w)) && Pass(w).1.state == if w.alive then Turned(w).state else w.state
  {
    hide Do, RunAll, Phases, FullPlan, Turned, View;
    ReadEnds(w);
    if ReadDriver(w).Some? {
      PhasesRunPlan(Do(w, GetDriver).1, ReadDriver(w).value);
    }
  }
}
