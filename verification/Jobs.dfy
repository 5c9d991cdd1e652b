/**
 The background job manager. `Start` runs in three lock sections (register, launch, store the
 cancel function) that race with the job's own goroutine, with Cancel, and with the eviction
 of old finished jobs. The class holds the locked sections; a run interleaves them freely.
 */
module Jobs {

  const MAX_FINISHED := 256

  datatype Status = Running | Done | Error | Cancelled

  /** The locked state: jobs by id, ids in finish order, ids whose cancel function is stored. */
  datatype Manager = Manager(jobs: map<string, Status>, finished: seq<string>, cancels: set<string>)

  /** How the job function returned; `canceled` says its context had been canceled. */
  datatype Outcome = Returned | Failed(canceled: bool)

  function StatusOf(o: Outcome): Status {
    match o
    case Returned => Done
    case Failed(canceled) => if canceled then Cancelled else Error
  }

  function Registered(m: Manager, id: string): Manager {
    m.(jobs := m.jobs[id := Running])
  }

  function Evicted(m: Manager): Manager
    decreases |m.finished|
  {
    if |m.finished| <= MAX_FINISHED then m
    else Evicted(m.(jobs := m.jobs - {m.finished[0]}, finished := m.finished[1..]))
  }

  function Finished(m: Manager, id: string, o: Outcome): Manager {
    Evicted(m.(jobs := if id in m.jobs then m.jobs[id := StatusOf(o)] else m.jobs,
               cancels := m.cancels - {id},
               finished := m.finished + [id]))
  }

  predicate IsRunning(m: Manager, id: string) {
    id in m.jobs && m.jobs[id].Running?
  }

  function CancelStored(m: Manager, id: string): Manager {
    if IsRunning(m, id) then m.(cancels := m.cancels + {id}) else m
  }

  /** Cancel fires the context only for a running job whose cancel function is stored. */
  predicate Cancellable(m: Manager, id: string) {
    IsRunning(m, id) && id in m.cancels
  }

  class JobManager {
    var jobs: map<string, Status>
    var finished: seq<string>
    var cancels: set<string>

    constructor ()
      ensures View() == Manager(map[], [], {})
    {
      jobs, finished, cancels := map[], [], {};
    }

    function View(): Manager
      reads this
    {
      Manager(jobs, finished, cancels)
    }

    method Register(id: string)
      modifies this
      ensures View() == Registered(old(View()), id)
    {
      jobs := jobs[id := Running];
    }

    method EvictFinishedLocked()
      modifies this
      ensures View() == Evicted(old(View()))
    {
      while |finished| > MAX_FINISHED
        invariant Evicted(View()) == Evicted(old(View()))
        decreases |finished|
      {
        jobs := jobs - {finished[0]};
        finished := finished[1..];
      }
    }

    /** The wrapper goroutine's section: the single writer of the job's outcome. */
    method Finish(id: string, o: Outcome)
      modifies this
      ensures View() == Finished(old(View()), id, o)
      ensures id in jobs ==> jobs[id] == (if o.Returned? then Done else if o.canceled then Cancelled else Error)
    {
      EvictedKeeps(View().(jobs := if id in jobs then jobs[id := StatusOf(o)] else jobs,
                           cancels := cancels - {id}, finished := finished + [id]));
      if id in jobs {
        match o {
          case Returned => jobs := jobs[id := Done];
          case Failed(canceled) => jobs := jobs[id := if canceled then Cancelled else Error];
        }
      }
      cancels := cancels - {id};
      finished := finished + [id];
      EvictFinishedLocked();
    }

    method StoreCancel(id: string)
      modifies this
      ensures View() == CancelStored(old(View()), id)
    {
      if id in jobs && jobs[id] == Running {
        cancels := cancels + {id};
      }
    }

    method Cancel(id: string) returns (known: bool, issued: bool)
      ensures known <==> id in jobs
      ensures issued <==> Cancellable(View(), id)
    {
      if id !in jobs {
        return false, false;
      }
      known := true;
      issued := jobs[id] == Running && id in cancels;
    }
  }

  lemma {:induction false} EvictedKeeps(m: Manager)
    ensures forall id :: id in Evicted(m).jobs ==> id in m.jobs && Evicted(m).jobs[id] == m.jobs[id]
    decreases |m.finished|
  {
    if |m.finished| > MAX_FINISHED {
      EvictedKeeps(m.(jobs := m.jobs - {m.finished[0]}, finished := m.finished[1..]));
    }
  }

  function Last(s: seq<string>, n: nat): seq<string> {
    if |s| <= n then s else s[|s| - n..]
  }

  function Ids(s: seq<string>): set<string> {
    set x | x in s
  }

  /** Eviction keeps the newest entries and drops the jobs of the others. */
  lemma {:induction false} EvictedClosedForm(m: Manager)
    requires NoDups(m.finished)
    ensures var r := Evicted(m);
            && r.finished == Last(m.finished, 256) && r.cancels == m.cancels
            && r.jobs == m.jobs - (Ids(m.finished) - Ids(r.finished))
    decreases |m.finished|
  {
    if |m.finished| > MAX_FINISHED {
      var head, rest := m.finished[0], m.finished[1..];
      EvictedClosedForm(m.(jobs := m.jobs - {head}, finished := rest));
      assert m.finished == [head] + rest;
      assert Ids(m.finished) == {head} + Ids(rest);
      var kept := Ids(Last(rest, MAX_FINISHED));
      assert head !in rest && kept <= Ids(rest);
      assert {head} + (Ids(rest) - kept) == Ids(m.finished) - kept;
      assert (m.jobs - {head}) - (Ids(rest) - kept) == m.jobs - (Ids(m.finished) - kept);
    } else {
      assert Ids(m.finished) - Ids(m.finished) == {};
    }
  }

  predicate NoDups(s: seq<string>) {
    forall i, j :: 0 <= i < j < |s| ==> s[i] != s[j]
  }

  // ------------------------------------------------------------------ every interleaving

  datatype State = State(
    m: Manager,
    used: set<string>,      // ids handed out so far
    pending: set<string>,   // registered, goroutine not launched yet
    live: set<string>,      // goroutine running
    unstored: set<string>,  // launched by a Start that has not reached its last section
    issued: set<string>,    // ids whose context was canceled
    history: seq<string>)   // every finished id, in finish order

  datatype Step =
    | Begin(id: string)
    | Launch(id: string)
    | Return(id: string, failed: bool, deadlineFirst: bool)
    | Store(id: string)
    | CancelJob(id: string)

  function Init(): State {
    State(Manager(map[], [], {}), {}, {}, {}, {}, {}, [])
  }

  /** What a returning job sees: `Canceled` needs an issued cancel that beat the deadline. */
  function OutcomeOf(s: State, st: Step): Outcome
    requires st.Return?
  {
    if st.failed then Failed(st.id in s.issued && !st.deadlineFirst) else Returned
  }

  function Next(s: State, st: Step): State {
    match st
    case Begin(id) =>
      if id in s.used then s
      else s.(m := Registered(s.m, id), used := s.used + {id}, pending := s.pending + {id})
    case Launch(id) =>
      if id in s.pending
      then s.(pending := s.pending - {id}, live := s.live + {id}, unstored := s.unstored + {id}) else s
    case Return(id, failed, deadlineFirst) =>
      if id in s.live
      then s.(m := Finished(s.m, id, OutcomeOf(s, st)), live := s.live - {id}, history := s.history + [id]) else s
    case Store(id) =>
      if id in s.unstored then s.(m := CancelStored(s.m, id), unstored := s.unstored - {id}) else s
    case CancelJob(id) =>
      if Cancellable(s.m, id) then s.(issued := s.issued + {id}) else s
  }

  function Run(s: State, steps: seq<Step>): State
    decreases |steps|
  {
    if steps == [] then s else Run(Next(s, steps[0]), steps[1..])
  }

  ghost predicate Inv(s: State) {
    && NoDups(s.history)
    && s.m.finished == Last(s.history, MAX_FINISHED)
    && s.m.jobs.Keys == s.pending + s.live + Ids(s.m.finished)
    && (forall id :: id in s.m.jobs ==> (s.m.jobs[id].Running? <==> id in s.pending + s.live))
    && s.m.cancels == s.live - s.unstored
    && (forall id :: id in s.m.jobs && s.m.jobs[id].Cancelled? ==> id in s.issued)
    && s.pending !! s.live
    && s.pending !! s.unstored
    && (s.pending + s.live) !! Ids(s.history)
    && s.pending + s.live + Ids(s.history) == s.used
    && s.unstored <= s.used
  }

  lemma LastAppend(s: seq<string>, x: string, n: nat)
    ensures Last(Last(s, n) + [x], n) == Last(s + [x], n)
  {
  }

  /** A finish appends to the list, and only ids pushed out of it lose their job. */
  lemma FinishFacts(m: Manager, history: seq<string>, id: string, o: Outcome)
    requires NoDups(history) && id !in history && m.finished == Last(history, MAX_FINISHED) && id in m.jobs
    ensures var m' := Finished(m, id, o);
            && NoDups(history + [id])
            && m'.finished == Last(history + [id], MAX_FINISHED)
            && m'.cancels == m.cancels - {id}
            && m'.jobs.Keys == m.jobs.Keys - (Ids(m.finished) + {id} - Ids(m'.finished))
            && forall x :: x in m'.jobs ==> m'.jobs[x] == if x == id then StatusOf(o) else m.jobs[x]
  {
    var m1 := Manager(m.jobs[id := StatusOf(o)], m.finished + [id], m.cancels - {id});
    assert forall x :: x in m.finished ==> x in history;
    assert NoDups(m1.finished) && NoDups(history + [id]);
    EvictedClosedForm(m1);
    LastAppend(history, id, MAX_FINISHED);
    assert Ids(m1.finished) == Ids(m.finished) + {id};
  }

  /** The finish of a live job, spelled out on the sets of the invariant. */
  lemma ReturnFacts(s: State, st: Step)
    requires Inv(s) && st.Return? && st.id in s.live
    ensures var id, s' := st.id, Next(s, st);
            && NoDups(s'.history) && s'.m.finished == Last(s'.history, MAX_FINISHED)
            && s'.m.cancels == s.m.cancels - {id}
            && Ids(s'.history) == Ids(s.history) + {id}
            && s'.m.jobs.Keys == s.m.jobs.Keys - (Ids(s.m.finished) + {id} - Ids(s'.m.finished))
            && id in Ids(s'.m.finished) && Ids(s'.m.finished) <= Ids(s.m.finished) + {id}
            && Ids(s.m.finished) <= Ids(s.history)
            && forall x :: x in s'.m.jobs ==> s'.m.jobs[x] == if x == id then StatusOf(OutcomeOf(s, st)) else s.m.jobs[x]
  {
    var id := st.id;
    assert id !in Ids(s.history);
    FinishFacts(s.m, s.history, id, OutcomeOf(s, st));
    hide Finished, Evicted, NoDups, Last;
    LastEnds(s.history, id);
    FinishedGrow(s.history, id);
    LastIds(s.history);
  }

  lemma KeysAfterReturn(pending: set<string>, live: set<string>, fin: set<string>, fin': set<string>, id: string)
    requires id in live && id in fin' && fin' <= fin + {id}
    requires (pending + live) !! fin && pending !! live
    ensures (pending + live + fin) - (fin + {id} - fin') == pending + (live - {id}) + fin'
  {
  }

  /** The set clauses of the invariant when `id` has moved from the live jobs to the finished ones. */
  lemma SetsAfterReturn(pending: set<string>, live: set<string>, over: set<string>, unstored: set<string>, id: string)
    requires id in live && pending !! live && pending !! unstored && (pending + live) !! over
    ensures pending + live + over == pending + (live - {id}) + (over + {id})
    ensures (live - unstored) - {id} == (live - {id}) - unstored
    ensures pending !! (live - {id}) && (pending + (live - {id})) !! (over + {id})
  {
  }

  /** Of the jobs kept after a return, the running ones are the others that have not finished. */
  lemma RunningAfterReturn(s: State, st: Step)
    requires Inv(s) && st.Return? && st.id in s.live
    requires var s' := Next(s, st);
             && s'.m.jobs.Keys == s'.pending + s'.live + Ids(s'.m.finished)
             && s'.m.jobs.Keys <= s.m.jobs.Keys
             && forall x :: x in s'.m.jobs ==> s'.m.jobs[x] == if x == st.id then StatusOf(OutcomeOf(s, st)) else s.m.jobs[x]
    ensures var s' := Next(s, st);
            forall x :: x in s'.m.jobs ==> (s'.m.jobs[x].Running? <==> x in s'.pending + s'.live)
                                           && (s'.m.jobs[x].Cancelled? ==> x in s'.issued)
  {
    hide Finished, Evicted, NoDups, Last, Ids;
  }

  lemma InvReturn(s: State, st: Step)
    requires Inv(s) && st.Return? && st.id in s.live
    ensures Inv(Next(s, st))
  {
    ReturnFacts(s, st);
    var s' := Next(s, st);
    assert s'.pending == s.pending && s'.live == s.live - {st.id} && s'.unstored == s.unstored;
    assert s'.used == s.used && s'.issued == s.issued;
    assert (s.pending + s.live) !! Ids(s.m.finished);
    hide Finished, Evicted, NoDups, Last, Ids, OutcomeOf, StatusOf, Next;
    KeysAfterReturn(s.pending, s.live, Ids(s.m.finished), Ids(s'.m.finished), st.id);
    RunningAfterReturn(s, st);
    SetsAfterReturn(s.pending, s.live, Ids(s.history), s.unstored, st.id);
  }

  lemma LastIds(h: seq<string>)
    ensures Ids(Last(h, MAX_FINISHED)) <= Ids(h)
  {
  }

  lemma LastEnds(h: seq<string>, id: string)
    ensures id in Ids(Last(h + [id], MAX_FINISHED))
  {
    var l := Last(h + [id], MAX_FINISHED);
    assert l[|l| - 1] == id;
  }

  lemma FinishedGrow(h: seq<string>, id: string)
    ensures Ids(Last(h + [id], MAX_FINISHED)) <= Ids(Last(h, MAX_FINISHED)) + {id}
  {
    LastAppend(h, id, MAX_FINISHED);
    var l := Last(h, MAX_FINISHED);
    assert Ids(Last(l + [id], MAX_FINISHED)) <= Ids(l + [id]);
  }

  lemma InvStep(s: State, st: Step)
    requires Inv(s)
    ensures Inv(Next(s, st))
  {
    if st.Return? && st.id in s.live {
      InvReturn(s, st);
    } else {
      hide Evicted;
    }
  }

  lemma {:induction false} InvRun(s: State, steps: seq<Step>)
    requires Inv(s)
    ensures Inv(Run(s, steps))
    decreases |steps|
  {
    hide Inv, Next;
    if steps != [] {
      InvStep(s, steps[0]);
      InvRun(Next(s, steps[0]), steps[1..]);
    }
  }

  lemma InitInv()
    ensures Inv(Init())
  {
    assert NoDups([]) && Ids([]) == {};
  }

  /**
   Every interleaving of starts, completions, cancels and evictions: the finished list has no
   duplicates and is the last 256 finishes; the jobs kept are the unfinished ones and that list;
   a cancel entry belongs to a running job; "cancelled" only follows an issued cancel.
   */
  lemma ManagerInvariant(steps: seq<Step>)
    ensures var s := Run(Init(), steps);
            && NoDups(s.history) && s.m.finished == Last(s.history, 256)
            && s.m.jobs.Keys == s.pending + s.live + Ids(s.m.finished)
            && (forall id :: id in s.m.jobs ==> (s.m.jobs[id].Running? <==> id in s.pending + s.live))
            && (forall id :: id in s.m.cancels ==> IsRunning(s.m, id) && id in s.live)
            && (forall id :: id in s.m.jobs && s.m.jobs[id].Cancelled? ==> id in s.issued)
  {
    InitInv();
    InvRun(Init(), steps);
  }

  /**
   Cancel reports "known but nothing issued" exactly for a job that has finished and for one
   whose Start has not stored its cancel function yet, which is still running.
   */
  lemma CancelRefusedIff(steps: seq<Step>, id: string)
    ensures var s := Run(Init(), steps);
            id in s.m.jobs && !Cancellable(s.m, id) <==>
            id in s.m.finished || id in s.pending || id in s.live * s.unstored
  {
    InitInv();
    InvRun(Init(), steps);
    var s := Run(Init(), steps);
    assert forall x :: x in s.m.finished <==> x in Ids(s.m.finished);
    assert forall x :: x in s.m.finished ==> x in s.history;
    assert forall x :: x in s.history <==> x in Ids(s.history);
  }

  /** A running job that Cancel refuses: its goroutine is launched, its Start has not stored the cancel function. */
  lemma RunningRefused(id: string)
    ensures var s := Run(Init(), [Begin(id), Launch(id)]);
            && IsRunning(s.m, id) && id in s.live && !Cancellable(s.m, id)
            && Next(s, CancelJob(id)) == s
  {
    var s1 := Next(Init(), Begin(id));
    var s2 := Next(s1, Launch(id));
    assert [Begin(id), Launch(id)][1..] == [Launch(id)] && [Launch(id)][1..] == [];
    assert Run(s1, [Launch(id)]) == Run(s2, []) == s2;
  }

  /** The id has finished, and whatever is still known of it is the status `v`. */
  predicate Settled(s: State, id: string, v: Status) {
    id in s.history && (id in s.m.jobs ==> s.m.jobs[id] == v)
  }

  lemma SettledStep(s: State, st: Step, id: string, v: Status)
    requires Inv(s) && Settled(s, id, v)
    ensures Settled(Next(s, st), id, v)
    ensures id !in s.m.jobs ==> id !in Next(s, st).m.jobs
  {
    assert id in Ids(s.history);
    if st.Return? && st.id in s.live {
      var m1 := Manager(s.m.jobs[st.id := StatusOf(OutcomeOf(s, st))], s.m.finished + [st.id], s.m.cancels - {st.id});
      assert forall x :: x in s.m.finished ==> x in s.history;
      assert forall x :: x in s.history ==> x in Ids(s.history);
      assert NoDups(m1.finished);
      EvictedClosedForm(m1);
      assert Next(s, st).m == Evicted(m1);
    } else {
      hide Evicted;
    }
  }

  lemma {:induction false} SettledRun(s: State, steps: seq<Step>, id: string, v: Status)
    requires Inv(s) && Settled(s, id, v)
    ensures Settled(Run(s, steps), id, v)
    ensures id !in s.m.jobs ==> id !in Run(s, steps).m.jobs
    decreases |steps|
  {
    hide Inv, Next, Settled;
    if steps != [] {
      SettledStep(s, steps[0], id, v);
      InvStep(s, steps[0]);
      SettledRun(Next(s, steps[0]), steps[1..], id, v);
    }
  }

  /** A terminal status never changes: the job keeps it until it is evicted, and then stays unknown. */
  lemma TerminalIsFinal(past: seq<Step>, more: seq<Step>, id: string)
    ensures var s := Run(Init(), past);
            var s' := Run(s, more);
            && (id in s.m.jobs && !s.m.jobs[id].Running? && id in s'.m.jobs ==> s'.m.jobs[id] == s.m.jobs[id])
            && (id in s.history && id !in s.m.jobs ==> id !in s'.m.jobs)
  {
    InitInv();
    InvRun(Init(), past);
    var s := Run(Init(), past);
    assert forall x :: x in s.m.finished ==> x in s.history;
    if id in s.m.jobs && !s.m.jobs[id].Running? {
      assert id in Ids(s.m.finished);
      SettledRun(s, more, id, s.m.jobs[id]);
    } else if id in s.history && id !in s.m.jobs {
      SettledRun(s, more, id, Done);
    }
  }

  /**
   What a job that returns is called, at once and for as long as it is kept: done if its function
   did not fail; cancelled if it failed, a cancel had been issued and it beat the deadline; error
   otherwise.
   */
  lemma OutcomeIsKept(past: seq<Step>, id: string, failed: bool, deadlineFirst: bool, more: seq<Step>)
    requires id in Run(Init(), past).live
    ensures var s := Run(Init(), past);
            var s1 := Next(s, Return(id, failed, deadlineFirst));
            var s' := Run(s1, more);
            && id in s1.m.jobs
            && (id in s'.m.jobs ==>
                  && (s'.m.jobs[id] == Done <==> !failed)
                  && (s'.m.jobs[id] == Cancelled <==> failed && id in s.issued && !deadlineFirst)
                  && (s'.m.jobs[id] == Error <==> failed && (id !in s.issued || deadlineFirst)))
  {
    InitInv();
    InvRun(Init(), past);
    var s, st := Run(Init(), past), Return(id, failed, deadlineFirst);
    ReturnFacts(s, st);
    InvStep(s, st);
    var s1 := Next(s, st);
    assert id in Ids(s1.m.finished) && id in s1.history;
    var v := StatusOf(OutcomeOf(s, st));
    assert Settled(s1, id, v);
    hide Inv, Next, Settled, Finished, Run;
    SettledRun(s1, more, id, v);
    Unsettle(Run(s1, more), id, v);
  }

  lemma Unsettle(s: State, id: string, v: Status)
    requires Settled(s, id, v)
    ensures id in s.m.jobs ==> s.m.jobs[id] == v
  {
  }
  /** Some cancel met the job running with its cancel function stored. */
  predicate Fired(s: State, steps: seq<Step>, id: string) {
    exists k :: 0 <= k < |steps| && steps[k] == CancelJob(id) && Fires(Run(s, steps[..k]).m, id)
  }

  predicate Fires(m: Manager, id: string) {
    id in m.jobs && m.jobs[id] == Running && id in m.cancels
  }

  lemma {:induction false} IssuedFrom(s: State, steps: seq<Step>, id: string)
    ensures id in Run(s, steps).issued <==> id in s.issued || Fired(s, steps, id)
    decreases |steps|
  {
    if steps != [] {
      var s1, rest := Next(s, steps[0]), steps[1..];
      IssuedFrom(s1, rest, id);
      assert id in s1.issued <==> id in s.issued || (steps[0] == CancelJob(id) && Fires(s.m, id));
      hide Next, Fires;
      assert Run(s, steps[..0]) == s;
      forall k | 0 <= k < |rest| ensures Run(s, steps[..k + 1]) == Run(s1, rest[..k]) && rest[k] == steps[k + 1] {
        assert steps[..k + 1][1..] == rest[..k];
      }
      if k :| 0 <= k < |steps| && steps[k] == CancelJob(id) && Fires(Run(s, steps[..k]).m, id) {
        assert k > 0 ==> rest[k - 1] == CancelJob(id) && Fires(Run(s1, rest[..k - 1]).m, id);
      }
      if k :| 0 <= k < |rest| && rest[k] == CancelJob(id) && Fires(Run(s1, rest[..k]).m, id) {
        assert steps[k + 1] == CancelJob(id) && Fires(Run(s, steps[..k + 1]).m, id);
      }
    }
  }

  /** A cancel has been issued for a job exactly if one met it running with its cancel function stored. */
  lemma IssuedIff(steps: seq<Step>, id: string)
    ensures id in Run(Init(), steps).issued <==> Fired(Init(), steps, id)
  {
    IssuedFrom(Init(), steps, id);
  }
}
