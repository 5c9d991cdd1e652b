/**
 The acknowledgement cursor of the poll transport over whole runs: what it has passed, and when
 it can move back. A failed cursor read is taken for 0, so a batch may be served again.
 */
module Cursor {
  import opened InboxTable
  import opened Poll
  import opened Delivery

  /** The update has a row and it is no longer pending. */
  predicate Processed(s: State, id: int) {
    id in s.rows && s.rows[id].status != Pending
  }

  /** Recorded or failed to be, and not left pending unless its row came late. */
  predicate Passed(s: State, id: int) {
    (id in s.rows || id in s.failed) && (id in s.rows && s.rows[id].status == Pending ==> id in s.late)
  }

  /** The poll transport alone: no webhook delivers on the same database. */
  predicate PollOnly(steps: seq<Step>) {
    forall st :: st in steps ==> !st.Webhook?
  }

  // ------------------------------------------------------------------ the batch being worked on

  /** What a batch holds: the unconfirmed updates up to its last one, in order, each recorded or failed so far. */
  ghost predicate BatchInv(s: State, batch: seq<int>, next: nat) {
    && next <= |batch| && Ascending(batch)
    && (forall x :: x in batch ==> x in s.offered && x > s.confirmed)
    && (forall o, x :: o in s.offered && o > s.confirmed && x in batch && o <= x ==> o in batch)
    && (forall i :: 0 <= i < next ==> batch[i] in s.rows || batch[i] in s.failed)
  }

  ghost predicate Shape(s: State) {
    && 0 <= s.confirmed <= s.cursor
    && (s.cursor == 0 || s.cursor in s.offered)
    && (forall o :: o in s.offered ==> o > 0)
    && s.rows.Keys <= s.offered
    && (s.poll.Enqueueing? ==> BatchInv(s, s.poll.batch, s.poll.next))
    && (s.poll.Acking? ==> s.poll.ack == 0 || (s.poll.ack in s.offered && s.poll.ack > s.confirmed))
  }

  /** The update is among the first `limit` ones still served. */
  predicate Served(s: State, cfg: Config, id: int) {
    |Below(Unconfirmed(s, s.confirmed), id)| < cfg.limit
  }

  /** Batches have a fixed size, so an update that was acknowledged and is served again is in the next batch. */
  ghost predicate Reach(s: State, cfg: Config) {
    && (s.cursor > s.confirmed ==> Served(s, cfg, s.cursor))
    && (s.poll.Enqueueing? ==>
          && (s.cursor > s.confirmed ==> s.cursor in s.poll.batch)
          && forall x :: x in s.poll.batch ==> Served(s, cfg, x))
    && (s.poll.Acking? && s.poll.ack != 0 ==> Served(s, cfg, s.poll.ack))
  }

  /** Everything at or below the cursor, and at or below an acknowledgement on its way, has been passed. */
  ghost predicate PassedInv(s: State) {
    && s.late <= s.failed
    && (forall o :: o in s.offered && o <= s.cursor ==> Passed(s, o))
    && (s.poll.Acking? ==> forall o :: o in s.offered && o <= s.poll.ack ==> Passed(s, o))
  }

  /** A state that a step not of the poll side leaves as far as the cursor is concerned. */
  ghost predicate SamePoll(s: State, s': State) {
    && s'.offered == s.offered && s'.confirmed == s.confirmed && s'.cursor == s.cursor
    && s'.failed == s.failed && s'.late == s.late && s'.rows.Keys == s.rows.Keys
    && (forall id :: Processed(s, id) ==> Processed(s', id))
    && (s'.poll == s.poll || s'.poll.PollIdle?)
  }

  lemma SamePollKeeps(s: State, s': State, cfg: Config)
    requires SamePoll(s, s')
    ensures Shape(s) ==> Shape(s')
    ensures Reach(s, cfg) ==> Reach(s', cfg)
    ensures PassedInv(s) ==> PassedInv(s')
  {
    forall o ensures Passed(s, o) ==> Passed(s', o) {
      assert Processed(s, o) ==> Processed(s', o);
    }
    hide Passed, Below, PendingIds;
  }

  /** Nothing the cursor depends on is touched. */
  predicate Untouched(s: State, s': State) {
    && s'.rows == s.rows && s'.poll == s.poll && s'.late == s.late && s'.failed == s.failed
    && s'.offered == s.offered && s'.confirmed == s.confirmed && s'.cursor == s.cursor
  }

  lemma SendUntouched(s: State, w: nat, ok: bool)
    requires w < |s.workers|
    ensures Untouched(s, SendStep(s, w, ok)) && Untouched(s, EditStep(s, w, ok))
  {
  }

  lemma EndUntouched(s: State, w: nat, ok: bool)
    requires w < |s.workers|
    ensures Untouched(s, ResendStep(s, w, ok)) && Untouched(s, ReleaseStep(s, w)) && Untouched(s, LeaseStep(s, w))
  {
    hide Oldest, PendingIds;
  }

  lemma WorkQuiet(s: State, cfg: Config, w: nat, act: Act)
    requires w < |s.workers| && !act.Begin? && !act.Claim?
    ensures SamePoll(s, WorkerStep(s, cfg, w, act))
  {
    match act {
      case Send(ok) => SendUntouched(s, w, ok);
      case Edit(ok) => SendUntouched(s, w, ok);
      case Resend(ok) => EndUntouched(s, w, ok);
      case _ => EndUntouched(s, w, true);
    }
    hide LeaseStep, SendStep, EditStep, ResendStep, ReleaseStep;
    assert Untouched(s, WorkerStep(s, cfg, w, act));
    UntouchedSame(s, WorkerStep(s, cfg, w, act));
    hide WorkerStep;
  }

  lemma UntouchedSame(s: State, s': State)
    requires Untouched(s, s')
    ensures SamePoll(s, s')
  {
  }

  lemma WorkTable(s: State, cfg: Config, w: nat, act: Act)
    requires w < |s.workers| && (act.Begin? || act.Claim?)
    ensures SamePoll(s, WorkerStep(s, cfg, w, act))
  {
    hide Oldest, PendingIds;
  }

  lemma WorkSamePoll(s: State, cfg: Config, w: nat, act: Act)
    requires w < |s.workers|
    ensures SamePoll(s, WorkerStep(s, cfg, w, act))
  {
    hide WorkerStep, SamePoll;
    if act.Begin? || act.Claim? {
      WorkTable(s, cfg, w, act);
    } else {
      WorkQuiet(s, cfg, w, act);
    }
  }

  lemma ReopenKeeps(s: State, id: int)
    ensures Reopened(s.rows, id).Keys == s.rows.Keys
    ensures forall x :: Processed(s, x) ==> x in s.rows && Reopened(s.rows, id)[x].status != Pending
  {
  }

  lemma QuietSamePoll(s: State, cfg: Config, st: Step)
    requires st.ApplyRelease? || st.Crash?
    ensures SamePoll(s, Next(s, cfg, st))
  {
    hide Oldest, WorkerStep, PollStep, Fresh;
    if st.ApplyRelease? {
      ReopenKeeps(s, st.id);
      hide Reopened;
    }
  }

  lemma OtherSamePoll(s: State, cfg: Config, st: Step)
    requires st.ApplyRelease? || st.Crash? || st.Work?
    ensures SamePoll(s, Next(s, cfg, st))
  {
    hide WorkerStep, PollStep, Oldest;
    if !st.Work? {
      QuietSamePoll(s, cfg, st);
    } else if st.w < |s.workers| {
      WorkSamePoll(s, cfg, st.w, st.act);
    }
  }

  // ------------------------------------------------------------------ one step of the poll side

  lemma ArriveKeeps(s: State, cfg: Config, id: int)
    requires Shape(s) && Reach(s, cfg)
    ensures var s' := PollStep(s, cfg, Arrive(id));
            Shape(s') && Reach(s', cfg) && (PassedInv(s) ==> PassedInv(s')) && s'.cursor == s.cursor && s'.late == s.late
  {
    var s' := PollStep(s, cfg, Arrive(id));
    if s' != s {
      forall x | x in s.offered ensures Served(s, cfg, x) ==> Served(s', cfg, x) {
        assert Below(Unconfirmed(s', s'.confirmed), x) == Below(Unconfirmed(s, s.confirmed), x);
      }
      assert forall o :: Passed(s, o) ==> Passed(s', o);
      hide Served, Passed, Unconfirmed, Below, Oldest;
    }
  }

  lemma FetchKeeps(s: State, cfg: Config, readOk: bool, answered: bool)
    requires Shape(s) && Reach(s, cfg)
    ensures var s' := PollStep(s, cfg, Fetch(readOk, answered));
            Shape(s') && Reach(s', cfg) && (PassedInv(s) ==> PassedInv(s')) && s'.cursor == s.cursor && s'.late == s.late
  {
    var s' := PollStep(s, cfg, Fetch(readOk, answered));
    if s.poll.PollIdle? {
      var left := Unconfirmed(s, s'.confirmed);
      OldestFacts(left, cfg.limit);
      forall x | x in left ensures x in Oldest(left, cfg.limit) <==> Served(s', cfg, x) {
        InWindowIff(left, cfg.limit, x);
      }
      assert s'.confirmed == s.confirmed || s'.confirmed == s.cursor;
      assert s'.confirmed == s.confirmed ==> (Served(s, cfg, s.cursor) <==> Served(s', cfg, s.cursor));
      assert forall o :: Passed(s, o) ==> Passed(s', o);
      hide Served, Passed, Oldest, Below;
    }
  }

  lemma EnqueueKeeps(s: State, cfg: Config, ok: bool)
    requires Shape(s) && Reach(s, cfg)
    ensures var s' := PollStep(s, cfg, EnqueueNext(ok));
            Shape(s') && Reach(s', cfg) && s'.cursor == s.cursor && s.late <= s'.late
  {
    var s' := PollStep(s, cfg, EnqueueNext(ok));
    assert Unconfirmed(s', s'.confirmed) == Unconfirmed(s, s.confirmed);
    if s.poll.Enqueueing? && s.poll.next < |s.poll.batch| {
      assert s.poll.batch[s.poll.next] in s.poll.batch;
    }
    hide Below, Unconfirmed, Oldest;
  }

  lemma EnqueuePasses(s: State, cfg: Config, ok: bool)
    requires Shape(s) && PassedInv(s)
    ensures PassedInv(PollStep(s, cfg, EnqueueNext(ok)))
  {
    var s' := PollStep(s, cfg, EnqueueNext(ok));
    if s.poll.Enqueueing? && s.poll.next < |s.poll.batch| {
      var id := s.poll.batch[s.poll.next];
      assert id in s.poll.batch;
      assert id in s.offered && id <= s.cursor ==> Passed(s, id);
      assert forall o :: o != id ==> (Passed(s, o) ==> Passed(s', o));
    }
  }

  lemma WriteKeeps(s: State, cfg: Config, ok: bool)
    requires Shape(s) && Reach(s, cfg)
    ensures var s' := PollStep(s, cfg, WriteCursor(ok));
            Shape(s') && Reach(s', cfg) && (PassedInv(s) ==> PassedInv(s')) && s'.late == s.late
  {
    var s' := PollStep(s, cfg, WriteCursor(ok));
    assert forall o :: Passed(s, o) <==> Passed(s', o);
    hide Passed, Oldest, Below;
  }

  /** What the scan finds: the update right before the first pending one, or nothing. */
  lemma ReadFinds(s: State, cfg: Config)
    requires Shape(s) && s.poll.Enqueueing? && s.poll.next == |s.poll.batch|
    ensures var k := Finished(s.poll.batch, Window(s.rows));
            PollStep(s, cfg, ReadPending) == s.(poll := Acking(if k == 0 then 0 else s.poll.batch[k - 1]))
  {
    var batch := s.poll.batch;
    assert forall x :: x in batch ==> x > 0;
    AckMeaning(0, batch, Window(s.rows));
    hide Window;
  }

  lemma ReadKeeps(s: State, cfg: Config)
    requires Shape(s) && Reach(s, cfg)
    ensures var s' := PollStep(s, cfg, ReadPending);
            Shape(s') && Reach(s', cfg) && s'.cursor == s.cursor && s'.late == s.late
  {
    if s.poll.Enqueueing? && s.poll.next == |s.poll.batch| {
      ReadFinds(s, cfg);
      hide PollStep, Window, Finished, Below, Unconfirmed;
      var k := Finished(s.poll.batch, Window(s.rows));
      assert k > 0 ==> s.poll.batch[k - 1] in s.poll.batch;
    }
  }

  /**
   The bounded read suffices: unless as many rows as it holds came late, a pending member of the
   batch has a member at or before it inside the window, so the scan stops in time.
   */
  lemma WindowReachesBatch(s: State, i: nat)
    requires Shape(s) && PassedInv(s) && s.poll.Enqueueing? && i < |s.poll.batch|
    requires s.poll.batch[i] in s.rows && s.rows[s.poll.batch[i]].status == Pending
    requires s.poll.batch[i] !in s.late && |s.late| < PENDING_WINDOW
    ensures exists j :: 0 <= j <= i && s.poll.batch[j] in Window(s.rows)
  {
    var batch, pending := s.poll.batch, PendingIds(s.rows);
    assert batch[i] in pending && batch[i] in batch;
    if forall j :: 0 <= j < i ==> batch[j] !in Window(s.rows) {
      OldestFacts(pending, PENDING_WINDOW);
      hide Oldest;
      forall x | x in Below(pending, batch[i]) && x in Oldest(pending, PENDING_WINDOW) ensures x in s.late {
        NotBefore(batch, i, x, Window(s.rows));
        assert x <= s.confirmed;
        assert Passed(s, x);
      }
      WindowOrSmaller(pending, PENDING_WINDOW, batch[i], s.late);
    }
  }

  /** When none of the first `i` members is in the window, a smaller element of the window is no member. */
  lemma NotBefore(batch: seq<int>, i: nat, x: int, window: set<int>)
    requires Ascending(batch) && i < |batch| && x < batch[i] && x in window
    requires forall j :: 0 <= j < i ==> batch[j] !in window
    ensures x !in batch
  {
    forall j | 0 <= j < |batch| ensures batch[j] != x {
      assert j > i ==> batch[i] < batch[j];
    }
  }

  /** An element is in the window if those smaller ones that are in it lie in a set of fewer than `n`. */
  lemma WindowOrSmaller(s: set<int>, n: nat, p: int, few: set<int>)
    requires p in s && |few| < n
    requires forall x :: x in Below(s, p) && x in Oldest(s, n) ==> x in few
    ensures p in Oldest(s, n)
  {
    var o := Oldest(s, n);
    OldestFacts(s, n);
    AscendingSize(o);
    if p !in o {
      var os := Members(o);
      assert os <= few;
      SubsetSize(os, few);
    }
  }

  /** Whatever the scan gets past has been passed. */
  lemma ScannedPassed(s: State, k: nat, o: int)
    requires Shape(s) && PassedInv(s) && |s.late| < PENDING_WINDOW && s.poll.Enqueueing? && s.poll.next == |s.poll.batch|
    requires 0 < k <= |s.poll.batch| && forall i :: 0 <= i < k ==> s.poll.batch[i] !in Window(s.rows)
    requires o in s.offered && o <= s.poll.batch[k - 1]
    ensures Passed(s, o)
  {
    hide Window;
    var batch := s.poll.batch;
    if o > s.cursor {
      assert batch[k - 1] in batch;
      var i :| 0 <= i < |batch| && batch[i] == o;
      assert i < k;
      if o in s.rows && s.rows[o].status == Pending && o !in s.late {
        WindowReachesBatch(s, i);
      }
    }
  }

  lemma ReadPasses(s: State, cfg: Config)
    requires Shape(s) && PassedInv(s) && |s.late| < PENDING_WINDOW
    ensures PassedInv(PollStep(s, cfg, ReadPending))
  {
    if s.poll.Enqueueing? && s.poll.next == |s.poll.batch| {
      ReadFinds(s, cfg);
      var batch, k := s.poll.batch, Finished(s.poll.batch, Window(s.rows));
      var s' := PollStep(s, cfg, ReadPending);
      hide PollStep, Window, Finished, Shape;
      forall o | k > 0 && o in s.offered && o <= batch[k - 1] ensures Passed(s, o) {
        ScannedPassed(s, k, o);
      }
      assert forall o :: Passed(s, o) <==> Passed(s', o);
      assert forall o :: o in s.offered ==> o > 0 by { OfferedPositive(s); }
    }
  }

  lemma OfferedPositive(s: State)
    requires Shape(s)
    ensures forall o :: o in s.offered ==> o > 0
  {
  }

  // ------------------------------------------------------------------ whole runs

  lemma StepKeeps(s: State, cfg: Config, st: Step)
    requires Shape(s) && Reach(s, cfg) && !st.Webhook?
    ensures var s' := Next(s, cfg, st);
            && Shape(s') && Reach(s', cfg) && s.late <= s'.late
            && (!st.WriteCursor? ==> s'.cursor == s.cursor)
  {
    hide Shape, Reach, PassedInv, PollStep, WorkerStep;
    match st
    case Arrive(id) => ArriveKeeps(s, cfg, id);
    case Fetch(readOk, answered) => FetchKeeps(s, cfg, readOk, answered);
    case EnqueueNext(ok) => EnqueueKeeps(s, cfg, ok);
    case ReadPending => ReadKeeps(s, cfg);
    case WriteCursor(ok) => WriteKeeps(s, cfg, ok);
    case _ =>
      OtherSamePoll(s, cfg, st);
      SamePollKeeps(s, Next(s, cfg, st), cfg);
  }

  lemma StepPasses(s: State, cfg: Config, st: Step)
    requires Shape(s) && Reach(s, cfg) && PassedInv(s) && !st.Webhook? && |s.late| < PENDING_WINDOW
    ensures PassedInv(Next(s, cfg, st))
  {
    hide Shape, Reach, PassedInv, PollStep, WorkerStep;
    match st
    case Arrive(id) => ArriveKeeps(s, cfg, id);
    case Fetch(readOk, answered) => FetchKeeps(s, cfg, readOk, answered);
    case EnqueueNext(ok) => EnqueuePasses(s, cfg, ok);
    case ReadPending => ReadPasses(s, cfg);
    case WriteCursor(ok) => WriteKeeps(s, cfg, ok);
    case _ =>
      OtherSamePoll(s, cfg, st);
      SamePollKeeps(s, Next(s, cfg, st), cfg);
  }

  lemma {:induction false} RunKeeps(s: State, cfg: Config, steps: seq<Step>)
    requires Shape(s) && Reach(s, cfg) && PollOnly(steps)
    ensures var s' := Run(s, cfg, steps); Shape(s') && Reach(s', cfg) && s.late <= s'.late
    decreases |steps|
  {
    hide Shape, Reach, Next;
    if steps != [] {
      assert steps[0] in steps;
      StepKeeps(s, cfg, steps[0]);
      RunKeeps(Next(s, cfg, steps[0]), cfg, steps[1..]);
    }
  }

  lemma {:induction false} RunPasses(s: State, cfg: Config, steps: seq<Step>)
    requires Shape(s) && Reach(s, cfg) && PassedInv(s) && PollOnly(steps)
    requires |Run(s, cfg, steps).late| < PENDING_WINDOW
    ensures PassedInv(Run(s, cfg, steps))
    decreases |steps|
  {
    hide Shape, Reach, PassedInv, Next;
    if steps != [] {
      assert steps[0] in steps;
      RunKeeps(s, cfg, steps);
      SubsetSize(s.late, Run(s, cfg, steps).late);
      StepKeeps(s, cfg, steps[0]);
      StepPasses(s, cfg, steps[0]);
      RunPasses(Next(s, cfg, steps[0]), cfg, steps[1..]);
    }
  }

  lemma InitShape(workers: nat, cfg: Config)
    ensures Shape(Init(workers)) && Reach(Init(workers), cfg) && PassedInv(Init(workers))
  {
  }

  /**
   The cursor over every poll run, with crashes, failing writes and failing reads in it: every
   update offered at or below it is processed, unless its enqueue has failed. The window of the
   pending read is enough as long as fewer rows than it holds were made behind the cursor.
   */
  lemma CursorSafety(workers: nat, cfg: Config, steps: seq<Step>, id: int)
    requires PollOnly(steps) && |Run(Init(workers), cfg, steps).late| < PENDING_WINDOW
    ensures var s := Run(Init(workers), cfg, steps);
            id in s.offered && id <= s.cursor && id !in s.failed ==> Processed(s, id)
  {
    InitShape(workers, cfg);
    RunPasses(Init(workers), cfg, steps);
    hide Run;
  }

  predicate NoFailedEnqueue(steps: seq<Step>) {
    forall st :: st in steps ==> st != EnqueueNext(false)
  }

  /** Every read of the cursor succeeds. */
  predicate NoFailedRead(steps: seq<Step>) {
    forall st :: st in steps && st.Fetch? ==> st.readOk
  }

  lemma FailedStays(s: State, cfg: Config, st: Step)
    requires st != EnqueueNext(false)
    ensures Next(s, cfg, st).failed == s.failed
  {
    if st.Work? && st.w < |s.workers| {
      WorkSamePoll(s, cfg, st.w, st.act);
    }
    hide WorkerStep, Oldest, AckTo, Window;
  }

  /** Without a failed enqueue nothing is late either. */
  lemma {:induction false} NothingFails(s: State, cfg: Config, steps: seq<Step>)
    requires Shape(s) && Reach(s, cfg) && PassedInv(s) && PollOnly(steps) && NoFailedEnqueue(steps) && s.failed == {}
    ensures Run(s, cfg, steps).failed == {} && Run(s, cfg, steps).late == {}
    decreases |steps|
  {
    assert s.late == {};
    hide Shape, Reach, PassedInv, Next;
    if steps != [] {
      assert steps[0] in steps && forall x :: x in steps[1..] ==> x in steps;
      StepKeeps(s, cfg, steps[0]);
      StepPasses(s, cfg, steps[0]);
      FailedStays(s, cfg, steps[0]);
      NothingFails(Next(s, cfg, steps[0]), cfg, steps[1..]);
    }
  }

  /** When every enqueue succeeds, nothing at or below the cursor is left unprocessed. */
  lemma CursorNeverSkips(workers: nat, cfg: Config, steps: seq<Step>, id: int)
    requires PollOnly(steps) && NoFailedEnqueue(steps)
    ensures var s := Run(Init(workers), cfg, steps);
            id in s.offered && id <= s.cursor ==> Processed(s, id)
  {
    InitShape(workers, cfg);
    NothingFails(Init(workers), cfg, steps);
    CursorSafety(workers, cfg, steps, id);
    hide Run;
  }

  /** While every cursor read succeeds, a batch lies wholly above the cursor. */
  predicate Ahead(s: State) {
    s.late == {} && (s.poll.Enqueueing? ==> s.confirmed == s.cursor)
  }

  lemma StepAhead(s: State, cfg: Config, st: Step)
    requires Shape(s) && Ahead(s) && !st.Webhook? && (st.Fetch? ==> st.readOk)
    ensures Ahead(Next(s, cfg, st))
  {
    if st.Work? && st.w < |s.workers| {
      WorkSamePoll(s, cfg, st.w, st.act);
    }
    hide WorkerStep, Oldest, AckTo, Window;
    if st.EnqueueNext? && s.poll.Enqueueing? && s.poll.next < |s.poll.batch| {
      assert s.poll.batch[s.poll.next] in s.poll.batch;
    }
  }

  lemma {:induction false} NothingLate(s: State, cfg: Config, steps: seq<Step>)
    requires Shape(s) && Reach(s, cfg) && Ahead(s) && PollOnly(steps) && NoFailedRead(steps)
    ensures Run(s, cfg, steps).late == {}
    decreases |steps|
  {
    hide Shape, Reach, Next;
    if steps != [] {
      assert steps[0] in steps && forall x :: x in steps[1..] ==> x in steps;
      StepKeeps(s, cfg, steps[0]);
      StepAhead(s, cfg, steps[0]);
      NothingLate(Next(s, cfg, steps[0]), cfg, steps[1..]);
    }
  }

  // ------------------------------------------------------------------ does it pass recorded work

  /** A recorded, unprocessed update that the cursor has passed on the way from `s` to `s'`. */
  predicate PassesWork(s: State, s': State, id: int) {
    id in PendingIds(s.rows) && s.cursor < id <= s'.cursor
  }

  /** A member of the batch that lies above the cursor and is not processed. */
  predicate WorkAhead(s: State, batch: seq<int>, x: int) {
    x in batch && x in PendingIds(s.rows) && x > s.cursor
  }

  /**
   When the bounded read is not enough: in any reachable state, finishing the round takes the cursor
   past a recorded, unprocessed update exactly if the batch holds one above the cursor and the first
   unprocessed one of the batch has as many older pending rows as the read holds.
   */
  lemma PassesIff(workers: nat, cfg: Config, past: seq<Step>)
    requires PollOnly(past)
    requires var s := Run(Init(workers), cfg, past); s.poll.Enqueueing? && s.poll.next == |s.poll.batch|
    ensures var s := Run(Init(workers), cfg, past);
            var s' := Next(Next(s, cfg, ReadPending), cfg, WriteCursor(true));
            var f := Finished(s.poll.batch, PendingIds(s.rows));
            (exists id :: PassesWork(s, s', id))
            <==> (exists x :: WorkAhead(s, s.poll.batch, x)) && f < |s.poll.batch| && Crowded(s.rows, s.poll.batch[f])
  {
    InitShape(workers, cfg);
    RunKeeps(Init(workers), cfg, past);
    hide *;
    RoundPasses(Run(Init(workers), cfg, past), cfg);
  }

  lemma RoundPasses(s: State, cfg: Config)
    requires Shape(s) && s.poll.Enqueueing? && s.poll.next == |s.poll.batch|
    ensures var s' := Next(Next(s, cfg, ReadPending), cfg, WriteCursor(true));
            var f := Finished(s.poll.batch, PendingIds(s.rows));
            (exists id :: PassesWork(s, s', id))
            <==> (exists x :: WorkAhead(s, s.poll.batch, x)) && f < |s.poll.batch| && Crowded(s.rows, s.poll.batch[f])
  {
    var s' := Next(Next(s, cfg, ReadPending), cfg, WriteCursor(true));
    var batch, f := s.poll.batch, Finished(s.poll.batch, PendingIds(s.rows));
    RoundCursor(s, cfg);
    assert forall x :: x in batch ==> x > 0;
    ScanMeaning(batch, s.rows);
    hide Next, AckTo, Crowded, Window;
    if x :| f < |batch| && Crowded(s.rows, batch[f]) && WorkAhead(s, batch, x) {
      UpToLast(batch, x);
      assert PassesWork(s, s', x);
    }
    if id :| PassesWork(s, s', id) {
      assert id in s.rows && id in s.offered && s'.cursor in batch;
      assert WorkAhead(s, batch, id);
      FirstIsBefore(batch, PendingIds(s.rows), id);
    }
  }

  lemma RoundCursor(s: State, cfg: Config)
    requires s.poll.Enqueueing? && s.poll.next == |s.poll.batch|
    ensures var ack := AckTo(0, s.poll.batch, Window(s.rows));
            Next(Next(s, cfg, ReadPending), cfg, WriteCursor(true)).cursor == if ack == 0 then s.cursor else ack
  {
    hide AckTo, Window;
  }

  lemma UpToLast(batch: seq<int>, x: int)
    requires Ascending(batch) && x in batch
    ensures x <= batch[|batch| - 1]
  {
    var i :| 0 <= i < |batch| && batch[i] == x;
  }

  lemma FirstIsBefore(batch: seq<int>, pending: set<int>, x: int)
    requires Ascending(batch) && x in batch && x in pending
    ensures var f := Finished(batch, pending);
            f < |batch| && batch[f] <= x && (f > 0 ==> batch[f - 1] < x)
  {
    var i :| 0 <= i < |batch| && batch[i] == x;
    var f := Finished(batch, pending);
    assert f <= i;
    hide Finished;
    assert f == i || batch[f] < batch[i];
    assert f > 0 ==> batch[f - 1] < batch[i];
  }

  // ------------------------------------------------------------------ does it move back

  /**
   A round moves the cursor back exactly when the first pending update of its batch lies at or
   below the cursor and is not the first of the batch.
   */
  lemma BackIff(workers: nat, cfg: Config, past: seq<Step>)
    requires PollOnly(past)
    requires var s := Run(Init(workers), cfg, past); s.poll.Enqueueing? && s.poll.next == |s.poll.batch|
    ensures var s := Run(Init(workers), cfg, past);
            var s' := Next(Next(s, cfg, ReadPending), cfg, WriteCursor(true));
            var k := Finished(s.poll.batch, Window(s.rows));
            s'.cursor < s.cursor <==> 0 < k < |s.poll.batch| && s.poll.batch[k] <= s.cursor
  {
    InitShape(workers, cfg);
    RunKeeps(Init(workers), cfg, past);
    hide *;
    RoundBack(Run(Init(workers), cfg, past), cfg);
  }

  lemma RoundBack(s: State, cfg: Config)
    requires Shape(s) && Reach(s, cfg) && s.poll.Enqueueing? && s.poll.next == |s.poll.batch|
    ensures var s' := Next(Next(s, cfg, ReadPending), cfg, WriteCursor(true));
            var k := Finished(s.poll.batch, Window(s.rows));
            s'.cursor < s.cursor <==> 0 < k < |s.poll.batch| && s.poll.batch[k] <= s.cursor
  {
    AckBackIff(s, cfg);
    RoundCursor(s, cfg);
    ReadFinds(s, cfg);
    assert forall i :: 0 <= i < |s.poll.batch| ==> s.poll.batch[i] in s.poll.batch;
    assert forall i :: 0 <= i < |s.poll.batch| ==> s.poll.batch[i] > 0;
    assert PollStep(s, cfg, ReadPending).poll == Acking(AckTo(0, s.poll.batch, Window(s.rows)));
    hide Next, PollStep, Window, Finished, Shape, Reach, AckTo;
  }

  lemma AckBackIff(s: State, cfg: Config)
    requires Shape(s) && Reach(s, cfg) && s.poll.Enqueueing? && s.poll.next == |s.poll.batch|
    ensures var k := Finished(s.poll.batch, Window(s.rows));
            && PollStep(s, cfg, ReadPending).poll == Acking(if k == 0 then 0 else s.poll.batch[k - 1])
            && (k > 0 && s.poll.batch[k - 1] < s.cursor <==> 0 < k < |s.poll.batch| && s.poll.batch[k] <= s.cursor)
  {
    ReadFinds(s, cfg);
    hide PollStep, Window, Finished, Served, Ascending;
    CutBack(s.poll.batch, Finished(s.poll.batch, Window(s.rows)), s.confirmed, s.cursor);
  }

  /** Cutting an ascending batch that holds the cursor, unless that is confirmed, before position `k`. */
  lemma CutBack(batch: seq<int>, k: nat, confirmed: int, cursor: int)
    requires Ascending(batch) && k <= |batch| && confirmed <= cursor
    requires (forall x :: x in batch ==> x > confirmed) && (cursor > confirmed ==> cursor in batch)
    ensures k > 0 && batch[k - 1] < cursor <==> 0 < k < |batch| && batch[k] <= cursor
  {
    if cursor > confirmed {
      var c :| 0 <= c < |batch| && batch[c] == cursor;
      assert c < k - 1 ==> batch[c] < batch[k - 1];
      assert k < |batch| && k < c ==> batch[k] < batch[c];
      assert k < |batch| && c < k ==> batch[c] < batch[k];
    } else {
      assert forall i :: 0 <= i < |batch| ==> batch[i] in batch;
    }
  }

  /** An acknowledgement on its way is not behind the cursor. */
  predicate Forward(s: State) {
    s.poll.Acking? ==> s.poll.ack == 0 || s.poll.ack >= s.cursor
  }

  lemma ReadForward(s: State, cfg: Config)
    requires Shape(s) && Reach(s, cfg) && PassedInv(s) && Forward(s) && s.late == {}
    ensures Forward(PollStep(s, cfg, ReadPending))
  {
    if s.poll.Enqueueing? && s.poll.next == |s.poll.batch| {
      var batch := s.poll.batch;
      AckBackIff(s, cfg);
      var k := Finished(batch, Window(s.rows));
      hide PollStep;
      OldestFacts(PendingIds(s.rows), PENDING_WINDOW);
      hide Oldest;
      var x := if k < |batch| then batch[k] else 0;
      assert k < |batch| ==> x in batch && x in PendingIds(s.rows);
      assert x in s.offered && x <= s.cursor ==> Passed(s, x);
      hide Finished, Passed, Shape, Reach, PassedInv;
    }
  }

  lemma StepForward(s: State, cfg: Config, st: Step)
    requires Shape(s) && Reach(s, cfg) && PassedInv(s) && Forward(s) && s.late == {} && !st.Webhook?
    ensures Forward(Next(s, cfg, st)) && Next(s, cfg, st).cursor >= s.cursor
  {
    StepKeeps(s, cfg, st);
    if st.ReadPending? {
      ReadForward(s, cfg);
    } else if st.Work? && st.w < |s.workers| {
      WorkSamePoll(s, cfg, st.w, st.act);
    }
    hide WorkerStep, Oldest, AckTo, Window, Shape, Reach, PassedInv;
  }

  lemma {:induction false} RunForward(s: State, cfg: Config, steps: seq<Step>)
    requires Shape(s) && Reach(s, cfg) && PassedInv(s) && Forward(s) && PollOnly(steps)
    requires Run(s, cfg, steps).late == {}
    ensures var s' := Run(s, cfg, steps); s'.cursor >= s.cursor && Forward(s') && PassedInv(s')
    decreases |steps|
  {
    hide Shape, Reach, PassedInv, Forward, Next;
    if steps != [] {
      assert steps[0] in steps;
      RunKeeps(s, cfg, steps);
      StepKeeps(s, cfg, steps[0]);
      StepPasses(s, cfg, steps[0]);
      StepForward(s, cfg, steps[0]);
      RunForward(Next(s, cfg, steps[0]), cfg, steps[1..]);
    }
  }

  /** While no row was made behind it, the cursor never moves back, whatever follows. */
  lemma CursorMonotone(workers: nat, cfg: Config, past: seq<Step>, more: seq<Step>)
    requires PollOnly(past) && PollOnly(more) && Run(Init(workers), cfg, past + more).late == {}
    ensures Run(Init(workers), cfg, past).cursor <= Run(Init(workers), cfg, past + more).cursor
  {
    InitShape(workers, cfg);
    RunConcat(Init(workers), cfg, past, more);
    RunKeeps(Init(workers), cfg, past);
    RunKeeps(Run(Init(workers), cfg, past), cfg, more);
    hide Run;
    RunForward(Init(workers), cfg, past);
    RunForward(Run(Init(workers), cfg, past), cfg, more);
  }

  /** Served one by one, an update is alone in its batch. */
  lemma SmallBatch(s: State, cfg: Config)
    requires Shape(s) && Reach(s, cfg) && cfg.limit <= 1 && s.poll.Enqueueing?
    ensures |s.poll.batch| <= 1
  {
    SecondServed(s);
    hide Below, Unconfirmed, Shape;
  }

  lemma SecondServed(s: State)
    requires Shape(s) && s.poll.Enqueueing?
    ensures |s.poll.batch| > 1 ==>
              s.poll.batch[1] in s.poll.batch && |Below(Unconfirmed(s, s.confirmed), s.poll.batch[1])| >= 1
  {
    if |s.poll.batch| > 1 {
      var a, b := s.poll.batch[0], s.poll.batch[1];
      var older := Below(Unconfirmed(s, s.confirmed), b);
      assert a in s.poll.batch && a < b;
      assert {a} <= older;
      SubsetSize({a}, older);
    }
  }

  lemma SmallForward(s: State, cfg: Config, st: Step)
    requires Shape(s) && Reach(s, cfg) && Forward(s) && cfg.limit <= 1 && !st.Webhook?
    ensures Forward(Next(s, cfg, st)) && Next(s, cfg, st).cursor >= s.cursor
  {
    StepKeeps(s, cfg, st);
    if st.ReadPending? {
      if s.poll.Enqueueing? && s.poll.next == |s.poll.batch| {
        AckBackIff(s, cfg);
        SmallBatch(s, cfg);
      }
    } else if st.Work? && st.w < |s.workers| {
      WorkSamePoll(s, cfg, st.w, st.act);
    }
    hide WorkerStep, Oldest, AckTo, Window, Shape, Reach, Finished;
  }

  lemma {:induction false} RunSmall(s: State, cfg: Config, steps: seq<Step>)
    requires Shape(s) && Reach(s, cfg) && Forward(s) && cfg.limit <= 1 && PollOnly(steps)
    ensures var s' := Run(s, cfg, steps); s'.cursor >= s.cursor && Forward(s')
    decreases |steps|
  {
    hide Shape, Reach, Forward, Next;
    if steps != [] {
      assert steps[0] in steps;
      StepKeeps(s, cfg, steps[0]);
      SmallForward(s, cfg, steps[0]);
      RunSmall(Next(s, cfg, steps[0]), cfg, steps[1..]);
    }
  }

  /** Served one by one, the cursor never moves back, whatever fails. */
  lemma SmallMonotone(workers: nat, cfg: Config, past: seq<Step>, more: seq<Step>)
    requires PollOnly(past) && PollOnly(more) && cfg.limit <= 1
    ensures Run(Init(workers), cfg, past).cursor <= Run(Init(workers), cfg, past + more).cursor
  {
    InitShape(workers, cfg);
    RunConcat(Init(workers), cfg, past, more);
    RunKeeps(Init(workers), cfg, past);
    hide Run;
    RunSmall(Init(workers), cfg, past);
    RunSmall(Run(Init(workers), cfg, past), cfg, more);
  }

  // ------------------------------------------------------------------ which faults make it move back

  predicate Within(steps: seq<Step>, enqueueFaults: bool, readFaults: bool) {
    PollOnly(steps) && (enqueueFaults || NoFailedEnqueue(steps)) && (readFaults || NoFailedRead(steps))
  }

  /** No run with these kinds of faults and batches of at most `limit` moves the cursor back. */
  ghost predicate AlwaysForward(enqueueFaults: bool, readFaults: bool, limit: nat) {
    forall workers: nat, cfg: Config, past: seq<Step>, more: seq<Step> ::
      cfg.limit == limit && Within(past + more, enqueueFaults, readFaults) ==>
        Run(Init(workers), cfg, past).cursor <= Run(Init(workers), cfg, past + more).cursor
  }

  lemma NoLate(workers: nat, cfg: Config, steps: seq<Step>, enqueueFaults: bool, readFaults: bool)
    requires Within(steps, enqueueFaults, readFaults) && !(enqueueFaults && readFaults)
    ensures Run(Init(workers), cfg, steps).late == {}
  {
    InitShape(workers, cfg);
    if enqueueFaults {
      NothingLate(Init(workers), cfg, steps);
    } else {
      NothingFails(Init(workers), cfg, steps);
    }
  }

  /**
   The cursor is monotone exactly when failing enqueues, failing cursor reads and batches of more
   than one update do not all occur.
   */
  lemma MonotoneIff(enqueueFaults: bool, readFaults: bool, limit: nat)
    ensures AlwaysForward(enqueueFaults, readFaults, limit) <==> !(enqueueFaults && readFaults && limit >= 2)
  {
    if enqueueFaults && readFaults && limit >= 2 {
      MovesBack(limit);
    } else {
      forall workers: nat, cfg: Config, past: seq<Step>, more: seq<Step>
        | cfg.limit == limit && Within(past + more, enqueueFaults, readFaults)
        ensures Run(Init(workers), cfg, past).cursor <= Run(Init(workers), cfg, past + more).cursor
      {
        assert forall st :: st in past || st in more ==> st in past + more;
        if limit <= 1 {
          SmallMonotone(workers, cfg, past, more);
        } else {
          NoLate(workers, cfg, past + more, enqueueFaults, readFaults);
          CursorMonotone(workers, cfg, past, more);
        }
      }
    }
  }

  /** Every run with these kinds of faults keeps the recorded updates at or below the cursor processed. */
  ghost predicate NeverPasses(enqueueFaults: bool, readFaults: bool, limit: nat) {
    forall workers: nat, cfg: Config, steps: seq<Step>, id: int ::
      cfg.limit == limit && Within(steps, enqueueFaults, readFaults) ==>
        Kept(Run(Init(workers), cfg, steps), id)
  }

  predicate Kept(s: State, id: int) {
    id in s.rows && id <= s.cursor ==> Processed(s, id)
  }

  /** ... or at least those that could be stored when they were first offered. */
  ghost predicate NeverPassesFirst(enqueueFaults: bool, readFaults: bool, limit: nat) {
    forall workers: nat, cfg: Config, steps: seq<Step>, id: int ::
      cfg.limit == limit && Within(steps, enqueueFaults, readFaults) ==>
        KeptFirst(Run(Init(workers), cfg, steps), id)
  }

  predicate KeptFirst(s: State, id: int) {
    id !in s.failed ==> Kept(s, id)
  }

  lemma KeptWithin(workers: nat, cfg: Config, steps: seq<Step>, enqueueFaults: bool, readFaults: bool, id: int)
    requires Within(steps, enqueueFaults, readFaults) && !(enqueueFaults && readFaults)
    ensures Kept(Run(Init(workers), cfg, steps), id)
  {
    InitShape(workers, cfg);
    NoLate(workers, cfg, steps, enqueueFaults, readFaults);
    RunKeeps(Init(workers), cfg, steps);
    RunPasses(Init(workers), cfg, steps);
    var s := Run(Init(workers), cfg, steps);
    hide Run;
    assert id in s.rows ==> id in s.offered;
    assert id in s.offered && id <= s.cursor ==> Passed(s, id);
  }

  /**
   The cursor passes processed work only, exactly when failing enqueues and failing cursor reads do
   not both occur, whatever the size of the batches. Where they do, even updates that were stored
   when first offered are passed before they are processed.
   */
  lemma SafetyIff(enqueueFaults: bool, readFaults: bool, limit: nat)
    requires limit > 0
    ensures NeverPasses(enqueueFaults, readFaults, limit) <==> !(enqueueFaults && readFaults)
    ensures NeverPassesFirst(enqueueFaults, readFaults, limit) <==> !(enqueueFaults && readFaults)
  {
    if enqueueFaults && readFaults {
      var steps := WindowTooSmall(limit);
      var s := Run(Init(0), Crowd(limit), steps);
      hide Run;
      assert !Kept(s, PENDING_WINDOW + 1) && !KeptFirst(s, PENDING_WINDOW + 1);
    } else {
      forall workers: nat, cfg: Config, steps: seq<Step>, id: int
        | cfg.limit == limit && Within(steps, enqueueFaults, readFaults)
        ensures Kept(Run(Init(workers), cfg, steps), id)
      {
        KeptWithin(workers, cfg, steps, enqueueFaults, readFaults, id);
      }
      hide Kept;
    }
  }

  lemma OldestTwo(a: int, b: int, n: nat)
    requires a < b && n >= 2
    ensures Oldest({a, b}, n) == [a, b]
  {
    assert Min({a, b}) == a;
    assert {a, b} - {a} == {b};
    OldestOne(b, n - 1);
  }

  function Skipping(limit: nat): Config { Config(id => Stub(id), id => [], id => false, limit) }

  /** The state of the example below, with one idle worker. */
  function Scene(confirmed: int, rows: Table, cursor: int, failed: set<int>, late: set<int>, poll: PollPc): State {
    State({1, 2}, confirmed, rows, cursor, failed, late, poll, [Worker([], Idle)], multiset{}, multiset{}, multiset{}, multiset{})
  }

  lemma TwoArrive(limit: nat) returns (past: seq<Step>)
    ensures PollOnly(past) && Run(Init(1), Skipping(limit), past) == Scene(0, map[], 0, {}, {}, PollIdle)
  {
    assert Run(Init(1), Skipping(limit), []) == Init(1);
    assert Fresh(1) == [Worker([], Idle)] + [];
    hide Run, WorkerStep, Fresh;
    var p1 := Extend(1, Skipping(limit), [], Arrive(1));
    past := Extend(1, Skipping(limit), p1, Arrive(2));
    assert Run(Init(1), Skipping(limit), p1).offered == {1};
    assert Run(Init(1), Skipping(limit), past).offered == {1, 2};
  }

  /** Serving both updates from the start again. */
  lemma ServeBoth(limit: nat, past: seq<Step>, rows: Table, cursor: int, failed: set<int>) returns (longer: seq<Step>)
    requires limit >= 2 && PollOnly(past) && Run(Init(1), Skipping(limit), past) == Scene(0, rows, cursor, failed, {}, PollIdle)
    ensures longer == past + [Fetch(false, true)]
    ensures Run(Init(1), Skipping(limit), longer) == Scene(0, rows, cursor, failed, {}, Enqueueing([1, 2], 0))
  {
    hide Run;
    OldestTwo(1, 2, limit);
    assert Unconfirmed(Run(Init(1), Skipping(limit), past), 0) == {1, 2};
    hide Oldest;
    longer := Extend(1, Skipping(limit), past, Fetch(false, true));
  }

  lemma Store(limit: nat, past: seq<Step>, s: State, next: nat, id: int, ok: bool) returns (longer: seq<Step>)
    requires Run(Init(1), Skipping(limit), past) == s && s.poll == Enqueueing([1, 2], next) && next < 2 && id == [1, 2][next]
    ensures longer == past + [EnqueueNext(ok)]
    ensures Run(Init(1), Skipping(limit), longer)
         == (if ok then s.(rows := Inserted(s.rows, Stub(id)), late := if id !in s.rows && id <= s.cursor then s.late + {id} else s.late)
             else if id in s.rows then s else s.(failed := s.failed + {id})).(poll := Enqueueing([1, 2], next + 1))
  {
    hide Run, Oldest;
    longer := Extend(1, Skipping(limit), past, EnqueueNext(ok));
  }

  /** The worker reads the one pending row and skips it. */
  lemma SkipFirst(limit: nat, past: seq<Step>) returns (longer: seq<Step>)
    requires Run(Init(1), Skipping(limit), past)
          == Scene(0, map[1 := Row(Stub(1), Pending, false)], 0, {2}, {}, Enqueueing([1, 2], 2))
    ensures longer == past + [Work(0, Lease), Work(0, Begin(true))]
    ensures Run(Init(1), Skipping(limit), longer)
         == Scene(0, map[1 := Row(Stub(1), Skipped, false)], 0, {2}, {}, Enqueueing([1, 2], 2))
  {
    hide Run;
    var s := Run(Init(1), Skipping(limit), past);
    assert PendingIds(s.rows) == {1};
    OldestOne(1, 10);
    hide Oldest, PendingIds;
    var p1 := Extend(1, Skipping(limit), past, Work(0, Lease));
    assert Run(Init(1), Skipping(limit), p1).workers == [Worker([1], Idle)];
    longer := Extend(1, Skipping(limit), p1, Work(0, Begin(true)));
    assert [1][1..] == [];
    assert Run(Init(1), Skipping(limit), longer).workers == [Worker([], Idle)];
  }

  lemma Acknowledge(limit: nat, past: seq<Step>, s: State, pending: set<int>, ack: int) returns (longer: seq<Step>)
    requires Run(Init(1), Skipping(limit), past) == s && s.poll == Enqueueing([1, 2], 2)
    requires Window(s.rows) == pending && AckTo(0, [1, 2], pending) == ack && ack != 0
    ensures longer == past + [ReadPending, WriteCursor(true)]
    ensures Run(Init(1), Skipping(limit), longer) == s.(poll := PollIdle, cursor := ack)
  {
    hide Run, Window, AckTo, Oldest;
    var p1 := Extend(1, Skipping(limit), past, ReadPending);
    longer := Extend(1, Skipping(limit), p1, WriteCursor(true));
  }

  lemma AckTwo()
    ensures AckTo(0, [1, 2], {}) == 2 && AckTo(0, [1, 2], {2}) == 1
  {
    assert [1, 2][1..] == [2] && [2][1..] == [];
    assert AckTo(2, [], {}) == 2 && AckTo(1, [2], {}) == 2 && AckTo(1, [2], {2}) == 1;
  }

  /** Two updates arrive; the first is stored and skipped, the second is not stored; both are acknowledged. */
  lemma SecondLost(limit: nat) returns (past: seq<Step>)
    requires limit >= 2
    ensures PollOnly(past)
    ensures Run(Init(1), Skipping(limit), past) == Scene(0, map[1 := Row(Stub(1), Skipped, false)], 2, {2}, {}, PollIdle)
  {
    hide Run, AckTo, WorkerStep, PollStep;
    var p := TwoArrive(limit);
    var p1 := ServeBoth(limit, p, map[], 0, {});
    var p2 := Store(limit, p1, Run(Init(1), Skipping(limit), p1), 0, 1, true);
    var p3 := Store(limit, p2, Run(Init(1), Skipping(limit), p2), 1, 2, false);
    var p4 := SkipFirst(limit, p3);
    var rows := map[1 := Row(Stub(1), Skipped, false)];
    assert PendingIds(rows) == {} && Window(rows) == {};
    AckTwo();
    past := Acknowledge(limit, p4, Run(Init(1), Skipping(limit), p4), {}, 2);
  }

  /**
   The cursor moves back: of two updates the second cannot be stored, both are acknowledged, the
   cursor read fails, both are served again, the second is stored now and not processed yet.
   */
  lemma MovesBack(limit: nat)
    requires limit >= 2
    ensures !AlwaysForward(true, true, limit)
  {
    hide Run, AckTo, WorkerStep, PollStep;
    var past := SecondLost(limit);
    var rows := map[1 := Row(Stub(1), Skipped, false)];
    var m1 := ServeBoth(limit, past, rows, 2, {2});
    var m2 := Store(limit, m1, Run(Init(1), Skipping(limit), m1), 0, 1, true);
    var m3 := Store(limit, m2, Run(Init(1), Skipping(limit), m2), 1, 2, true);
    var s3 := Run(Init(1), Skipping(limit), m3);
    assert PendingIds(s3.rows) == {2};
    OldestOne(2, PENDING_WINDOW);
    assert Window(s3.rows) == {2};
    AckTwo();
    var m4 := Acknowledge(limit, m3, s3, {2}, 1);
    var more := [Fetch(false, true), EnqueueNext(true), EnqueueNext(true), ReadPending, WriteCursor(true)];
    assert m4 == past + more;
    assert Within(past + more, true, true);
  }

  // ------------------------------------------------------------------ why the window needs its condition

  predicate InSpan(a: int, n: nat, i: int) { a <= i < a + n }

  function Span(a: int, n: nat): set<int> {
    set i | a <= i < a + n && InSpan(a, n, i)
  }

  lemma {:induction false} SpanSize(a: int, n: nat)
    ensures |Span(a, n)| == n
    decreases n
  {
    if n > 0 {
      SpanSize(a + 1, n - 1);
      assert Span(a, n) == {a} + Span(a + 1, n - 1);
    } else {
      assert Span(a, n) == {};
    }
  }

  /** No worker processes anything. */
  function Crowd(limit: nat): Config { Config(id => Stub(id), id => [], id => false, limit) }

  function PendingRows(n: nat): Table {
    map i | i in Span(1, n) :: Row(Stub(i), Pending, false)
  }

  lemma WindowOfRows(n: nat, x: nat)
    requires 1 <= x <= n
    ensures PendingIds(PendingRows(n)) == Span(1, n)
    ensures x in Window(PendingRows(n)) <==> x <= PENDING_WINDOW
  {
    assert PendingIds(PendingRows(n)) == Span(1, n);
    InWindow(PendingRows(n), x);
    assert Below(Span(1, n), x) == Span(1, x - 1);
    SpanSize(1, x - 1);
  }

  /** After `n` rounds: all stored behind the cursor, none processed. */
  function Behind(n: nat, offered: nat): State {
    State(Span(1, offered), if n == 0 then 0 else n - 1, PendingRows(n), n, Span(1, n), Span(1, n), PollIdle,
          [], multiset{}, multiset{}, multiset{}, multiset{})
  }

  /** One update `x` is served, and stored or not. */
  lemma OneServed(limit: nat, past: seq<Step>, s: State, readOk: bool, ok: bool, x: int) returns (steps: seq<Step>)
    requires limit > 0 && PollOnly(past) && Run(Init(0), Crowd(limit), past) == s && s.poll.PollIdle?
    requires Unconfirmed(s, Confirmed(s, readOk)) == {x} && x !in s.rows
    ensures PollOnly(steps)
    ensures Run(Init(0), Crowd(limit), steps)
            == s.(confirmed := Confirmed(s, readOk), poll := Enqueueing([x], 1),
                  rows := if ok then s.rows[x := Row(Stub(x), Pending, false)] else s.rows,
                  failed := if ok then s.failed else s.failed + {x},
                  late := if ok && x <= s.cursor then s.late + {x} else s.late)
  {
    hide Run;
    OldestOne(x, limit);
    steps := Extend(0, Crowd(limit), past, Fetch(readOk, true));
    hide Oldest, Unconfirmed;
    var s1 := Run(Init(0), Crowd(limit), steps);
    assert s1 == s.(confirmed := Confirmed(s, readOk), poll := Enqueueing([x], 0));
    hide Confirmed;
    steps := Extend(0, Crowd(limit), steps, EnqueueNext(ok));
  }

  /** ... then the table is scanned and the cursor written. */
  lemma OneRound(limit: nat, past: seq<Step>, s: State, readOk: bool, ok: bool, x: int) returns (steps: seq<Step>)
    requires limit > 0 && x > 0 && PollOnly(past) && Run(Init(0), Crowd(limit), past) == s && s.poll.PollIdle?
    requires Unconfirmed(s, Confirmed(s, readOk)) == {x} && x !in s.rows
    ensures PollOnly(steps)
    ensures var rows := if ok then s.rows[x := Row(Stub(x), Pending, false)] else s.rows;
            Run(Init(0), Crowd(limit), steps)
            == s.(confirmed := Confirmed(s, readOk), rows := rows,
                  failed := if ok then s.failed else s.failed + {x},
                  late := if ok && x <= s.cursor then s.late + {x} else s.late,
                  cursor := if x in Window(rows) then s.cursor else x)
  {
    hide Run, Unconfirmed, Confirmed;
    steps := OneServed(limit, past, s, readOk, ok, x);
    AckOne(x, Window(Run(Init(0), Crowd(limit), steps).rows));
    hide AckTo, Window;
    steps := Extend(0, Crowd(limit), steps, ReadPending);
    steps := Extend(0, Crowd(limit), steps, WriteCursor(true));
  }

  lemma AckOne(x: int, window: set<int>)
    requires x > 0
    ensures AckTo(0, [x], window) == if x in window then 0 else x
  {
    assert [x][1..] == [];
  }

  lemma OneArrives(limit: nat, past: seq<Step>, n: nat) returns (steps: seq<Step>)
    requires PollOnly(past) && Run(Init(0), Crowd(limit), past) == Behind(n, n)
    ensures PollOnly(steps) && Run(Init(0), Crowd(limit), steps) == Behind(n, n + 1)
  {
    hide Run;
    steps := Extend(0, Crowd(limit), past, Arrive(n + 1));
    assert Span(1, n) + {n + 1} == Span(1, n + 1);
  }

  /** The update cannot be stored and is acknowledged; the cursor read fails, and now it is stored. */
  lemma OneMore(limit: nat, past: seq<Step>, n: nat) returns (steps: seq<Step>)
    requires limit > 0 && n < PENDING_WINDOW && PollOnly(past) && Run(Init(0), Crowd(limit), past) == Behind(n, n + 1)
    ensures PollOnly(steps) && Run(Init(0), Crowd(limit), steps) == Behind(n + 1, n + 1)
  {
    hide Run;
    var s, x := Behind(n, n + 1), n + 1;
    assert Unconfirmed(s, n) == {x};
    var p := OneRound(limit, past, s, true, false, x);
    var s1 := Run(Init(0), Crowd(limit), p);
    assert x !in Window(s.rows) by {
      InWindow(s.rows, x);
    }
    assert s.failed + {x} == Span(1, x) && s.late + {x} == Span(1, x);
    assert s.rows[x := Row(Stub(x), Pending, false)] == PendingRows(x);
    WindowOfRows(x, x);
    hide Window, Span, PendingRows;
    assert s1 == s.(confirmed := n, failed := Span(1, x), cursor := x);
    assert Unconfirmed(s1, n) == Unconfirmed(s, n);
    steps := OneRound(limit, p, s1, false, true, x);
  }

  lemma {:induction false} CrowdBehind(limit: nat, n: nat) returns (steps: seq<Step>)
    requires limit > 0 && n <= PENDING_WINDOW
    ensures PollOnly(steps) && Run(Init(0), Crowd(limit), steps) == Behind(n, n)
  {
    if n == 0 {
      steps := [];
      assert Span(1, 0) == {} && PendingRows(0) == map[];
      assert Run(Init(0), Crowd(limit), []) == Init(0);
    } else {
      steps := CrowdBehind(limit, n - 1);
      steps := OneArrives(limit, steps, n - 1);
      steps := OneMore(limit, steps, n - 1);
    }
  }

  /**
   The window too small, for batches of any size: an update is served whose enqueue fails, it is
   acknowledged, the cursor read fails, it is served again and stored behind the cursor. After five
   hundred of these, the next update is acknowledged although it was recorded and is not processed.
   */
  lemma WindowTooSmall(limit: nat) returns (steps: seq<Step>)
    requires limit > 0
    ensures PollOnly(steps)
    ensures var s := Run(Init(0), Crowd(limit), steps);
            var id := PENDING_WINDOW + 1;
            && |s.late| == PENDING_WINDOW
            && id in s.rows && id <= s.cursor && id !in s.failed && !Processed(s, id)
  {
    var n: nat, x := PENDING_WINDOW, PENDING_WINDOW + 1;
    var p := CrowdBehind(limit, n);
    hide Run;
    p := OneArrives(limit, p, n);
    var s := Behind(n, x);
    assert Unconfirmed(s, n) == {x};
    steps := OneRound(limit, p, s, true, true, x);
    assert s.rows[x := Row(Stub(x), Pending, false)] == PendingRows(x);
    WindowOfRows(x, x);
    SpanSize(1, n);
  }
}
