/**
 Telegram delivery: a poll transport and any number of workers stepping over one durable
 inbox. A run is a list of step labels; a label that is not enabled changes nothing, so the
 lemmas below speak about every interleaving, with crashes and failing writes in it.
 */
module Delivery {
  import opened InboxTable
  import opened Poll

  /**
   One claim-then-answer attempt: a message that is ready, the engine's answer to a known command
   sent as one message, or a placeholder that is then edited into the engine's answer.
   */
  datatype Attempt = Reply | Routed | FreeForm

  /** Whether the engine runs, given whether the first message goes out. */
  predicate RunsEngine(kind: Attempt, ok: bool) {
    kind.Routed? || (kind.FreeForm? && ok)
  }

  /**
   `plan` is what the dispatcher does for an update; no attempt means it is skipped. `eager` says
   that its command takes effect while the answer is computed, before any claim. `limit` is the
   size of a getUpdates batch.
   */
  datatype Config = Config(content: int -> Update, plan: int -> seq<Attempt>, eager: int -> bool, limit: nat)

  datatype Pc =
    | Idle
    | Try(id: int, plan: seq<Attempt>)                  // about to claim
    | Claimed(id: int, kind: Attempt, rest: seq<Attempt>) // claim won, first message not out yet
    | Placed(id: int, rest: seq<Attempt>)               // placeholder out, answer ready
    | EditFailed(id: int, rest: seq<Attempt>)           // about to send the answer afresh
    | SendFailed(id: int, rest: seq<Attempt>)           // about to give the claim back

  /** `batch` are row copies read earlier and not processed yet; they may be stale. */
  datatype Worker = Worker(batch: seq<int>, pc: Pc)

  datatype PollPc =
    | PollIdle
    | Enqueueing(batch: seq<int>, next: nat)
    | Acking(ack: int)

  datatype State = State(
    offered: set<int>,        // updates Telegram has accepted so far
    confirmed: int,           // updates up to here are no longer served
    rows: Table,
    cursor: int,
    failed: set<int>,         // updates whose enqueue has failed when they had no row
    late: set<int>,           // updates whose row was made when the cursor had passed them
    poll: PollPc,
    workers: seq<Worker>,
    releases: multiset<int>,  // queued release writes
    sent: multiset<int>,      // answers delivered, per update id
    effects: multiset<int>,   // command effects carried out, per update id
    runs: multiset<int>)      // engine runs, per update id

  datatype Step =
    | Arrive(id: int)
    | Webhook(id: int)
    | Fetch(readOk: bool, answered: bool)
    | EnqueueNext(ok: bool)
    | ReadPending
    | WriteCursor(ok: bool)
    | Work(w: nat, act: Act)
    | ApplyRelease(id: int)
    | Crash

  /** One atomic action of a worker; the flags say how the outside world answered. */
  datatype Act =
    | Lease
    | Begin(ok: bool)
    | Claim(reached: bool, answered: bool)
    | Send(ok: bool)
    | Edit(ok: bool)
    | Resend(ok: bool)
    | Release

  function Fresh(workers: nat): (ws: seq<Worker>)
    ensures |ws| == workers && forall w :: 0 <= w < workers ==> ws[w] == Worker([], Idle)
  {
    if workers == 0 then [] else [Worker([], Idle)] + Fresh(workers - 1)
  }

  function Init(workers: nat): State {
    State({}, 0, map[], 0, {}, {}, PollIdle, Fresh(workers), multiset{}, multiset{}, multiset{}, multiset{})
  }

  function After(id: int, rest: seq<Attempt>): Pc {
    if rest == [] then Idle else Try(id, rest)
  }

  function SetPc(s: State, w: nat, pc: Pc): State
    requires w < |s.workers|
  {
    s.(workers := s.workers[w := s.workers[w].(pc := pc)])
  }

  function Insert(s: State, cfg: Config, id: int): State {
    s.(rows := Inserted(s.rows, cfg.content(id).(id := id)),
       late := if id !in s.rows && id <= s.cursor then s.late + {id} else s.late)
  }

  /** What a getUpdates call is served from once it has confirmed everything up to `confirmed`. */
  function Unconfirmed(s: State, confirmed: int): set<int> {
    set o | o in s.offered && o > confirmed
  }

  /** Asking for offset n + 1 confirms everything up to n; a cursor read that fails counts as 0. */
  function Confirmed(s: State, readOk: bool): int {
    if readOk && s.cursor > s.confirmed then s.cursor else s.confirmed
  }

  ghost function PollStep(s: State, cfg: Config, st: Step): State {
    match st
    case Arrive(id) =>
      if id > 0 && forall o :: o in s.offered ==> o < id then s.(offered := s.offered + {id}) else s
    case Webhook(id) => Insert(s, cfg, id)
    case Fetch(readOk, answered) =>
      if !s.poll.PollIdle? then s
      else
        var confirmed := Confirmed(s, readOk);
        s.(confirmed := confirmed,
           poll := if answered then Enqueueing(Oldest(Unconfirmed(s, confirmed), cfg.limit), 0) else PollIdle)
    case EnqueueNext(ok) =>
      if s.poll.Enqueueing? && s.poll.next < |s.poll.batch| then
        var id := s.poll.batch[s.poll.next];
        (if ok then Insert(s, cfg, id) else if id in s.rows then s else s.(failed := s.failed + {id}))
        .(poll := s.poll.(next := s.poll.next + 1))
      else s
    case ReadPending =>
      if s.poll.Enqueueing? && s.poll.next == |s.poll.batch|
      then s.(poll := Acking(AckTo(0, s.poll.batch, Window(s.rows))))
      else s
    case WriteCursor(ok) =>
      if s.poll.Acking?
      then s.(poll := PollIdle, cursor := if s.poll.ack == 0 || !ok then s.cursor else s.poll.ack)
      else s
    case _ => s
  }

  // What each action of worker `w` does where the worker stands; elsewhere it does nothing.

  ghost function LeaseStep(s: State, w: nat): State
    requires w < |s.workers|
  {
    var wk := s.workers[w];
    if wk.pc.Idle? && wk.batch == []
    then s.(workers := s.workers[w := wk.(batch := Oldest(PendingIds(s.rows), 10))]) else s
  }

  function BeginStep(s: State, cfg: Config, w: nat, ok: bool): State
    requires w < |s.workers|
  {
    var wk := s.workers[w];
    if !wk.pc.Idle? || wk.batch == [] then s
    else
      var id := wk.batch[0];
      s.(rows := if cfg.plan(id) == [] && ok then Marked(s.rows, id, Skipped) else s.rows,
         effects := if cfg.eager(id) then s.effects + multiset{id} else s.effects,
         workers := s.workers[w := Worker(wk.batch[1..], After(id, cfg.plan(id)))])
  }

  function ClaimStep(s: State, w: nat, reached: bool, answered: bool): State
    requires w < |s.workers|
  {
    match s.workers[w].pc
    case Try(id, plan) =>
      if plan == [] then s
      else if !reached then SetPc(s, w, After(id, plan[1..]))
      else
        var won := Claimable(s.rows, id) && answered;
        SetPc(s, w, if won then Claimed(id, plan[0], plan[1..]) else After(id, plan[1..]))
        .(rows := InboxTable.Claimed(s.rows, id))
    case _ => s
  }

  function SendStep(s: State, w: nat, ok: bool): State
    requires w < |s.workers|
  {
    match s.workers[w].pc
    case Claimed(id, kind, rest) =>
      var s' := s.(runs := if RunsEngine(kind, ok) then s.runs + multiset{id} else s.runs);
      if !ok then SetPc(s', w, SendFailed(id, rest))
      else if kind.FreeForm? then SetPc(s', w, Placed(id, rest))
      else SetPc(s', w, After(id, rest)).(sent := s.sent + multiset{id})
    case _ => s
  }

  function EditStep(s: State, w: nat, ok: bool): State
    requires w < |s.workers|
  {
    match s.workers[w].pc
    case Placed(id, rest) =>
      if ok then SetPc(s, w, After(id, rest)).(sent := s.sent + multiset{id})
      else SetPc(s, w, EditFailed(id, rest))
    case _ => s
  }

  function ResendStep(s: State, w: nat, ok: bool): State
    requires w < |s.workers|
  {
    match s.workers[w].pc
    case EditFailed(id, rest) =>
      SetPc(s, w, After(id, rest)).(sent := if ok then s.sent + multiset{id} else s.sent)
    case _ => s
  }

  function ReleaseStep(s: State, w: nat): State
    requires w < |s.workers|
  {
    match s.workers[w].pc
    case SendFailed(id, rest) => SetPc(s, w, After(id, rest)).(releases := s.releases + multiset{id})
    case _ => s
  }

  ghost function WorkerStep(s: State, cfg: Config, w: nat, act: Act): State
    requires w < |s.workers|
  {
    match act
    case Lease => LeaseStep(s, w)
    case Begin(ok) => BeginStep(s, cfg, w, ok)
    case Claim(reached, answered) => ClaimStep(s, w, reached, answered)
    case Send(ok) => SendStep(s, w, ok)
    case Edit(ok) => EditStep(s, w, ok)
    case Resend(ok) => ResendStep(s, w, ok)
    case Release => ReleaseStep(s, w)
  }

  ghost function Next(s: State, cfg: Config, st: Step): State {
    match st
    case ApplyRelease(id) =>
      if id in s.releases then s.(rows := Reopened(s.rows, id), releases := s.releases - multiset{id}) else s
    case Crash => s.(poll := PollIdle, releases := multiset{}, workers := Fresh(|s.workers|))
    case Work(w, act) => if w < |s.workers| then WorkerStep(s, cfg, w, act) else s
    case _ => PollStep(s, cfg, st)
  }

  ghost function Run(s: State, cfg: Config, steps: seq<Step>): State
    decreases |steps|
  {
    if steps == [] then s else Run(Next(s, cfg, steps[0]), cfg, steps[1..])
  }

  lemma {:induction false} RunConcat(s: State, cfg: Config, a: seq<Step>, b: seq<Step>)
    ensures Run(s, cfg, a + b) == Run(Run(s, cfg, a), cfg, b)
    decreases |a|
  {
    if a == [] {
      assert a + b == b;
    } else {
      assert (a + b)[1..] == a[1..] + b;
      RunConcat(Next(s, cfg, a[0]), cfg, a[1..], b);
    }
  }

  // ------------------------------------------------------------------ the actions spelled out

  /** After the claim: lost, or won with the first message still to send. */
  lemma ClaimAct(s: State, cfg: Config, w: nat, reached: bool, answered: bool)
    requires w < |s.workers| && s.workers[w].pc.Try? && s.workers[w].pc.plan != []
    ensures var Try(id, plan) := s.workers[w].pc;
            WorkerStep(s, cfg, w, Claim(reached, answered)) ==
            if !reached then SetPc(s, w, After(id, plan[1..]))
            else if Claimable(s.rows, id) && answered
            then SetPc(s, w, Claimed(id, plan[0], plan[1..])).(rows := InboxTable.Claimed(s.rows, id))
            else SetPc(s, w, After(id, plan[1..])).(rows := InboxTable.Claimed(s.rows, id))
  {
  }

  lemma BeginAct(s: State, cfg: Config, w: nat)
    requires w < |s.workers| && s.workers[w].pc.Idle? && s.workers[w].batch != []
    requires cfg.plan(s.workers[w].batch[0]) != [] && cfg.eager(s.workers[w].batch[0])
    ensures var id := s.workers[w].batch[0];
            WorkerStep(s, cfg, w, Begin(true))
            == s.(effects := s.effects + multiset{id},
                  workers := s.workers[w := Worker(s.workers[w].batch[1..], Try(id, cfg.plan(id)))])
  {
  }

  lemma SetPcTwice(s: State, w: nat, a: Pc, b: Pc)
    requires w < |s.workers|
    ensures SetPc(SetPc(s, w, a), w, b) == SetPc(s, w, b)
  {
  }

  lemma SendAct(s: State, cfg: Config, w: nat, ok: bool)
    requires w < |s.workers| && s.workers[w].pc.Claimed?
    ensures var Claimed(id, kind, rest) := s.workers[w].pc;
            var s' := s.(runs := if RunsEngine(kind, ok) then s.runs + multiset{id} else s.runs);
            WorkerStep(s, cfg, w, Send(ok)) ==
            if !ok then SetPc(s', w, SendFailed(id, rest))
            else if kind.FreeForm? then SetPc(s', w, Placed(id, rest))
            else SetPc(s', w, After(id, rest)).(sent := s.sent + multiset{id})
  {
  }

  lemma ReleaseAct(s: State, cfg: Config, w: nat)
    requires w < |s.workers| && s.workers[w].pc.SendFailed?
    ensures var SendFailed(id, rest) := s.workers[w].pc;
            WorkerStep(s, cfg, w, Release) ==
            SetPc(s, w, After(id, rest)).(releases := s.releases + multiset{id})
  {
  }

  lemma EditAct(s: State, cfg: Config, w: nat, ok: bool)
    requires w < |s.workers| && s.workers[w].pc.Placed?
    ensures var Placed(id, rest) := s.workers[w].pc;
            && WorkerStep(s, cfg, w, Release) == s
            && WorkerStep(s, cfg, w, Edit(ok)) ==
               if ok then SetPc(s, w, After(id, rest)).(sent := s.sent + multiset{id})
               else SetPc(s, w, EditFailed(id, rest))
  {
  }

  lemma ResendAct(s: State, cfg: Config, w: nat, ok: bool)
    requires w < |s.workers| && s.workers[w].pc.EditFailed?
    ensures var EditFailed(id, rest) := s.workers[w].pc;
            WorkerStep(s, cfg, w, Resend(ok)) ==
            SetPc(s, w, After(id, rest)).(sent := if ok then s.sent + multiset{id} else s.sent)
  {
  }

  // ------------------------------------------------------------------ at most one answer

  /** The worker has won the claim and may still deliver or give it back. */
  predicate Holds(pc: Pc) {
    pc.Claimed? || pc.Placed? || pc.EditFailed? || pc.SendFailed?
  }

  /** A claim whose answer is not out: the row is claimed and nothing was delivered. */
  ghost predicate OpenClaim(s: State, id: int) {
    id in s.rows && s.rows[id].replied && s.sent[id] == 0
  }

  /** Ties `replied_at` to who owns the claim and to the number delivered. */
  ghost predicate ClaimInv(s: State) {
    && (forall w :: 0 <= w < |s.workers| && Holds(s.workers[w].pc) ==>
          OpenClaim(s, s.workers[w].pc.id) && s.releases[s.workers[w].pc.id] == 0)
    && (forall v, w :: 0 <= v < w < |s.workers| && Holds(s.workers[v].pc) && Holds(s.workers[w].pc) ==>
          s.workers[v].pc.id != s.workers[w].pc.id)
    && (forall id :: id in s.releases ==> s.releases[id] == 1 && OpenClaim(s, id))
    && (forall id :: id in s.sent ==> s.sent[id] == 1 && id in s.rows && s.rows[id].replied)
  }

  lemma ClaimInvLease(s: State, w: nat)
    requires ClaimInv(s) && w < |s.workers|
    ensures ClaimInv(LeaseStep(s, w))
  {
    hide Oldest, PendingIds;
  }

  lemma ClaimInvBegin(s: State, cfg: Config, w: nat, ok: bool)
    requires ClaimInv(s) && w < |s.workers|
    ensures ClaimInv(BeginStep(s, cfg, w, ok))
  {
  }

  lemma ClaimInvClaim(s: State, w: nat, reached: bool, answered: bool)
    requires ClaimInv(s) && w < |s.workers|
    ensures ClaimInv(ClaimStep(s, w, reached, answered))
  {
  }

  lemma ClaimInvSend(s: State, w: nat, ok: bool)
    requires ClaimInv(s) && w < |s.workers|
    ensures ClaimInv(SendStep(s, w, ok))
  {
  }

  lemma ClaimInvEdit(s: State, w: nat, ok: bool)
    requires ClaimInv(s) && w < |s.workers|
    ensures ClaimInv(EditStep(s, w, ok))
  {
  }

  lemma ClaimInvResend(s: State, w: nat, ok: bool)
    requires ClaimInv(s) && w < |s.workers|
    ensures ClaimInv(ResendStep(s, w, ok))
  {
  }

  lemma ClaimInvGiveBack(s: State, w: nat)
    requires ClaimInv(s) && w < |s.workers|
    ensures ClaimInv(ReleaseStep(s, w))
  {
  }

  /** The transport adds rows and leaves the rest to the workers. */
  lemma PollFrame(s: State, cfg: Config, st: Step)
    ensures var s' := PollStep(s, cfg, st);
            && s'.workers == s.workers && s'.releases == s.releases && s'.sent == s.sent
            && s'.effects == s.effects && s'.runs == s.runs
            && forall id :: id in s.rows ==> id in s'.rows && s'.rows[id] == s.rows[id]
  {
    hide Oldest, AckTo, Window;
  }

  lemma ClaimInvPoll(s: State, cfg: Config, st: Step)
    requires ClaimInv(s)
    ensures ClaimInv(PollStep(s, cfg, st))
  {
    PollFrame(s, cfg, st);
    hide PollStep;
  }

  lemma ClaimInvRelease(s: State, cfg: Config, st: Step)
    requires ClaimInv(s) && (st.ApplyRelease? || st.Crash?)
    ensures ClaimInv(Next(s, cfg, st))
  {
    hide PollStep, WorkerStep;
  }

  lemma ClaimInvStep(s: State, cfg: Config, st: Step)
    requires ClaimInv(s)
    ensures ClaimInv(Next(s, cfg, st))
  {
    hide ClaimInv, PollStep, LeaseStep, BeginStep, ClaimStep, SendStep, EditStep, ResendStep, ReleaseStep;
    if st.ApplyRelease? || st.Crash? {
      ClaimInvRelease(s, cfg, st);
    } else if !st.Work? {
      ClaimInvPoll(s, cfg, st);
    } else if st.w < |s.workers| {
      match st.act
      case Lease => ClaimInvLease(s, st.w);
      case Begin(ok) => ClaimInvBegin(s, cfg, st.w, ok);
      case Claim(reached, answered) => ClaimInvClaim(s, st.w, reached, answered);
      case Send(ok) => ClaimInvSend(s, st.w, ok);
      case Edit(ok) => ClaimInvEdit(s, st.w, ok);
      case Resend(ok) => ClaimInvResend(s, st.w, ok);
      case Release => ClaimInvGiveBack(s, st.w);
    }
  }

  lemma {:induction false} ClaimInvRun(s: State, cfg: Config, steps: seq<Step>)
    requires ClaimInv(s)
    ensures ClaimInv(Run(s, cfg, steps))
    decreases |steps|
  {
    if steps != [] {
      ClaimInvStep(s, cfg, steps[0]);
      ClaimInvRun(Next(s, cfg, steps[0]), cfg, steps[1..]);
    }
  }

  /**
   At most one answer per update, over every run: any number of workers, redeliveries on both
   transports, stale row copies, failed sends, late releases and crashes.
   */
  lemma AtMostOneAnswer(workers: nat, cfg: Config, steps: seq<Step>, id: int)
    ensures var s := Run(Init(workers), cfg, steps);
            s.sent[id] <= 1 && (s.sent[id] == 1 ==> id in s.rows && s.rows[id].replied)
  {
    ClaimInvRun(Init(workers), cfg, steps);
    var s := Run(Init(workers), cfg, steps);
    assert id in s.sent || s.sent[id] == 0;
  }

  // ------------------------------------------------------------------ a released claim

  /** A worker that will still make an attempt at `id`, from a row copy it read earlier. */
  predicate HasCopy(wk: Worker, cfg: Config, id: int) {
    || (wk.pc.Try? && wk.pc.id == id && wk.pc.plan != [])
    || (id in wk.batch && cfg.plan(id) != [])
  }

  /** A failed send rolled the claim back: the row is failed and unclaimed. */
  predicate Released(s: State, id: int) {
    id in s.rows && s.rows[id].status == Failed && !s.rows[id].replied
  }

  ghost predicate Abandoned(s: State, cfg: Config, id: int) {
    && id in s.rows && s.rows[id].status != Pending && !s.rows[id].replied
    && id !in s.releases
    && forall w :: 0 <= w < |s.workers| ==>
         !HasCopy(s.workers[w], cfg, id) && !(Holds(s.workers[w].pc) && s.workers[w].pc.id == id)
  }

  lemma AbandonedLease(s: State, cfg: Config, id: int, w: nat)
    requires Abandoned(s, cfg, id) && w < |s.workers|
    ensures Abandoned(LeaseStep(s, w), cfg, id) && LeaseStep(s, w).sent[id] == s.sent[id]
  {
    OldestFacts(PendingIds(s.rows), 10);
    hide Oldest;
  }

  lemma AbandonedBegin(s: State, cfg: Config, id: int, w: nat, ok: bool)
    requires Abandoned(s, cfg, id) && w < |s.workers|
    ensures Abandoned(BeginStep(s, cfg, w, ok), cfg, id) && BeginStep(s, cfg, w, ok).sent[id] == s.sent[id]
  {
    var batch := s.workers[w].batch;
    if batch != [] {
      assert batch == [batch[0]] + batch[1..];
    }
    assert !HasCopy(s.workers[w], cfg, id);
  }

  lemma AbandonedClaim(s: State, cfg: Config, id: int, w: nat, reached: bool, answered: bool)
    requires Abandoned(s, cfg, id) && w < |s.workers|
    ensures Abandoned(ClaimStep(s, w, reached, answered), cfg, id) && ClaimStep(s, w, reached, answered).sent == s.sent
  {
    assert !HasCopy(s.workers[w], cfg, id);
  }

  lemma OthersStay(s: State, cfg: Config, w: nat, act: Act)
    requires w < |s.workers|
    ensures var s' := WorkerStep(s, cfg, w, act);
            |s'.workers| == |s.workers| && forall v :: 0 <= v < |s.workers| && v != w ==> s'.workers[v] == s.workers[v]
  {
    hide Oldest, PendingIds, Marked, InboxTable.Claimed, Claimable, After;
  }

  /** The worker is not concerned with `id` any more. */
  predicate Elsewhere(wk: Worker, cfg: Config, id: int) {
    !HasCopy(wk, cfg, id) && !(Holds(wk.pc) && wk.pc.id == id)
  }

  /** What a step of worker `w` from `s` to `s'` leaves to `id`. */
  ghost predicate LeavesAlone(s: State, s': State, cfg: Config, id: int, w: nat)
    requires w < |s.workers|
  {
    && |s'.workers| == |s.workers| && s'.rows == s.rows && s'.sent[id] == s.sent[id] && s'.releases[id] == s.releases[id]
    && Elsewhere(s'.workers[w], cfg, id)
  }

  lemma ElsewhereSend(s: State, cfg: Config, id: int, w: nat, ok: bool)
    requires w < |s.workers| && Elsewhere(s.workers[w], cfg, id)
    ensures LeavesAlone(s, SendStep(s, w, ok), cfg, id, w)
  {
  }

  lemma ElsewhereEdit(s: State, cfg: Config, id: int, w: nat, ok: bool)
    requires w < |s.workers| && Elsewhere(s.workers[w], cfg, id)
    ensures LeavesAlone(s, EditStep(s, w, ok), cfg, id, w)
  {
  }

  lemma ElsewhereResend(s: State, cfg: Config, id: int, w: nat, ok: bool)
    requires w < |s.workers| && Elsewhere(s.workers[w], cfg, id)
    ensures LeavesAlone(s, ResendStep(s, w, ok), cfg, id, w)
  {
  }

  lemma ElsewhereRelease(s: State, cfg: Config, id: int, w: nat)
    requires w < |s.workers| && Elsewhere(s.workers[w], cfg, id)
    ensures LeavesAlone(s, ReleaseStep(s, w), cfg, id, w)
  {
  }

  /** A worker that does not hold `id` sends, edits or gives back something else. */
  lemma ElsewhereAct(s: State, cfg: Config, id: int, w: nat, act: Act)
    requires w < |s.workers| && !act.Lease? && !act.Begin? && !act.Claim? && Elsewhere(s.workers[w], cfg, id)
    ensures LeavesAlone(s, WorkerStep(s, cfg, w, act), cfg, id, w)
  {
    hide LeaseStep, BeginStep, ClaimStep, SendStep, EditStep, ResendStep, ReleaseStep, LeavesAlone;
    match act
    case Send(ok) => ElsewhereSend(s, cfg, id, w, ok);
    case Edit(ok) => ElsewhereEdit(s, cfg, id, w, ok);
    case Resend(ok) => ElsewhereResend(s, cfg, id, w, ok);
    case Release => ElsewhereRelease(s, cfg, id, w);
  }

  lemma AbandonedWorker(s: State, cfg: Config, id: int, w: nat, act: Act)
    requires Abandoned(s, cfg, id) && w < |s.workers| && !act.Lease? && !act.Begin? && !act.Claim?
    ensures Abandoned(WorkerStep(s, cfg, w, act), cfg, id) && WorkerStep(s, cfg, w, act).sent[id] == s.sent[id]
  {
    ElsewhereAct(s, cfg, id, w, act);
    OthersStay(s, cfg, w, act);
    hide WorkerStep, HasCopy, Holds;
  }

  lemma AbandonedPoll(s: State, cfg: Config, id: int, st: Step)
    requires Abandoned(s, cfg, id)
    ensures Abandoned(PollStep(s, cfg, st), cfg, id) && PollStep(s, cfg, st).sent[id] == s.sent[id]
  {
    PollFrame(s, cfg, st);
    hide PollStep, HasCopy, Holds;
  }

  lemma AbandonedRelease(s: State, cfg: Config, id: int, st: Step)
    requires Abandoned(s, cfg, id) && (st.ApplyRelease? || st.Crash?)
    ensures Abandoned(Next(s, cfg, st), cfg, id) && Next(s, cfg, st).sent[id] == s.sent[id]
  {
    hide PollStep, WorkerStep;
  }

  lemma AbandonedStep(s: State, cfg: Config, id: int, st: Step)
    requires Abandoned(s, cfg, id)
    ensures Abandoned(Next(s, cfg, st), cfg, id) && Next(s, cfg, st).sent[id] == s.sent[id]
  {
    hide Abandoned, PollStep, LeaseStep, BeginStep, ClaimStep, SendStep, EditStep, ResendStep, ReleaseStep;
    if st.ApplyRelease? || st.Crash? {
      AbandonedRelease(s, cfg, id, st);
    } else if !st.Work? {
      AbandonedPoll(s, cfg, id, st);
    } else if st.w < |s.workers| {
      if st.act.Lease? {
        AbandonedLease(s, cfg, id, st.w);
      } else if st.act.Begin? {
        AbandonedBegin(s, cfg, id, st.w, st.act.ok);
      } else if st.act.Claim? {
        AbandonedClaim(s, cfg, id, st.w, st.act.reached, st.act.answered);
      } else {
        AbandonedWorker(s, cfg, id, st.w, st.act);
      }
    }
  }

  lemma {:induction false} AbandonedForever(s: State, cfg: Config, id: int, steps: seq<Step>)
    requires Abandoned(s, cfg, id)
    ensures Run(s, cfg, steps).sent[id] == s.sent[id]
    decreases |steps|
  {
    if steps != [] {
      AbandonedStep(s, cfg, id, steps[0]);
      AbandonedForever(Next(s, cfg, steps[0]), cfg, id, steps[1..]);
    }
  }

  /** How far the worker's current job is from its end. */
  function Rank(pc: Pc): nat {
    match pc
    case Idle => 0
    case Try(_, plan) => 1 + 5 * |plan|
    case SendFailed(_, rest) => 2 + 5 * |rest|
    case EditFailed(_, rest) => 2 + 5 * |rest|
    case Placed(_, rest) => 3 + 5 * |rest|
    case Claimed(_, _, rest) => 4 + 5 * |rest|
  }

  /** One action that moves worker `w` on without touching `id`. */
  function OtherAct(pc: Pc): Act {
    match pc
    case Idle => Begin(false)
    case Try(_, _) => Claim(false, false)
    case Claimed(_, _, _) => Send(true)
    case Placed(_, _) => Edit(true)
    case EditFailed(_, _) => Resend(false)
    case SendFailed(_, _) => Release
  }

  lemma IdleActPc(s: State, cfg: Config, w: nat)
    requires w < |s.workers| && s.workers[w].pc.Idle? && s.workers[w].batch != []
    ensures var wk, s' := s.workers[w], BeginStep(s, cfg, w, false);
            && |s'.workers| == |s.workers| && s'.rows == s.rows
            && s'.workers[w] == Worker(wk.batch[1..], After(wk.batch[0], cfg.plan(wk.batch[0])))
  {
    hide After;
  }

  lemma BusyActPc(s: State, cfg: Config, w: nat)
    requires w < |s.workers| && !s.workers[w].pc.Idle? && (s.workers[w].pc.Try? ==> s.workers[w].pc.plan != [])
    ensures var wk := s.workers[w];
            var s' := WorkerStep(s, cfg, w, OtherAct(wk.pc));
            && |s'.workers| == |s.workers| && s'.rows == s.rows && s'.workers[w].batch == wk.batch
            && Rank(s'.workers[w].pc) < Rank(wk.pc)
            && (s'.workers[w].pc.Try? ==> s'.workers[w].pc.plan != [])
  {
    match s.workers[w].pc {
      case Try(_, _) => ClaimAct(s, cfg, w, false, false);
      case Claimed(_, _, _) => SendAct(s, cfg, w, true);
      case Placed(_, _) => EditAct(s, cfg, w, true);
      case EditFailed(_, _) => ResendAct(s, cfg, w, false);
      case SendFailed(_, _) => ReleaseAct(s, cfg, w);
    }
    hide WorkerStep, Claimable, InboxTable.Claimed;
  }

  /** Where the worker stands after that action. */
  lemma OtherActPc(s: State, cfg: Config, w: nat)
    requires w < |s.workers|
    requires var wk := s.workers[w]; (wk.pc.Try? ==> wk.pc.plan != []) && (wk.pc.Idle? ==> wk.batch != [])
    ensures var wk := s.workers[w];
            var s' := WorkerStep(s, cfg, w, OtherAct(wk.pc));
            && |s'.workers| == |s.workers| && s'.rows == s.rows
            && (wk.pc.Idle? ==> s'.workers[w] == Worker(wk.batch[1..], After(wk.batch[0], cfg.plan(wk.batch[0]))))
            && (!wk.pc.Idle? ==> s'.workers[w].batch == wk.batch && Rank(s'.workers[w].pc) < Rank(wk.pc))
            && (s'.workers[w].pc.Try? ==> s'.workers[w].pc.plan != [])
  {
    hide LeaseStep, BeginStep, ClaimStep, SendStep, EditStep, ResendStep, ReleaseStep, Rank;
    if s.workers[w].pc.Idle? {
      IdleActPc(s, cfg, w);
    } else {
      BusyActPc(s, cfg, w);
      hide WorkerStep;
    }
  }

  lemma OtherActSends(s: State, cfg: Config, w: nat, id: int)
    requires ClaimInv(s) && w < |s.workers| && id in s.rows && !s.rows[id].replied
    ensures WorkerStep(s, cfg, w, OtherAct(s.workers[w].pc)).sent[id] == s.sent[id]
  {
    hide Oldest, PendingIds, Inserted;
  }

  lemma OtherActMoves(s: State, cfg: Config, w: nat, id: int)
    requires ClaimInv(s) && w < |s.workers|
    requires id in s.rows && !s.rows[id].replied
    requires HasCopy(s.workers[w], cfg, id) && !(s.workers[w].pc.Try? && (s.workers[w].pc.id == id || s.workers[w].pc.plan == []))
    ensures var s' := WorkerStep(s, cfg, w, OtherAct(s.workers[w].pc));
            && |s'.workers| == |s.workers| && s'.rows == s.rows && s'.sent[id] == s.sent[id]
            && HasCopy(s'.workers[w], cfg, id)
            && (s'.workers[w].pc.Try? ==> s'.workers[w].pc.plan != [])
            && (|s'.workers[w].batch| < |s.workers[w].batch|
                || (s'.workers[w].batch == s.workers[w].batch && Rank(s'.workers[w].pc) < Rank(s.workers[w].pc)))
  {
    OtherActPc(s, cfg, w);
    OtherActSends(s, cfg, w, id);
    hide WorkerStep, ClaimInv, Rank;
    var batch := s.workers[w].batch;
    assert id in batch && batch[0] != id ==> id in batch[1..] by {
      if batch != [] {
        assert batch == [batch[0]] + batch[1..];
      }
    }
  }

  /** A worker that stands at a claim of `id` can win it and deliver. */
  lemma DeliverNow(s: State, cfg: Config, w: nat, id: int) returns (steps: seq<Step>)
    requires w < |s.workers| && Claimable(s.rows, id)
    requires s.workers[w].pc.Try? && s.workers[w].pc.id == id && s.workers[w].pc.plan != []
    ensures Run(s, cfg, steps).sent[id] > s.sent[id]
  {
    var claim, send, edit := Work(w, Claim(true, true)), Work(w, Send(true)), Work(w, Edit(true));
    ClaimAct(s, cfg, w, true, true);
    var s1 := Next(s, cfg, claim);
    SendAct(s1, cfg, w, true);
    var s2 := Next(s1, cfg, send);
    hide WorkerStep;
    RunTwo(s, cfg, claim, send);
    if !s1.workers[w].pc.kind.FreeForm? {
      steps := [claim, send];
    } else {
      EditAct(s2, cfg, w, true);
      steps := [claim, send] + [edit];
      RunConcat(s, cfg, [claim, send], [edit]);
      RunOne(s2, cfg, edit);
    }
  }

  lemma RunOne(s: State, cfg: Config, st: Step)
    ensures Run(s, cfg, [st]) == Next(s, cfg, st)
  {
    hide Next;
    assert [st][1..] == [];
    assert Run(Next(s, cfg, st), cfg, []) == Next(s, cfg, st);
  }

  lemma RunTwo(s: State, cfg: Config, a: Step, b: Step)
    ensures Run(s, cfg, [a, b]) == Next(Next(s, cfg, a), cfg, b)
  {
    hide Next;
    RunOne(s, cfg, a);
    RunOne(Next(s, cfg, a), cfg, b);
    assert [a, b] == [a] + [b];
    RunConcat(s, cfg, [a], [b]);
  }

  lemma {:induction false} DeliverLater(s: State, cfg: Config, w: nat, id: int) returns (steps: seq<Step>)
    requires ClaimInv(s) && w < |s.workers| && Claimable(s.rows, id) && HasCopy(s.workers[w], cfg, id)
    requires s.workers[w].pc.Try? ==> s.workers[w].pc.plan != []
    ensures Run(s, cfg, steps).sent[id] > s.sent[id]
    decreases |s.workers[w].batch|, Rank(s.workers[w].pc)
  {
    var pc := s.workers[w].pc;
    if pc.Try? && pc.id == id {
      steps := DeliverNow(s, cfg, w, id);
    } else {
      var st := Work(w, OtherAct(pc));
      OtherActMoves(s, cfg, w, id);
      ClaimInvStep(s, cfg, st);
      var rest := DeliverLater(Next(s, cfg, st), cfg, w, id);
      steps := [st] + rest;
      assert steps[1..] == rest;
    }
  }

  /** No worker ever waits with an empty list of attempts. */
  ghost predicate NoEmptyTry(s: State) {
    forall w :: 0 <= w < |s.workers| && s.workers[w].pc.Try? ==> s.workers[w].pc.plan != []
  }

  /** The worker's attempts, if it waits with any, are not used up. */
  predicate PlanLeft(wk: Worker) {
    wk.pc.Try? ==> wk.pc.plan != []
  }

  lemma LeftAtStart(s: State, cfg: Config, w: nat, ok: bool)
    requires w < |s.workers| && PlanLeft(s.workers[w])
    ensures PlanLeft(LeaseStep(s, w).workers[w]) && PlanLeft(BeginStep(s, cfg, w, ok).workers[w])
  {
    hide Oldest, PendingIds, Marked;
  }

  lemma LeftAtClaim(s: State, w: nat, reached: bool, answered: bool)
    requires w < |s.workers| && PlanLeft(s.workers[w])
    ensures PlanLeft(ClaimStep(s, w, reached, answered).workers[w])
  {
    hide InboxTable.Claimed, Claimable;
  }

  lemma LeftAtSend(s: State, w: nat, ok: bool)
    requires w < |s.workers| && PlanLeft(s.workers[w])
    ensures PlanLeft(SendStep(s, w, ok).workers[w]) && PlanLeft(EditStep(s, w, ok).workers[w])
    ensures PlanLeft(ResendStep(s, w, ok).workers[w]) && PlanLeft(ReleaseStep(s, w).workers[w])
  {
    hide RunsEngine;
  }

  lemma NoEmptyTryWork(s: State, cfg: Config, w: nat, act: Act)
    requires NoEmptyTry(s) && w < |s.workers|
    ensures NoEmptyTry(WorkerStep(s, cfg, w, act))
  {
    OthersStay(s, cfg, w, act);
    hide LeaseStep, BeginStep, ClaimStep, SendStep, EditStep, ResendStep, ReleaseStep;
    assert PlanLeft(s.workers[w]);
    match act {
      case Lease => LeftAtStart(s, cfg, w, true);
      case Begin(ok) => LeftAtStart(s, cfg, w, ok);
      case Claim(reached, answered) => LeftAtClaim(s, w, reached, answered);
      case Send(ok) => LeftAtSend(s, w, ok);
      case Edit(ok) => LeftAtSend(s, w, ok);
      case Resend(ok) => LeftAtSend(s, w, ok);
      case Release => LeftAtSend(s, w, true);
    }
    assert PlanLeft(WorkerStep(s, cfg, w, act).workers[w]);
    hide WorkerStep;
  }

  lemma {:induction false} NoEmptyTryRun(s: State, cfg: Config, steps: seq<Step>)
    requires NoEmptyTry(s)
    ensures NoEmptyTry(Run(s, cfg, steps))
    decreases |steps|
  {
    hide AckTo, Window, Oldest, WorkerStep;
    if steps != [] {
      var st := steps[0];
      if st.Work? && st.w < |s.workers| {
        NoEmptyTryWork(s, cfg, st.w, st.act);
      }
      NoEmptyTryRun(Next(s, cfg, st), cfg, steps[1..]);
    }
  }

  /**
   "Released so that a redelivery can retry": in the code no redelivery can, because the row
   exists already and is not pending. In any reachable state a released update is answered
   on some continuation exactly when a worker still holds a stale copy of its row.
   */
  lemma RetryIffStaleCopy(workers: nat, cfg: Config, past: seq<Step>, id: int)
    requires var s := Run(Init(workers), cfg, past); Released(s, id) && id !in s.releases
    ensures var s := Run(Init(workers), cfg, past);
            (exists steps :: Run(s, cfg, steps).sent[id] > s.sent[id])
            <==> exists w :: 0 <= w < |s.workers| && HasCopy(s.workers[w], cfg, id)
  {
    var s := Run(Init(workers), cfg, past);
    ClaimInvRun(Init(workers), cfg, past);
    NoEmptyTryRun(Init(workers), cfg, past);
    if w :| 0 <= w < |s.workers| && HasCopy(s.workers[w], cfg, id) {
      var steps := DeliverLater(s, cfg, w, id);
      assert Run(s, cfg, steps).sent[id] > s.sent[id];
    } else {
      assert Abandoned(s, cfg, id);
      forall steps ensures Run(s, cfg, steps).sent[id] <= s.sent[id] {
        AbandonedForever(s, cfg, id, steps);
      }
    }
  }

  lemma Extend(workers: nat, cfg: Config, steps: seq<Step>, st: Step) returns (longer: seq<Step>)
    ensures longer == steps + [st]
    ensures Run(Init(workers), cfg, longer) == Next(Run(Init(workers), cfg, steps), cfg, st)
  {
    longer := steps + [st];
    RunConcat(Init(workers), cfg, steps, [st]);
    RunOne(Run(Init(workers), cfg, steps), cfg, st);
  }

  lemma OldestOne(a: int, n: nat)
    requires n > 0
    ensures Oldest({a}, n) == [a]
  {
    assert {a} - {a} == {};
    assert Oldest({}, n - 1) == [];
  }

  function Stub(id: int): Update { Update(id, 0, "", "") }

  /** A command with an effect, answered by one message. */
  const Command: Config := Config(id => Stub(id), id => [Reply], id => true, 50)

  function Row1(status: Status, replied: bool): Table { map[1 := Row(Stub(1), status, replied)] }

  lemma LeaseAct(s: State, w: nat)
    requires w < |s.workers| && s.workers[w] == Worker([], Idle) && s.rows == Row1(Pending, false)
    ensures LeaseStep(s, w) == s.(workers := s.workers[w := Worker([1], Idle)])
  {
    assert PendingIds(Row1(Pending, false)) == {1};
    OldestOne(1, 10);
    hide Oldest, PendingIds;
  }

  /** Update 1 arrives by webhook and every worker reads its row. */
  lemma ReadByAll(workers: nat) returns (past: seq<Step>)
    requires 1 <= workers <= 2
    ensures Run(Init(workers), Command, past)
         == Init(workers).(rows := Row1(Pending, false),
                           workers := if workers == 1 then [Worker([1], Idle)] else [Worker([1], Idle), Worker([1], Idle)])
  {
    assert Run(Init(workers), Command, []) == Init(workers);
    hide Run;
    past := Extend(workers, Command, [], Webhook(1));
    var s0 := Run(Init(workers), Command, past);
    assert s0 == Init(workers).(rows := Row1(Pending, false));
    hide PollStep, LeaseStep;
    LeaseAct(s0, 0);
    past := Extend(workers, Command, past, Work(0, Lease));
    if workers == 2 {
      LeaseAct(Run(Init(workers), Command, past), 1);
      past := Extend(workers, Command, past, Work(1, Lease));
    }
  }

  lemma CommandBegun(past: seq<Step>) returns (longer: seq<Step>)
    requires Run(Init(1), Command, past) == Init(1).(rows := Row1(Pending, false), workers := [Worker([1], Idle)])
    ensures Run(Init(1), Command, longer)
         == Init(1).(rows := Row1(Pending, false), workers := [Worker([], Try(1, [Reply]))], effects := multiset{1})
  {
    hide Run;
    BeginAct(Run(Init(1), Command, past), Command, 0);
    longer := Extend(1, Command, past, Work(0, Begin(true)));
    hide WorkerStep, PollStep;
    assert [1][1..] == [];
    assert Run(Init(1), Command, longer).workers == [Worker([], Try(1, [Reply]))];
    assert multiset{} + multiset{1} == multiset{1};
  }

  lemma CommandRead(past: seq<Step>) returns (longer: seq<Step>)
    requires Run(Init(1), Command, past) == Init(1).(rows := Row1(Pending, false), workers := [Worker([1], Idle)])
    ensures Run(Init(1), Command, longer)
         == Init(1).(rows := Row1(Done, true), workers := [Worker([], Claimed(1, Reply, []))], effects := multiset{1})
  {
    hide Run;
    var p1 := CommandBegun(past);
    ClaimAct(Run(Init(1), Command, p1), Command, 0, true, true);
    longer := Extend(1, Command, p1, Work(0, Claim(true, true)));
    hide WorkerStep, PollStep;
    assert [Reply][1..] == [];
    assert Run(Init(1), Command, longer).workers == [Worker([], Claimed(1, Reply, []))];
    assert Run(Init(1), Command, longer).rows == Row1(Done, true);
  }

  lemma SendFails(past: seq<Step>) returns (longer: seq<Step>)
    requires Run(Init(1), Command, past)
          == Init(1).(rows := Row1(Done, true), workers := [Worker([], Claimed(1, Reply, []))], effects := multiset{1})
    ensures Run(Init(1), Command, longer)
         == Init(1).(rows := Row1(Done, true), workers := [Worker([], Idle)], effects := multiset{1}, releases := multiset{1})
  {
    hide Run;
    var s := Run(Init(1), Command, past);
    SendAct(s, Command, 0, false);
    var p1 := Extend(1, Command, past, Work(0, Send(false)));
    var s1 := Run(Init(1), Command, p1);
    ReleaseAct(s1, Command, 0);
    longer := Extend(1, Command, p1, Work(0, Release));
    hide WorkerStep;
    assert s1.workers == [Worker([], SendFailed(1, []))];
    assert Run(Init(1), Command, longer).workers == [Worker([], Idle)];
    assert multiset{} + multiset{1} == multiset{1};
  }

  /** The failing side of `RetryIffStaleCopy` is reached: a failed send, its release written, and no copy left. */
  lemma ReleasedForGood() returns (past: seq<Step>)
    ensures var s := Run(Init(1), Command, past);
            && Released(s, 1) && 1 !in s.releases && s.workers == [Worker([], Idle)]
            && forall more :: Run(s, Command, more).sent[1] == 0
  {
    hide Run, WorkerStep, PollStep;
    var p := ReadByAll(1);
    p := CommandRead(p);
    p := SendFails(p);
    past := Extend(1, Command, p, ApplyRelease(1));
    var s := Run(Init(1), Command, past);
    assert s.rows == Row1(Failed, false);
    forall more ensures Run(s, Command, more).sent[1] == 0 {
      AbandonedForever(s, Command, 1, more);
    }
  }

  // ------------------------------------------------------------------ how often a command takes effect

  /** No worker will begin on `id` again from a copy of its row. */
  predicate NoCopies(s: State, id: int) {
    forall w :: 0 <= w < |s.workers| ==> id !in s.workers[w].batch
  }

  /** What the effect of `id` depends on: its row is past pending and nobody holds a copy of it. */
  predicate EffectSpent(s: State, id: int) {
    id in s.rows && s.rows[id].status != Pending && NoCopies(s, id)
  }

  lemma SpentLease(s: State, id: int, w: nat)
    requires EffectSpent(s, id) && w < |s.workers|
    ensures EffectSpent(LeaseStep(s, w), id) && LeaseStep(s, w).effects[id] == s.effects[id]
  {
    OldestFacts(PendingIds(s.rows), 10);
    hide Oldest;
  }

  lemma SpentBegin(s: State, cfg: Config, id: int, w: nat, ok: bool)
    requires EffectSpent(s, id) && w < |s.workers|
    ensures EffectSpent(BeginStep(s, cfg, w, ok), id) && BeginStep(s, cfg, w, ok).effects[id] == s.effects[id]
  {
    var batch := s.workers[w].batch;
    assert id !in batch;
    if batch != [] {
      assert batch == [batch[0]] + batch[1..];
    }
  }

  lemma SpentWork(s: State, cfg: Config, id: int, w: nat, act: Act)
    requires EffectSpent(s, id) && w < |s.workers| && !act.Lease? && !act.Begin?
    ensures EffectSpent(WorkerStep(s, cfg, w, act), id) && WorkerStep(s, cfg, w, act).effects[id] == s.effects[id]
  {
    hide Oldest;
  }

  lemma EffectStep(s: State, cfg: Config, id: int, st: Step)
    requires EffectSpent(s, id)
    ensures EffectSpent(Next(s, cfg, st), id) && Next(s, cfg, st).effects[id] == s.effects[id]
  {
    hide PollStep, LeaseStep, BeginStep, ClaimStep, SendStep, EditStep, ResendStep, ReleaseStep;
    if st.Work? {
      if st.w < |s.workers| {
        if st.act.Lease? {
          SpentLease(s, id, st.w);
        } else if st.act.Begin? {
          SpentBegin(s, cfg, id, st.w, st.act.ok);
        } else {
          SpentWork(s, cfg, id, st.w, st.act);
        }
      }
      hide EffectSpent;
    } else {
      PollFrame(s, cfg, st);
    }
  }

  lemma {:induction false} EffectOver(s: State, cfg: Config, id: int, steps: seq<Step>)
    requires EffectSpent(s, id)
    ensures Run(s, cfg, steps).effects[id] == s.effects[id]
    decreases |steps|
  {
    hide Next, EffectSpent;
    if steps != [] {
      EffectStep(s, cfg, id, steps[0]);
      EffectOver(Next(s, cfg, steps[0]), cfg, id, steps[1..]);
    }
  }

  /** A worker that holds a copy can reach it and begin on it. */
  lemma {:induction false} EffectLater(s: State, cfg: Config, w: nat, id: int) returns (steps: seq<Step>)
    requires w < |s.workers| && id in s.workers[w].batch && cfg.eager(id)
    requires s.workers[w].pc.Try? ==> s.workers[w].pc.plan != []
    ensures Run(s, cfg, steps).effects[id] > s.effects[id]
    decreases |s.workers[w].batch|, Rank(s.workers[w].pc)
  {
    var wk := s.workers[w];
    var st := Work(w, OtherAct(wk.pc));
    OtherActPc(s, cfg, w);
    EffectsGrow(s, cfg, w, id);
    if wk.pc.Idle? && wk.batch[0] == id {
      steps := [st];
      RunOne(s, cfg, st);
    } else {
      assert wk.pc.Idle? ==> wk.batch == [wk.batch[0]] + wk.batch[1..];
      hide WorkerStep, OtherAct, Rank;
      var rest := EffectLater(Next(s, cfg, st), cfg, w, id);
      steps := [st] + rest;
      assert steps[1..] == rest;
    }
  }

  lemma EffectsGrow(s: State, cfg: Config, w: nat, id: int)
    requires w < |s.workers|
    ensures var s' := WorkerStep(s, cfg, w, OtherAct(s.workers[w].pc));
            && s'.effects[id] >= s.effects[id]
            && (s.workers[w].pc.Idle? && s.workers[w].batch != [] && s.workers[w].batch[0] == id && cfg.eager(id)
                ==> s'.effects[id] > s.effects[id])
  {
    hide Oldest, PendingIds;
  }

  /**
   A command takes effect before its claim, so the claim does not keep it from happening twice. In
   any reachable state a command whose row is no longer pending takes effect again on some
   continuation exactly when a worker still holds a copy of the row it has not begun on.
   */
  lemma EffectAgainIff(workers: nat, cfg: Config, past: seq<Step>, id: int)
    requires var s := Run(Init(workers), cfg, past); id in s.rows && s.rows[id].status != Pending && cfg.eager(id)
    ensures var s := Run(Init(workers), cfg, past);
            (exists more :: Run(s, cfg, more).effects[id] > s.effects[id]) <==> !NoCopies(s, id)
  {
    var s := Run(Init(workers), cfg, past);
    NoEmptyTryRun(Init(workers), cfg, past);
    if w :| 0 <= w < |s.workers| && id in s.workers[w].batch {
      var more := EffectLater(s, cfg, w, id);
      assert Run(s, cfg, more).effects[id] > s.effects[id];
    } else {
      forall more ensures Run(s, cfg, more).effects[id] <= s.effects[id] {
        EffectOver(s, cfg, id, more);
      }
    }
  }

  lemma BothBegin() returns (past: seq<Step>)
    ensures Run(Init(2), Command, past)
         == Init(2).(rows := Row1(Pending, false), effects := multiset{1, 1},
                     workers := [Worker([], Try(1, [Reply])), Worker([], Try(1, [Reply]))])
  {
    hide Run;
    var p := ReadByAll(2);
    var s0 := Run(Init(2), Command, p);
    BeginAct(s0, Command, 0);
    p := Extend(2, Command, p, Work(0, Begin(true)));
    var s1 := Run(Init(2), Command, p);
    BeginAct(s1, Command, 1);
    past := Extend(2, Command, p, Work(1, Begin(true)));
    hide WorkerStep;
    assert [1][1..] == [];
    assert s1.workers == [Worker([], Try(1, [Reply])), Worker([1], Idle)];
    assert Run(Init(2), Command, past).workers == [Worker([], Try(1, [Reply])), Worker([], Try(1, [Reply]))];
    assert multiset{} + multiset{1} + multiset{1} == multiset{1, 1};
  }

  /** Two workers that read the same row both carry the command out, though only one answers. */
  lemma TwoEffectsOneAnswer() returns (past: seq<Step>)
    ensures var s := Run(Init(2), Command, past); s.effects[1] == 2 && s.sent[1] == 1
  {
    hide Run;
    var p := BothBegin();
    var s := Run(Init(2), Command, p);
    ClaimAct(s, Command, 0, true, true);
    p := Extend(2, Command, p, Work(0, Claim(true, true)));
    var s1 := Run(Init(2), Command, p);
    SendAct(s1, Command, 0, true);
    past := Extend(2, Command, p, Work(0, Send(true)));
    hide WorkerStep;
  }
}
