/**
 How often the engine runs for one update. The prompt path runs it behind the placeholder, where
 the claim is never given back; a known command runs it before its only message, which may fail.
 */
module EngineRuns {
  import opened InboxTable
  import opened Delivery
  import opened Cursor

  predicate EngineIn(plan: seq<Attempt>) {
    Routed in plan || FreeForm in plan
  }

  /** The attempts a worker at `pc` still has to make, the one under way included until it has run the engine. */
  function Remaining(pc: Pc): seq<Attempt> {
    match pc
    case Idle => []
    case Try(_, plan) => plan
    case Claimed(_, kind, rest) => [kind] + rest
    case Placed(_, rest) => rest
    case EditFailed(_, rest) => rest
    case SendFailed(_, rest) => rest
  }

  /** The worker will still make an attempt at `id` that uses the engine, from a row copy it read earlier. */
  predicate WillRun(wk: Worker, cfg: Config, id: int) {
    || (id in wk.batch && EngineIn(cfg.plan(id)))
    || (!wk.pc.Idle? && wk.pc.id == id && EngineIn(Remaining(wk.pc)))
  }

  ghost predicate RunSpent(s: State, cfg: Config, id: int) {
    Processed(s, id) && forall w :: 0 <= w < |s.workers| ==> !WillRun(s.workers[w], cfg, id)
  }

  lemma SpentLease(s: State, cfg: Config, id: int, w: nat)
    requires RunSpent(s, cfg, id) && w < |s.workers|
    ensures var s' := LeaseStep(s, w); !WillRun(s'.workers[w], cfg, id) && s'.runs == s.runs
  {
    OldestFacts(PendingIds(s.rows), 10);
    hide Oldest, EngineIn;
    assert !WillRun(s.workers[w], cfg, id);
  }

  lemma SpentBegin(s: State, cfg: Config, id: int, w: nat, ok: bool)
    requires w < |s.workers| && !WillRun(s.workers[w], cfg, id)
    ensures var s' := BeginStep(s, cfg, w, ok); !WillRun(s'.workers[w], cfg, id) && s'.runs == s.runs
  {
    var batch := s.workers[w].batch;
    if batch != [] {
      assert batch == [batch[0]] + batch[1..];
    }
    hide EngineIn;
  }

  lemma SpentClaim(s: State, cfg: Config, id: int, w: nat, reached: bool, answered: bool)
    requires w < |s.workers| && !WillRun(s.workers[w], cfg, id)
    ensures var s' := ClaimStep(s, w, reached, answered); !WillRun(s'.workers[w], cfg, id) && s'.runs == s.runs
  {
    if s.workers[w].pc.Try? && s.workers[w].pc.plan != [] {
      var plan := s.workers[w].pc.plan;
      assert plan == [plan[0]] + plan[1..];
    }
    hide Claimable, InboxTable.Claimed;
  }

  lemma SpentSend(s: State, cfg: Config, id: int, w: nat, ok: bool)
    requires w < |s.workers| && !WillRun(s.workers[w], cfg, id)
    ensures var s' := SendStep(s, w, ok); !WillRun(s'.workers[w], cfg, id) && s'.runs[id] == s.runs[id]
  {
    var pc := s.workers[w].pc;
    if pc.Claimed? && pc.id == id {
      assert pc.kind in Remaining(pc) && forall a :: a in pc.rest ==> a in Remaining(pc);
    }
  }

  lemma SpentRest(s: State, cfg: Config, id: int, w: nat, act: Act)
    requires w < |s.workers| && !WillRun(s.workers[w], cfg, id) && (act.Edit? || act.Resend? || act.Release?)
    ensures var s' := WorkerStep(s, cfg, w, act); !WillRun(s'.workers[w], cfg, id) && s'.runs == s.runs
  {
    hide EngineIn, LeaseStep, BeginStep, ClaimStep, SendStep;
  }

  lemma SpentWork(s: State, cfg: Config, id: int, w: nat, act: Act)
    requires RunSpent(s, cfg, id) && w < |s.workers|
    ensures RunSpent(WorkerStep(s, cfg, w, act), cfg, id) && WorkerStep(s, cfg, w, act).runs[id] == s.runs[id]
  {
    WorkSamePoll(s, cfg, w, act);
    OthersStay(s, cfg, w, act);
    hide WillRun, Processed, LeaseStep, BeginStep, ClaimStep, SendStep, EditStep, ResendStep, ReleaseStep;
    match act {
      case Lease => SpentLease(s, cfg, id, w);
      case Begin(ok) => SpentBegin(s, cfg, id, w, ok);
      case Claim(reached, answered) => SpentClaim(s, cfg, id, w, reached, answered);
      case Send(ok) => SpentSend(s, cfg, id, w, ok);
      case _ => SpentRest(s, cfg, id, w, act);
    }
    hide WorkerStep;
  }

  lemma SpentStep(s: State, cfg: Config, id: int, st: Step)
    requires RunSpent(s, cfg, id)
    ensures RunSpent(Next(s, cfg, st), cfg, id) && Next(s, cfg, st).runs[id] == s.runs[id]
  {
    hide PollStep, WorkerStep;
    if st.Work? {
      if st.w < |s.workers| {
        SpentWork(s, cfg, id, st.w, st.act);
      }
    } else if st.ApplyRelease? || st.Crash? {
      QuietSamePoll(s, cfg, st);
    } else {
      PollFrame(s, cfg, st);
    }
  }

  lemma {:induction false} RunsOver(s: State, cfg: Config, id: int, steps: seq<Step>)
    requires RunSpent(s, cfg, id)
    ensures Run(s, cfg, steps).runs[id] == s.runs[id]
    decreases |steps|
  {
    hide Next, RunSpent;
    if steps != [] {
      SpentStep(s, cfg, id, steps[0]);
      RunsOver(Next(s, cfg, steps[0]), cfg, id, steps[1..]);
    }
  }

  // ------------------------------------------------------------------ a copy is enough

  lemma RunsGrow(s: State, cfg: Config, w: nat, act: Act, id: int)
    requires w < |s.workers|
    ensures WorkerStep(s, cfg, w, act).runs[id] >= s.runs[id]
  {
    hide Oldest, PendingIds;
  }

  /** A worker that stands at a claim for an engine attempt can win it and run the engine. */
  lemma RunNow(s: State, cfg: Config, w: nat, id: int) returns (steps: seq<Step>)
    requires w < |s.workers| && Claimable(s.rows, id) && s.workers[w].pc.Try? && s.workers[w].pc.id == id
    requires s.workers[w].pc.plan != [] && !s.workers[w].pc.plan[0].Reply?
    ensures Run(s, cfg, steps).runs[id] > s.runs[id]
  {
    var claim, send := Work(w, Claim(true, true)), Work(w, Send(true));
    ClaimAct(s, cfg, w, true, true);
    var s1 := Next(s, cfg, claim);
    SendAct(s1, cfg, w, true);
    hide WorkerStep;
    RunTwo(s, cfg, claim, send);
    steps := [claim, send];
  }

  /** An attempt that only replies can be given up, and one that uses the engine is still to come. */
  lemma Skip(plan: seq<Attempt>)
    requires plan != [] && plan[0].Reply?
    ensures Routed in plan <==> Routed in plan[1..]
    ensures EngineIn(plan) <==> EngineIn(plan[1..])
  {
    assert plan == [plan[0]] + plan[1..];
  }

  lemma TowardsRun(s: State, cfg: Config, w: nat, id: int)
    requires ClaimInv(s) && w < |s.workers| && id in s.rows && !s.rows[id].replied
    requires WillRun(s.workers[w], cfg, id) && (s.workers[w].pc.Try? ==> s.workers[w].pc.plan != [])
    requires s.workers[w].pc.Try? && s.workers[w].pc.id == id ==> s.workers[w].pc.plan[0].Reply?
    ensures var s' := WorkerStep(s, cfg, w, OtherAct(s.workers[w].pc));
            && |s'.workers| == |s.workers| && s'.rows == s.rows
            && WillRun(s'.workers[w], cfg, id)
            && (s'.workers[w].pc.Try? ==> s'.workers[w].pc.plan != [])
            && (|s'.workers[w].batch| < |s.workers[w].batch|
                || (s'.workers[w].batch == s.workers[w].batch && Rank(s'.workers[w].pc) < Rank(s.workers[w].pc)))
  {
    var wk := s.workers[w];
    assert !(Holds(wk.pc) && wk.pc.id == id);
    OtherActPc(s, cfg, w);
    if wk.pc.Try? {
      ClaimAct(s, cfg, w, false, false);
      if wk.pc.id == id {
        Skip(wk.pc.plan);
      }
    }
    hide WorkerStep, ClaimInv, Rank, EngineIn;
    if wk.batch != [] {
      assert wk.batch == [wk.batch[0]] + wk.batch[1..];
    }
  }

  lemma {:induction false} RunLater(s: State, cfg: Config, w: nat, id: int) returns (steps: seq<Step>)
    requires ClaimInv(s) && w < |s.workers| && Claimable(s.rows, id) && WillRun(s.workers[w], cfg, id)
    requires s.workers[w].pc.Try? ==> s.workers[w].pc.plan != []
    ensures Run(s, cfg, steps).runs[id] > s.runs[id]
    decreases |s.workers[w].batch|, Rank(s.workers[w].pc)
  {
    var pc := s.workers[w].pc;
    if pc.Try? && pc.id == id && !pc.plan[0].Reply? {
      steps := RunNow(s, cfg, w, id);
    } else {
      var st := Work(w, OtherAct(pc));
      TowardsRun(s, cfg, w, id);
      RunsGrow(s, cfg, w, OtherAct(pc), id);
      ClaimInvStep(s, cfg, st);
      hide ClaimInv, WorkerStep, WillRun, OtherAct, Rank;
      var rest := RunLater(Next(s, cfg, st), cfg, w, id);
      steps := [st] + rest;
      assert steps[1..] == rest;
    }
  }

  /**
   In any reachable state, the engine runs (again) for a released update on some continuation
   exactly when a worker holds a copy of its row with an attempt left that uses the engine.
   */
  lemma EngineAgainIff(workers: nat, cfg: Config, past: seq<Step>, id: int)
    requires var s := Run(Init(workers), cfg, past); Released(s, id) && id !in s.releases
    ensures var s := Run(Init(workers), cfg, past);
            (exists more :: Run(s, cfg, more).runs[id] > s.runs[id])
            <==> exists w :: 0 <= w < |s.workers| && WillRun(s.workers[w], cfg, id)
  {
    var s := Run(Init(workers), cfg, past);
    ClaimInvRun(Init(workers), cfg, past);
    NoEmptyTryRun(Init(workers), cfg, past);
    hide WillRun, ClaimInv;
    if w :| 0 <= w < |s.workers| && WillRun(s.workers[w], cfg, id) {
      var more := RunLater(s, cfg, w, id);
      assert Run(s, cfg, more).runs[id] > s.runs[id];
    } else {
      forall more ensures Run(s, cfg, more).runs[id] <= s.runs[id] {
        RunsOver(s, cfg, id, more);
      }
    }
  }

  // ------------------------------------------------------------------ once

  /** The engine has run: the claim stands, and nobody can still give it back. */
  ghost predicate RunsOnce(s: State, id: int) {
    && s.runs[id] <= 1
    && (forall w :: 0 <= w < |s.workers| && !s.workers[w].pc.Idle? && s.workers[w].pc.id == id ==>
          Routed !in Remaining(s.workers[w].pc))
    && (s.runs[id] == 1 ==>
          && id in s.rows && s.rows[id].replied && id !in s.releases
          && forall w :: 0 <= w < |s.workers| ==> !GivesBack(s.workers[w].pc, id))
  }

  /** A claim of `id` that a failing send would give back. */
  predicate GivesBack(pc: Pc, id: int) {
    (pc.Claimed? || pc.SendFailed?) && pc.id == id
  }

  lemma OnceLease(s: State, id: int, w: nat)
    requires RunsOnce(s, id) && w < |s.workers|
    ensures RunsOnce(LeaseStep(s, w), id)
  {
    hide Oldest, PendingIds;
  }

  lemma OnceBegin(s: State, cfg: Config, id: int, w: nat, ok: bool)
    requires RunsOnce(s, id) && Routed !in cfg.plan(id) && w < |s.workers|
    ensures RunsOnce(BeginStep(s, cfg, w, ok), id)
  {
  }

  lemma OnceClaim(s: State, id: int, w: nat, reached: bool, answered: bool)
    requires RunsOnce(s, id) && w < |s.workers|
    ensures RunsOnce(ClaimStep(s, w, reached, answered), id)
  {
    if s.workers[w].pc.Try? && s.workers[w].pc.plan != [] {
      var plan := s.workers[w].pc.plan;
      assert plan == [plan[0]] + plan[1..];
    }
  }

  lemma OnceSend(s: State, id: int, w: nat, ok: bool)
    requires RunsOnce(s, id) && ClaimInv(s) && w < |s.workers|
    ensures RunsOnce(SendStep(s, w, ok), id)
  {
    var pc := s.workers[w].pc;
    if pc.Claimed? {
      assert OpenClaim(s, pc.id) && s.releases[pc.id] == 0;
      assert forall v :: 0 <= v < |s.workers| && v != w && Holds(s.workers[v].pc) ==> s.workers[v].pc.id != pc.id;
      assert pc.kind in Remaining(pc) && forall a :: a in pc.rest ==> a in Remaining(pc);
      assert pc.id == id ==> GivesBack(pc, id) && s.runs[id] == 0;
    }
    hide ClaimInv;
  }

  lemma OnceRest(s: State, cfg: Config, id: int, w: nat, act: Act)
    requires RunsOnce(s, id) && w < |s.workers| && (act.Edit? || act.Resend? || act.Release?)
    ensures RunsOnce(WorkerStep(s, cfg, w, act), id)
  {
    hide LeaseStep, BeginStep, ClaimStep, SendStep;
    assert GivesBack(s.workers[w].pc, id) ==> s.runs[id] == 0;
  }

  lemma OnceQuiet(s: State, cfg: Config, id: int, st: Step)
    requires RunsOnce(s, id) && (st.ApplyRelease? || st.Crash?)
    ensures RunsOnce(Next(s, cfg, st), id)
  {
    hide WorkerStep, PollStep;
  }

  lemma OncePoll(s: State, cfg: Config, id: int, st: Step)
    requires RunsOnce(s, id)
    ensures RunsOnce(PollStep(s, cfg, st), id)
  {
    PollFrame(s, cfg, st);
    hide PollStep, Remaining, GivesBack;
  }

  lemma OnceStep(s: State, cfg: Config, id: int, st: Step)
    requires RunsOnce(s, id) && ClaimInv(s) && Routed !in cfg.plan(id)
    ensures RunsOnce(Next(s, cfg, st), id)
  {
    hide RunsOnce, ClaimInv, PollStep, LeaseStep, BeginStep, ClaimStep, SendStep, EditStep, ResendStep, ReleaseStep;
    if st.ApplyRelease? || st.Crash? {
      OnceQuiet(s, cfg, id, st);
    } else if !st.Work? {
      OncePoll(s, cfg, id, st);
    } else if st.w < |s.workers| {
      match st.act
      case Lease => OnceLease(s, id, st.w);
      case Begin(ok) => OnceBegin(s, cfg, id, st.w, ok);
      case Claim(reached, answered) => OnceClaim(s, id, st.w, reached, answered);
      case Send(ok) => OnceSend(s, id, st.w, ok);
      case _ => OnceRest(s, cfg, id, st.w, st.act);
    }
  }

  lemma {:induction false} OnceRun(s: State, cfg: Config, id: int, steps: seq<Step>)
    requires RunsOnce(s, id) && ClaimInv(s) && Routed !in cfg.plan(id)
    ensures RunsOnce(Run(s, cfg, steps), id)
    decreases |steps|
  {
    hide RunsOnce, ClaimInv, Next;
    if steps != [] {
      OnceStep(s, cfg, id, steps[0]);
      ClaimInvStep(s, cfg, steps[0]);
      OnceRun(Next(s, cfg, steps[0]), cfg, id, steps[1..]);
    }
  }

  // ------------------------------------------------------------------ twice

  /** Worker 1 holds a copy of the row; worker 0 stands at `pc`. */
  predicate Racing(s: State, id: int, pc: Pc) {
    |s.workers| >= 2 && s.workers[0] == Worker([], pc) && s.workers[1] == Worker([id], Idle) && s.releases == multiset{}
  }

  lemma RowWritten(workers: nat, cfg: Config, id: int) returns (past: seq<Step>)
    ensures var s := Run(Init(workers), cfg, past);
            && s.workers == Fresh(workers) && s.releases == multiset{} && Claimable(s.rows, id) && PendingIds(s.rows) == {id}
  {
    assert Run(Init(workers), cfg, []) == Init(workers);
    hide Run;
    past := Extend(workers, cfg, [], Webhook(id));
    var s := Run(Init(workers), cfg, past);
    assert s.rows == map[id := Row(cfg.content(id).(id := id), Status.Pending, false)];
  }

  lemma CopyRead(s: State, id: int, w: nat)
    requires w < |s.workers| && s.workers[w] == Worker([], Idle) && PendingIds(s.rows) == {id}
    ensures LeaseStep(s, w) == s.(workers := s.workers[w := Worker([id], Idle)])
  {
    OldestOne(id, 10);
    hide Oldest, PendingIds;
  }

  /** The row is written and both workers read it. */
  lemma BothRead(workers: nat, cfg: Config, id: int) returns (past: seq<Step>)
    requires workers >= 2 && cfg.plan(id) != []
    ensures var s := Run(Init(workers), cfg, past);
            Racing(s, id, Try(id, cfg.plan(id))) && Claimable(s.rows, id)
  {
    hide Run, PollStep, PendingIds, Claimable, BeginStep, LeaseStep;
    past := RowWritten(workers, cfg, id);
    CopyRead(Run(Init(workers), cfg, past), id, 0);
    past := Extend(workers, cfg, past, Work(0, Lease));
    CopyRead(Run(Init(workers), cfg, past), id, 1);
    past := Extend(workers, cfg, past, Work(1, Lease));
    var s := Run(Init(workers), cfg, past);
    BeginOn(s, cfg, 0, id);
    past := Extend(workers, cfg, past, Work(0, Begin(true)));
  }

  lemma BeginOn(s: State, cfg: Config, w: nat, id: int)
    requires w < |s.workers| && s.workers[w] == Worker([id], Idle) && cfg.plan(id) != []
    ensures var s' := BeginStep(s, cfg, w, true);
            && s'.rows == s.rows && s'.releases == s.releases
            && s'.workers == s.workers[w := Worker([], Try(id, cfg.plan(id)))]
  {
    assert [id][1..] == [];
  }

  /** Giving up one attempt after the other, worker 0 comes to the one for the router. */
  lemma {:induction false} SkipToRouted(workers: nat, cfg: Config, id: int, p: seq<Step>, plan: seq<Attempt>)
    returns (past: seq<Step>, rest: seq<Attempt>)
    requires Routed in plan
    requires var s := Run(Init(workers), cfg, p); Racing(s, id, Try(id, plan)) && Claimable(s.rows, id)
    ensures var s := Run(Init(workers), cfg, past); Racing(s, id, Try(id, [Routed] + rest)) && Claimable(s.rows, id)
    decreases |plan|
  {
    assert plan == [plan[0]] + plan[1..];
    if plan[0].Routed? {
      past, rest := p, plan[1..];
    } else {
      hide Run;
      ClaimAct(Run(Init(workers), cfg, p), cfg, 0, false, false);
      var q := Extend(workers, cfg, p, Work(0, Claim(false, false)));
      hide WorkerStep;
      past, rest := SkipToRouted(workers, cfg, id, q, plan[1..]);
    }
  }

  /** The engine runs for a known command and its message fails. */
  lemma RunAndFail(workers: nat, cfg: Config, id: int, p: seq<Step>, rest: seq<Attempt>) returns (past: seq<Step>)
    requires var s := Run(Init(workers), cfg, p); Racing(s, id, Try(id, [Routed] + rest)) && Claimable(s.rows, id)
    ensures var s := Run(Init(workers), cfg, past); Racing(s, id, SendFailed(id, rest)) && id in s.rows && s.runs[id] >= 1
  {
    var s0 := Run(Init(workers), cfg, p);
    hide Run;
    ClaimAct(s0, cfg, 0, true, true);
    past := Extend(workers, cfg, p, Work(0, Claim(true, true)));
    var s1 := Run(Init(workers), cfg, past);
    assert ([Routed] + rest)[1..] == rest;
    SendAct(s1, cfg, 0, false);
    hide WorkerStep;
    assert s1.workers[0] == Worker([], Pc.Claimed(id, Routed, rest)) && s1.workers[1] == s0.workers[1];
    past := Extend(workers, cfg, past, Work(0, Send(false)));
  }

  /** ... and the claim is given back. */
  lemma GiveBack(workers: nat, cfg: Config, id: int, p: seq<Step>, rest: seq<Attempt>) returns (past: seq<Step>)
    requires var s := Run(Init(workers), cfg, p); Racing(s, id, SendFailed(id, rest)) && id in s.rows && s.runs[id] >= 1
    ensures var s := Run(Init(workers), cfg, past);
            && Released(s, id) && id !in s.releases && s.runs[id] >= 1
            && |s.workers| >= 2 && s.workers[1] == Worker([id], Idle)
  {
    var s2 := Run(Init(workers), cfg, p);
    hide Run;
    ReleaseAct(s2, cfg, 0);
    past := Extend(workers, cfg, p, Work(0, Release));
    var s3 := Run(Init(workers), cfg, past);
    hide WorkerStep;
    assert s3.releases == multiset{id} && s3.rows == s2.rows && s3.workers[1] == s2.workers[1];
    past := Extend(workers, cfg, past, ApplyRelease(id));
  }

  lemma RunTwice(workers: nat, cfg: Config, id: int) returns (steps: seq<Step>)
    requires workers >= 2 && Routed in cfg.plan(id)
    ensures Run(Init(workers), cfg, steps).runs[id] > 1
  {
    hide Run, WorkerStep, PollStep;
    var p := BothRead(workers, cfg, id);
    var q, rest := SkipToRouted(workers, cfg, id, p, cfg.plan(id));
    var r := RunAndFail(workers, cfg, id, q, rest);
    var past := GiveBack(workers, cfg, id, r, rest);
    var s := Run(Init(workers), cfg, past);
    assert WillRun(s.workers[1], cfg, id);
    EngineAgainIff(workers, cfg, past, id);
    var more :| Run(s, cfg, more).runs[id] > s.runs[id];
    RunConcat(Init(workers), cfg, past, more);
    steps := past + more;
  }

  /**
   "Idempotency first" holds of the engine exactly for updates that are not known commands: with
   two workers or more, an update's engine runs at most once on every run if and only if no
   attempt of its plan answers a known command.
   */
  lemma EngineOnceIff(workers: nat, cfg: Config, id: int)
    requires workers >= 2
    ensures (forall steps :: Run(Init(workers), cfg, steps).runs[id] <= 1) <==> Routed !in cfg.plan(id)
  {
    if Routed in cfg.plan(id) {
      var steps := RunTwice(workers, cfg, id);
      assert !(Run(Init(workers), cfg, steps).runs[id] <= 1);
    } else {
      forall steps ensures Run(Init(workers), cfg, steps).runs[id] <= 1 {
        assert ClaimInv(Init(workers));
        OnceRun(Init(workers), cfg, id, steps);
      }
    }
  }
}
