/** The code's poll round, and an undisturbed `Process`, as runs of the delivery protocol. */
module Rounds {
  import opened InboxTable
  import opened Poll
  import opened Delivery
  import opened Dispatch
  import Commands

  /** The steps of a round behind its fetch. A failing read of the pending rows ends it like a failing write. */
  function RoundSteps(stored: seq<bool>, readOk: bool, writeOk: bool): seq<Step> {
    EnqueueSteps(stored) + [ReadPending, WriteCursor(readOk && writeOk)]
  }

  function EnqueueSteps(stored: seq<bool>): seq<Step> {
    if stored == [] then [] else [EnqueueNext(stored[0])] + EnqueueSteps(stored[1..])
  }

  /** The updates are what the server offers under their ids. */
  predicate Contents(cfg: Config, updates: seq<Update>) {
    forall u :: u in updates ==> cfg.content(u.id).(id := u.id) == u
  }

  lemma EnqueueOne(s: State, cfg: Config, updates: seq<Update>, k: nat, ok: bool)
    requires k < |updates| && s.poll == Enqueueing(Ids(updates), k) && Contents(cfg, updates)
    ensures var s' := Next(s, cfg, EnqueueNext(ok));
            && s'.poll == Enqueueing(Ids(updates), k + 1) && s'.cursor == s.cursor
            && s'.rows == (if ok then Inserted(s.rows, updates[k]) else s.rows)
  {
    assert updates[k] in updates;
  }

  lemma {:induction false} EnqueueAll(s: State, cfg: Config, updates: seq<Update>, stored: seq<bool>, k: nat)
    requires |stored| == |updates| && k <= |updates| && s.poll == Enqueueing(Ids(updates), k) && Contents(cfg, updates)
    ensures var s' := Run(s, cfg, EnqueueSteps(stored[k..]));
            && s'.poll == Enqueueing(Ids(updates), |updates|) && s'.cursor == s.cursor
            && s'.rows == Recorded(s.rows, updates[k..], stored[k..])
    decreases |updates| - k
  {
    if k < |updates| {
      EnqueueOne(s, cfg, updates, k, stored[k]);
      assert stored[k..][1..] == stored[k + 1..] && updates[k..][1..] == updates[k + 1..];
      var st := EnqueueNext(stored[k]);
      hide Next;
      EnqueueAll(Next(s, cfg, st), cfg, updates, stored, k + 1);
      assert ([st] + EnqueueSteps(stored[k + 1..]))[1..] == EnqueueSteps(stored[k + 1..]);
    }
  }

  /** The code's round is a run of the protocol: it leaves the same table and the same cursor. */
  lemma RoundIsRun(s: State, cfg: Config, updates: seq<Update>, stored: seq<bool>, readOk: bool, writeOk: bool)
    requires |stored| == |updates| && s.poll == Enqueueing(Ids(updates), 0) && Contents(cfg, updates)
    ensures var s' := Run(s, cfg, RoundSteps(stored, readOk, writeOk));
            var ack := AckTo(0, Ids(updates), Window(s'.rows));
            && s'.rows == Recorded(s.rows, updates, stored)
            && s'.cursor == (if updates == [] || !readOk || !writeOk || ack == 0 then s.cursor else ack)
            && s'.poll.PollIdle?
  {
    EnqueueAll(s, cfg, updates, stored, 0);
    assert stored[0..] == stored && updates[0..] == updates;
    var s1 := Run(s, cfg, EnqueueSteps(stored));
    var write := WriteCursor(readOk && writeOk);
    RunConcat(s, cfg, EnqueueSteps(stored), [ReadPending, write]);
    hide Run, Recorded;
    RunTwo(s1, cfg, ReadPending, write);
    ScanAndWrite(s1, cfg, updates, readOk && writeOk);
  }

  lemma ScanAndWrite(s: State, cfg: Config, updates: seq<Update>, ok: bool)
    requires s.poll == Enqueueing(Ids(updates), |updates|)
    ensures var s' := Next(Next(s, cfg, ReadPending), cfg, WriteCursor(ok));
            var ack := AckTo(0, Ids(updates), Window(s.rows));
            && s'.rows == s.rows && s'.poll.PollIdle?
            && s'.cursor == (if updates == [] || !ok || ack == 0 then s.cursor else ack)
  {
    assert updates == [] ==> AckTo(0, Ids(updates), Window(s.rows)) == 0;
    hide AckTo, Window;
  }

  // ------------------------------------------------------------------ one inbox row, processed

  /** An attempt nobody interferes with, and the rollback of its claim if that is written, is a run of the protocol. */
  lemma AttemptIsRun(s: State, cfg: Config, w: nat, net: Net) returns (steps: seq<Step>)
    requires w < |s.workers| && s.workers[w].pc.Try? && s.workers[w].pc.plan != []
    ensures var Try(id, plan) := s.workers[w].pc;
            var s' := Run(s, cfg, steps);
            && s'.workers == s.workers[w := s.workers[w].(pc := After(id, plan[1..]))]
            && Effect(s'.rows, s'.sent, s'.runs) == AttemptEffect(Effect(s.rows, s.sent, s.runs), id, plan[0], net)
            && s'.effects == s.effects
  {
    var Try(id, plan) := s.workers[w].pc;
    SoloAttempt(s, cfg, w, net);
    RunActsIsRun(s, cfg, w, SoloActs(net));
    var s1 := RunActs(s, cfg, w, SoloActs(net));
    steps :| Run(s, cfg, steps) == s1;
    hide RunActs, SoloActs, Run;
    if net.reached && net.answered && Claimable(s.rows, id) && !net.first && net.released {
      RunOne(s1, cfg, ApplyRelease(id));
      RunConcat(s, cfg, steps, [ApplyRelease(id)]);
      ReleaseWritten(s1, cfg, id);
      hide Next;
      steps := steps + [ApplyRelease(id)];
    }
  }

  lemma ReleaseWritten(s: State, cfg: Config, id: int)
    requires id in s.releases
    ensures var s' := Next(s, cfg, ApplyRelease(id));
            && s'.workers == s.workers && s'.rows == Reopened(s.rows, id)
            && s'.sent == s.sent && s'.runs == s.runs && s'.effects == s.effects
  {
  }

  /** ... and so is a whole plan of them. */
  lemma {:induction false} PlanIsRun(s: State, cfg: Config, w: nat, id: int, plan: seq<Attempt>, nets: seq<Net>)
    returns (steps: seq<Step>)
    requires w < |s.workers| && |nets| >= |plan| && s.workers[w].pc == After(id, plan)
    ensures var s' := Run(s, cfg, steps);
            && s'.workers == s.workers[w := s.workers[w].(pc := Idle)]
            && Effect(s'.rows, s'.sent, s'.runs) == PlanEffect(Effect(s.rows, s.sent, s.runs), id, plan, nets)
            && s'.effects == s.effects
    decreases |plan|
  {
    if plan == [] {
      steps := [];
    } else {
      var first := AttemptIsRun(s, cfg, w, nets[0]);
      var s1 := Run(s, cfg, first);
      hide Run, AttemptEffect;
      var rest := PlanIsRun(s1, cfg, w, id, plan[1..], nets[1..]);
      RunConcat(s, cfg, first, rest);
      steps := first + rest;
      assert PlanEffect(Effect(s.rows, s.sent, s.runs), id, plan, nets)
          == PlanEffect(Effect(s1.rows, s1.sent, s1.runs), id, plan[1..], nets[1..]);
    }
  }

  /**
   What `Process` does to an inbox row is a run of the protocol, told the plans and the eager updates
   of the deployment: the worker begins on its row copy and makes the attempts of the plan. It counts
   one effect for an update that acts.
   */
  lemma ProcessIsRun(s: State, w: nat, content: int -> Update, env: Env, limit: nat, id: int, nets: seq<Net>)
    returns (steps: seq<Step>)
    requires w < |s.workers| && s.workers[w].pc.Idle? && s.workers[w].batch != [] && s.workers[w].batch[0] == id
    requires |nets| >= 2
    ensures var cfg := Commands.ConfigOf(content, env, limit);
            var u, s' := content(id), Run(s, cfg, steps);
            && Effect(s'.rows, s'.sent, s'.runs) ==
               (if Attempts(u, env) == [] then Effect(Marked(s.rows, id, Skipped), s.sent, s.runs)
                else PlanEffect(Effect(s.rows, s.sent, s.runs), id, Attempts(u, env), nets))
            && s'.effects == (if Commands.Carries(u, env) then s.effects + multiset{id} else s.effects)
            && s'.workers == s.workers[w := Worker(s.workers[w].batch[1..], Idle)]
  {
    var cfg := Commands.ConfigOf(content, env, limit);
    var begin := Work(w, Begin(true));
    var s1 := Next(s, cfg, begin);
    Commands.EagerIff(content, env, limit, id);
    AtMostTwo(content(id), env);
    hide Commands.ConfigOf, Attempts, Commands.Carries, AttemptEffect;
    assert s1 == BeginStep(s, cfg, w, true);
    var rest := PlanIsRun(s1, cfg, w, id, cfg.plan(id), nets);
    steps := [begin] + rest;
    RunOne(s, cfg, begin);
    RunConcat(s, cfg, [begin], rest);
    hide Run, Next;
    assert PlanEffect(Effect(s1.rows, s1.sent, s1.runs), id, [], nets) == Effect(s1.rows, s1.sent, s1.runs);
  }

  lemma AtMostTwo(u: Update, env: Env)
    ensures |Attempts(u, env)| <= 2
  {
    AttemptShape(u, env);
  }
}
