/**
 The dispatcher's claim-and-send code, as it runs over the inbox, and its tie to the worker
 steps of `Delivery`: one attempt run without interference is a run of the state machine.
 */
module Dispatch {
  import opened Text
  import opened InboxTable
  import D = Delivery

  /**
   How the store and the network answer during one attempt: whether the claim reaches the table and
   its answer comes back, the three sends, and whether the rollback is written.
   */
  datatype Net = Net(reached: bool, answered: bool, first: bool, edit: bool, resend: bool, released: bool)

  datatype Effect = Effect(rows: Table, sent: multiset<int>, runs: multiset<int>)

  /** Claim, send, and roll back when the first message fails; a failed edit falls back to a new message. */
  function AttemptEffect(e: Effect, id: int, kind: D.Attempt, net: Net): Effect {
    if !net.reached then e
    else
      var claimed := Claimed(e.rows, id);
      if !Claimable(e.rows, id) || !net.answered then e.(rows := claimed)
      else
        var ran := if D.RunsEngine(kind, net.first) then e.runs + multiset{id} else e.runs;
        if !net.first then Effect(if net.released then Reopened(claimed, id) else claimed, e.sent, ran)
        else if !kind.FreeForm? || net.edit || net.resend then Effect(claimed, e.sent + multiset{id}, ran)
        else Effect(claimed, e.sent, ran)
  }

  /**
   What an attempt comes to. It has the claim if the claim reaches an unclaimed row and its answer comes
   back; an answer goes out, the engine runs and the claim is given back only then.
   */
  lemma AttemptMeans(e: Effect, id: int, kind: D.Attempt, net: Net)
    ensures var e' := AttemptEffect(e, id, kind, net);
            var open := id in e.rows && !e.rows[id].replied && net.reached;
            var has := open && net.answered;
            && e'.sent == e.sent + (if has && net.first && (kind != D.FreeForm || net.edit || net.resend)
                                    then multiset{id} else multiset{})
            && e'.runs == e.runs + (if has && (kind == D.Routed || (kind == D.FreeForm && net.first))
                                    then multiset{id} else multiset{})
            && e'.rows.Keys == e.rows.Keys && (forall x :: x in e.rows && x != id ==> e'.rows[x] == e.rows[x])
            && (!open ==> e'.rows == e.rows)
            && (open ==> e'.rows[id] == if has && !net.first && net.released
                                        then e.rows[id].(status := Failed, replied := false)
                                        else e.rows[id].(status := Done, replied := true))
  {
  }

  /** Routing facts the dispatcher consults; `known` tells whether a rule's pattern begins with a command word. */
  datatype Env = Env(allow: set<int>, gated: set<string>, known: string -> bool, logWired: bool, watchWired: bool)

  predicate PrefixCommand(text: string) {
    HasPrefix(text, "/stats ") || HasPrefix(text, "/every ") || HasPrefix(text, "/cancel_job ")
  }

  predicate ExactCommand(text: string) {
    || text == "/rules export" || text == "/help" || text == "/start" || text == "/rules" || text == "/approvals"
    || text == "/status" || text == "/stats" || text == "/history" || text == "/health" || text == "/jobs"
    || text == "/cancel_job" || text == "/scheduled" || text == "/unschedule" || text == "/deny" || text == "/approve"
  }

  predicate LogCommand(text: string) {
    text == "/api_perf" || text == "/exceptions" || text == "/access" || text == "/audit" || text == "/behaviour"
  }

  predicate WatchCommand(text: string) {
    text == "/watch" || text == "/unwatch" || text == "/watchlist" || text == "/analyze"
  }

  /** `approve 3`, `deny 3`, with or without the slash. */
  predicate DecisionForm(text: string) {
    var t := TrimPrefix(text, "/");
    HasPrefix(t, "approve ") || HasPrefix(t, "deny ")
  }

  function FirstWord(text: string): string {
    Trim(Split(text, ' ')[0])
  }

  /** The end of the dispatch: decisions, gated actions, unknown commands, router commands, prompts. */
  function LastAttempt(text: string, e: Env): D.Attempt {
    if DecisionForm(text) || FirstWord(text) in e.gated then D.Reply
    else if HasPrefix(text, "/") then (if e.known(FirstWord(text)) then D.Routed else D.Reply)
    else D.FreeForm
  }

  /** The attempts made for one update, in order; none means it is skipped. */
  function Attempts(u: Update, e: Env): seq<D.Attempt> {
    if u.chat == 0 || u.chat !in e.allow then []
    else if Trim(u.text) == "" && u.callback == "" then []
    else if u.callback != "" || PrefixCommand(u.text) || ExactCommand(u.text) then [D.Reply]
    else if LogCommand(u.text) then (if e.logWired then [D.Reply, LastAttempt(u.text, e)] else [D.Reply])
    else if WatchCommand(u.text) then (if e.watchWired then [D.Reply, LastAttempt(u.text, e)] else [D.Reply])
    else [LastAttempt(u.text, e)]
  }

  /** Commands that act while their answer is computed, which is before the claim. */
  predicate ActsFirst(text: string) {
    || HasPrefix(text, "/every ") || HasPrefix(text, "/cancel_job ")
    || text == "/unschedule" || text == "/deny" || text == "/approve"
  }

  /** How many effects the end of the dispatch has: a decision or a gated action. */
  function LastEffects(text: string, e: Env): nat {
    if DecisionForm(text) || FirstWord(text) in e.gated then 1 else 0
  }

  /** How often processing an update carries its command out, whether or not a claim is won. */
  function Effects(u: Update, e: Env): nat {
    if u.chat == 0 || u.chat !in e.allow || (Trim(u.text) == "" && u.callback == "") then 0
    else if u.callback != "" then 1
    else if PrefixCommand(u.text) || ExactCommand(u.text) then (if ActsFirst(u.text) then 1 else 0)
    else if LogCommand(u.text) then (if e.logWired then LastEffects(u.text, e) else 0)
    else if WatchCommand(u.text) then (if e.watchWired then 1 + LastEffects(u.text, e) else 0)
    else LastEffects(u.text, e)
  }

  function PlanEffect(e: Effect, id: int, plan: seq<D.Attempt>, nets: seq<Net>): Effect
    requires |nets| >= |plan|
    decreases |plan|
  {
    if plan == [] then e
    else PlanEffect(AttemptEffect(e, id, plan[0], nets[0]), id, plan[1..], nets[1..])
  }

  class Dispatcher {
    const inbox: Inbox
    const env: Env
    var sent: multiset<int>
    var effects: multiset<int>
    var runs: multiset<int>

    constructor (inbox: Inbox, env: Env)
      ensures this.inbox == inbox && this.env == env
      ensures sent == multiset{} && effects == multiset{} && runs == multiset{}
    {
      this.inbox := inbox;
      this.env := env;
      this.sent, this.effects, this.runs := multiset{}, multiset{}, multiset{};
    }

    ghost function State(): Effect
      reads this, inbox
    {
      Effect(inbox.rows, sent, runs)
    }

    /** Carrying a command out, to compute its answer. */
    method Act(id: int)
      modifies this`effects
      ensures effects == old(effects)[id := old(effects)[id] + 1]
    {
      effects := effects + multiset{id};
    }

    /** The command path: claim, then send, releasing the claim when the send fails. */
    method ClaimAndSend(id: int, net: Net)
      modifies this`sent, inbox`rows
      ensures State() == AttemptEffect(old(State()), id, D.Reply, net)
    {
      if !net.reached {
        return;
      }
      var claimed := inbox.ClaimReply(id);
      if !net.answered || !claimed {
        return;
      }
      if net.first {
        sent := sent + multiset{id};
      } else if net.released {
        inbox.FailAndReopen(id);
      }
    }

    /** A known command: claim, then the engine, then send; a failed send releases the claim after the run. */
    method ClaimAndRoute(id: int, net: Net)
      modifies this`sent, this`runs, inbox`rows
      ensures State() == AttemptEffect(old(State()), id, D.Routed, net)
    {
      if !net.reached {
        return;
      }
      var claimed := inbox.ClaimReply(id);
      if !net.answered || !claimed {
        return;
      }
      runs := runs + multiset{id};
      if net.first {
        sent := sent + multiset{id};
      } else if net.released {
        inbox.FailAndReopen(id);
      }
    }

    /** The prompt path: claim, placeholder, engine, edit, and a new message when the edit fails. */
    method ClaimAndEdit(id: int, net: Net)
      modifies this`sent, this`runs, inbox`rows
      ensures State() == AttemptEffect(old(State()), id, D.FreeForm, net)
    {
      if !net.reached {
        return;
      }
      var claimed := inbox.ClaimReply(id);
      if !net.answered || !claimed {
        return;
      }
      if !net.first {
        if net.released {
          inbox.FailAndReopen(id);
        }
        return;
      }
      runs := runs + multiset{id};
      if net.edit {
        sent := sent + multiset{id};
      } else if net.resend {
        sent := sent + multiset{id};
      }
    }

    method Last(u: Update, net: Net)
      modifies this`sent, this`effects, this`runs, inbox`rows
      ensures State() == AttemptEffect(old(State()), u.id, LastAttempt(u.text, env), net)
      ensures effects == old(effects)[u.id := old(effects)[u.id] + LastEffects(u.text, env)]
    {
      if DecisionForm(u.text) {
        Act(u.id);
        ClaimAndSend(u.id, net);
      } else if FirstWord(u.text) in env.gated {
        Act(u.id);
        ClaimAndSend(u.id, net);
      } else if HasPrefix(u.text, "/") && !env.known(FirstWord(u.text)) {
        ClaimAndSend(u.id, net);
      } else if HasPrefix(u.text, "/") {
        ClaimAndRoute(u.id, net);
      } else {
        ClaimAndEdit(u.id, net);
      }
    }

    /** One inbox row. The wired log and watch commands run on into the last attempt. */
    method Process(u: Update, nets: seq<Net>)
      requires |nets| >= 2
      modifies this`sent, this`effects, this`runs, inbox`rows
      ensures var plan := Attempts(u, env);
              State() == if plan == [] then old(State()).(rows := Marked(old(inbox.rows), u.id, Skipped))
                         else PlanEffect(old(State()), u.id, plan, nets)
      ensures effects == old(effects)[u.id := old(effects)[u.id] + Effects(u, env)]
    {
      hide PrefixCommand, ExactCommand, LogCommand, WatchCommand, ActsFirst, LastAttempt, LastEffects, AttemptEffect, Trim;
      ghost var s0 := State();
      if Attempts(u, env) != [] {
        PlanUnfolds(s0, u.id, Attempts(u, env), nets);
      }
      hide PlanEffect;
      if u.chat == 0 || u.chat !in env.allow {
        inbox.MarkStatus(u.id, Skipped);
        return;
      }
      if Trim(u.text) == "" && u.callback == "" {
        inbox.MarkStatus(u.id, Skipped);
        return;
      }
      if u.callback != "" {
        Act(u.id);
        ClaimAndSend(u.id, nets[0]);
        return;
      }
      if PrefixCommand(u.text) || ExactCommand(u.text) {
        if ActsFirst(u.text) {
          Act(u.id);
        }
        ClaimAndSend(u.id, nets[0]);
        return;
      }
      if LogCommand(u.text) {
        ClaimAndSend(u.id, nets[0]);
        if env.logWired {
          Last(u, nets[1]);
        }
        return;
      }
      if WatchCommand(u.text) {
        if env.watchWired {
          Act(u.id);
        }
        ClaimAndSend(u.id, nets[0]);
        if env.watchWired {
          Last(u, nets[1]);
        }
        return;
      }
      Last(u, nets[0]);
    }
  }

  /** A plan has at most two attempts. */
  lemma PlanUnfolds(e: Effect, id: int, plan: seq<D.Attempt>, nets: seq<Net>)
    requires 0 < |plan| <= 2 <= |nets|
    ensures PlanEffect(e, id, plan, nets) ==
            var e1 := AttemptEffect(e, id, plan[0], nets[0]);
            if |plan| == 1 then e1 else AttemptEffect(e1, id, plan[1], nets[1])
  {
    var e1, rest := AttemptEffect(e, id, plan[0], nets[0]), plan[1..];
    assert PlanEffect(e, id, plan, nets) == PlanEffect(e1, id, rest, nets[1..]);
    if |plan| == 1 {
      assert rest == [];
    } else {
      assert rest[1..] == [] && rest[0] == plan[1] && nets[1..][0] == nets[1];
      hide AttemptEffect;
      assert PlanEffect(e1, id, rest, nets[1..]) == PlanEffect(AttemptEffect(e1, id, plan[1], nets[1]), id, [], nets[1..][1..]);
    }
  }

  /** The actions of one attempt; those that do not apply where the worker stands change nothing. */
  function SoloActs(net: Net): seq<D.Act> {
    [D.Claim(net.reached, net.answered), D.Send(net.first), D.Release, D.Edit(net.edit), D.Resend(net.resend)]
  }

  ghost function Acted(s: D.State, cfg: D.Config, w: nat, act: D.Act): (s': D.State)
    requires w < |s.workers|
    ensures |s'.workers| == |s.workers|
  {
    D.WorkerStep(s, cfg, w, act)
  }

  ghost function RunActs(s: D.State, cfg: D.Config, w: nat, acts: seq<D.Act>): D.State
    requires w < |s.workers|
    decreases |acts|
  {
    if acts == [] then s else RunActs(Acted(s, cfg, w, acts[0]), cfg, w, acts[1..])
  }

  lemma {:induction false} RunActsIsRun(s: D.State, cfg: D.Config, w: nat, acts: seq<D.Act>)
    requires w < |s.workers|
    ensures exists steps :: D.Run(s, cfg, steps) == RunActs(s, cfg, w, acts)
    decreases |acts|
  {
    if acts == [] {
      assert D.Run(s, cfg, []) == s;
    } else {
      var st := D.Work(w, acts[0]);
      RunActsIsRun(D.Next(s, cfg, st), cfg, w, acts[1..]);
      var rest :| D.Run(D.Next(s, cfg, st), cfg, rest) == RunActs(D.Next(s, cfg, st), cfg, w, acts[1..]);
      assert ([st] + rest)[1..] == rest;
      assert D.Run(s, cfg, [st] + rest) == RunActs(s, cfg, w, acts);
    }
  }

  lemma ActsUnfold(s: D.State, cfg: D.Config, w: nat, act: D.Act, rest: seq<D.Act>)
    requires w < |s.workers|
    ensures var s' := Acted(s, cfg, w, act);
            |s'.workers| == |s.workers| && RunActs(s, cfg, w, [act] + rest) == RunActs(s', cfg, w, rest)
  {
    hide D.WorkerStep;
    assert ([act] + rest)[1..] == rest;
  }

  lemma FiveActs(s: D.State, cfg: D.Config, w: nat, net: Net)
    requires w < |s.workers|
    ensures RunActs(s, cfg, w, SoloActs(net)) ==
            Acted(Acted(Acted(Acted(Acted(s, cfg, w, D.Claim(net.reached, net.answered)),
              cfg, w, D.Send(net.first)), cfg, w, D.Release), cfg, w, D.Edit(net.edit)), cfg, w, D.Resend(net.resend))
  {
    var claim, send, edit, resend := D.Claim(net.reached, net.answered), D.Send(net.first), D.Edit(net.edit), D.Resend(net.resend);
    assert SoloActs(net) == [claim] + ([send] + ([D.Release] + ([edit] + ([resend] + []))));
    hide Acted, SoloActs;
    ActsUnfold(s, cfg, w, claim, [send] + ([D.Release] + ([edit] + ([resend] + []))));
    var s1 := Acted(s, cfg, w, claim);
    ActsUnfold(s1, cfg, w, send, [D.Release] + ([edit] + ([resend] + [])));
    var s2 := Acted(s1, cfg, w, send);
    ActsUnfold(s2, cfg, w, D.Release, [edit] + ([resend] + []));
    var s3 := Acted(s2, cfg, w, D.Release);
    ActsUnfold(s3, cfg, w, edit, [resend] + []);
    ActsUnfold(Acted(s3, cfg, w, edit), cfg, w, resend, []);
  }

  lemma RestStutters(s: D.State, cfg: D.Config, w: nat, act: D.Act)
    requires w < |s.workers| && (s.workers[w].pc.Idle? || s.workers[w].pc.Try?)
    requires act.Send? || act.Release? || act.Edit? || act.Resend?
    ensures Acted(s, cfg, w, act) == s
  {
  }

  /** The four actions after a won claim. */
  lemma AfterClaim(s: D.State, cfg: D.Config, w: nat, net: Net)
    requires w < |s.workers| && s.workers[w].pc.Claimed?
    ensures var Claimed(id, kind, rest) := s.workers[w].pc;
            var s' := Acted(Acted(Acted(Acted(s, cfg, w, D.Send(net.first)),
                        cfg, w, D.Release), cfg, w, D.Edit(net.edit)), cfg, w, D.Resend(net.resend));
            var r := s.(runs := if D.RunsEngine(kind, net.first) then s.runs + multiset{id} else s.runs);
            var done := D.SetPc(r, w, D.After(id, rest));
            s' == if !net.first then done.(releases := s.releases + multiset{id})
                  else if !kind.FreeForm? || net.edit || net.resend then done.(sent := s.sent + multiset{id})
                  else done
  {
    var Claimed(id, kind, rest) := s.workers[w].pc;
    var r := s.(runs := if D.RunsEngine(kind, net.first) then s.runs + multiset{id} else s.runs);
    D.SendAct(s, cfg, w, net.first);
    var s2 := Acted(s, cfg, w, D.Send(net.first));
    hide D.WorkerStep;
    if !net.first {
      D.ReleaseAct(s2, cfg, w);
      D.SetPcTwice(r, w, D.SendFailed(id, rest), D.After(id, rest));
      var s3 := Acted(s2, cfg, w, D.Release);
      RestStutters(s3, cfg, w, D.Edit(net.edit));
      RestStutters(s3, cfg, w, D.Resend(net.resend));
    } else if !kind.FreeForm? {
      RestStutters(s2, cfg, w, D.Release);
      RestStutters(s2, cfg, w, D.Edit(net.edit));
      RestStutters(s2, cfg, w, D.Resend(net.resend));
    } else {
      D.EditAct(s2, cfg, w, net.edit);
      var s4 := Acted(s2, cfg, w, D.Edit(net.edit));
      if net.edit {
        D.SetPcTwice(r, w, D.Placed(id, rest), D.After(id, rest));
        RestStutters(s4, cfg, w, D.Resend(net.resend));
      } else {
        D.ResendAct(s4, cfg, w, net.resend);
        D.SetPcTwice(r, w, D.Placed(id, rest), D.EditFailed(id, rest));
        D.SetPcTwice(r, w, D.EditFailed(id, rest), D.After(id, rest));
      }
    }
  }

  /** A worker that runs one attempt without interference does to the table what the dispatcher's code does. */
  lemma SoloAttempt(s: D.State, cfg: D.Config, w: nat, net: Net)
    requires w < |s.workers| && s.workers[w].pc.Try? && s.workers[w].pc.plan != []
    ensures var Try(id, plan) := s.workers[w].pc;
            var s' := RunActs(s, cfg, w, SoloActs(net));
            var e := AttemptEffect(Effect(s.rows, s.sent, s.runs), id, plan[0], net);
            && s'.workers == s.workers[w := s.workers[w].(pc := D.After(id, plan[1..]))]
            && s'.sent == e.sent && s'.runs == e.runs && s'.effects == s.effects
            && (if net.reached && net.answered && Claimable(s.rows, id) && !net.first
                then s'.releases == s.releases + multiset{id}
                     && e.rows == if net.released then Reopened(s'.rows, id) else s'.rows
                else s'.releases == s.releases && s'.rows == e.rows)
  {
    var Try(id, plan) := s.workers[w].pc;
    FiveActs(s, cfg, w, net);
    D.ClaimAct(s, cfg, w, net.reached, net.answered);
    var s1 := Acted(s, cfg, w, D.Claim(net.reached, net.answered));
    hide D.WorkerStep;
    if net.reached && net.answered && Claimable(s.rows, id) {
      AfterClaim(s1, cfg, w, net);
    } else {
      RestStutters(s1, cfg, w, D.Send(net.first));
      RestStutters(s1, cfg, w, D.Release);
      RestStutters(s1, cfg, w, D.Edit(net.edit));
      RestStutters(s1, cfg, w, D.Resend(net.resend));
    }
  }

  /** Command-shaped text never gets a placeholder, and only the wired log and watch commands try twice. */
  lemma AttemptShape(u: Update, e: Env)
    ensures var plan := Attempts(u, e);
            && (HasPrefix(u.text, "/") ==> D.FreeForm !in plan)
            && |plan| <= 2
            && (|plan| == 2 <==> u.chat != 0 && u.chat in e.allow && u.callback == ""
                                 && ((LogCommand(u.text) && e.logWired) || (WatchCommand(u.text) && e.watchWired)))
            && (plan == [] <==> u.chat == 0 || u.chat !in e.allow || (Trim(u.text) == "" && u.callback == ""))
  {
    hide LastAttempt, PrefixCommand, ExactCommand, Trim;
    SlashIsReply(u.text, e);
    CommandsApart(u.text);
  }

  lemma SlashIsReply(text: string, e: Env)
    ensures HasPrefix(text, "/") ==> !LastAttempt(text, e).FreeForm?
  {
  }

  lemma CommandsApart(text: string)
    ensures LogCommand(text) || WatchCommand(text) ==>
              HasPrefix(text, "/") && !PrefixCommand(text) && !ExactCommand(text) && Trim(text) != ""
    ensures !(LogCommand(text) && WatchCommand(text))
  {
    hide Trim, PrefixCommand;
    PrefixHasBlank(text);
    TrimIsTrimmed(text);
    assert LogCommand(text) || WatchCommand(text) ==> Trimmed(text) && ' ' !in text;
  }

  lemma PrefixHasBlank(text: string)
    ensures PrefixCommand(text) ==> ' ' in text
  {
    if HasPrefix(text, "/stats ") {
      assert text[..7][6] == ' ';
    } else if HasPrefix(text, "/every ") {
      assert text[..7][6] == ' ';
    } else if HasPrefix(text, "/cancel_job ") {
      assert text[..12][11] == ' ';
    }
  }
}
