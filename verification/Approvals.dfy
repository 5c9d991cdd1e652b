/**
 Human approval: the ledger of requests, the gate that waits for a verdict before it runs an
 action, and the two together under any interleaving of gates, approvers and the expiry sweeper.
 Timestamps are points on one ordered clock.
 */
module Approvals {
  import opened Common
  import InboxTable

  datatype State = Pending | Approved | Denied | Expired

  datatype Row = Row(kind: string, payload: string, reason: string, created: int, state: State, decidedBy: string)

  type Rows = map<int, Row>

  // ------------------------------------------------------------------ the ledger

  datatype Reply = Decided(won: bool) | BadVerdict

  function VerdictOf(word: string): State {
    if word == "approved" then Approved else if word == "denied" then Denied else Pending
  }

  /** The compare-and-set of a decision: it only moves a pending row, and only to a verdict. */
  function Decide(rows: Rows, id: int, word: string, by_: string): (Rows, Reply) {
    if VerdictOf(word) == Pending then (rows, BadVerdict)
    else if id in rows && rows[id].state == Pending then
      (rows[id := rows[id].(state := VerdictOf(word), decidedBy := by_)], Decided(true))
    else (rows, Decided(false))
  }

  predicate Stale(rows: Rows, id: int, cutoff: int) {
    id in rows && rows[id].state == Pending && rows[id].created < cutoff
  }

  /** The sweeper expires every pending row older than the cutoff. */
  function Swept(rows: Rows, cutoff: int): Rows {
    map id | id in rows :: if Stale(rows, id, cutoff) then rows[id].(state := Expired) else rows[id]
  }

  function PendingIds(rows: Rows): set<int> {
    set id | id in rows && rows[id].state == Pending
  }

  /** How many rows a listing returns: out of range means fifty. */
  function Limit(n: int): nat {
    if n <= 0 || n > 200 then 50 else n
  }

  class Ledger {
    var rows: Rows
    var next: int

    ghost predicate Valid()
      reads this
    {
      1 <= next && forall id :: id in rows ==> 1 <= id < next
    }

    constructor ()
      ensures Valid() && rows == map[] && next == 1
    {
      rows, next := map[], 1;
    }

    method Create(kind: string, payload: string, reason: string, now: int) returns (id: int)
      requires Valid()
      modifies this
      ensures Valid() && id == old(next) && id !in old(rows) && next == id + 1
      ensures rows == old(rows)[id := Row(kind, payload, reason, now, Pending, "")]
    {
      id := next;
      rows := rows[id := Row(kind, payload, reason, now, Pending, "")];
      next := next + 1;
    }

    method DecideApproval(id: int, word: string, by_: string) returns (reply: Reply)
      requires Valid()
      modifies this`rows
      ensures Valid() && (rows, reply) == Decide(old(rows), id, word, by_)
      ensures reply == BadVerdict <==> word != "approved" && word != "denied"
      ensures reply == Decided(true) <==>
              (word == "approved" || word == "denied") && id in old(rows) && old(rows)[id].state == Pending
      ensures rows == if reply != Decided(true) then old(rows)
                      else old(rows)[id := old(rows)[id].(state := if word == "approved" then Approved else Denied,
                                                          decidedBy := by_)]
    {
      if word != "approved" && word != "denied" {
        return BadVerdict;
      }
      if id in rows && rows[id].state == Pending {
        var state := if word == "approved" then Approved else Denied;
        rows := rows[id := rows[id].(state := state, decidedBy := by_)];
        return Decided(true);
      }
      reply := Decided(false);
    }

    /** One row at a time; the count is what the statement reports. */
    method ExpireApprovals(cutoff: int) returns (n: nat)
      requires Valid()
      modifies this`rows
      ensures Valid() && rows == Swept(old(rows), cutoff)
      ensures n == |set id | id in old(rows) && Stale(old(rows), id, cutoff)|
      ensures rows.Keys == old(rows).Keys
      ensures forall id :: id in rows ==>
                var r := old(rows)[id];
                rows[id] == if r.state == Pending && r.created < cutoff then r.(state := Expired) else r
    {
      ghost var was := rows;
      var left := set id | id in rows && Stale(rows, id, cutoff);
      n := 0;
      while left != {}
        invariant Valid() && rows.Keys == was.Keys
        invariant forall id :: id in left ==> Stale(was, id, cutoff)
        invariant forall id :: id in was ==>
          rows[id] == if Stale(was, id, cutoff) && id !in left then was[id].(state := Expired) else was[id]
        invariant n + |left| == |set id | id in was && Stale(was, id, cutoff)|
        decreases |left|
      {
        assert (forall x :: x !in left) ==> left == {};
        var id :| id in left;
        rows := rows[id := rows[id].(state := Expired)];
        left := left - {id};
        n := n + 1;
      }
      assert rows == Swept(was, cutoff);
    }

    method PendingApprovals(n: int) returns (ids: seq<int>)
      ensures ids == InboxTable.Oldest(PendingIds(rows), Limit(n))
      ensures ids == InboxTable.Oldest(set id | id in rows && rows[id].state == Pending, if n <= 0 || n > 200 then 50 else n)
    {
      assert PendingIds(rows) == set id | id in rows && rows[id].state == Pending;
      ids := InboxTable.TakeOldest(PendingIds(rows), Limit(n));
    }
  }

  // ------------------------------------------------------------------ the gate

  datatype Outcome = Ran | WasDenied | WasExpired | TimedOut | ShutDown | ReadFailed | Vanished

  datatype Read = Failed | Missing | Found(state: State)

  /** What one turn of the waiting loop sees, in the order it looks. */
  datatype Sight = Sight(cancelled: bool, pastDeadline: bool, read: Read)

  /** The outcome a sight decides, if any. */
  function Judge(v: Sight): Option<Outcome> {
    if v.cancelled then Some(ShutDown)
    else if v.pastDeadline then Some(TimedOut)
    else match v.read
      case Failed => Some(ReadFailed)
      case Missing => Some(Vanished)
      case Found(Approved) => Some(Ran)
      case Found(Denied) => Some(WasDenied)
      case Found(Expired) => Some(WasExpired)
      case Found(Pending) => None
  }

  /** What each outcome says of the look that decided it. */
  lemma JudgeMeans(v: Sight)
    ensures Judge(v) == Some(ShutDown) <==> v.cancelled
    ensures Judge(v) == Some(TimedOut) <==> !v.cancelled && v.pastDeadline
    ensures Judge(v) == Some(ReadFailed) <==> !v.cancelled && !v.pastDeadline && v.read.Failed?
    ensures Judge(v) == Some(Vanished) <==> !v.cancelled && !v.pastDeadline && v.read.Missing?
    ensures Judge(v) == Some(Ran) <==> !v.cancelled && !v.pastDeadline && v.read == Found(Approved)
    ensures Judge(v) == Some(WasDenied) <==> !v.cancelled && !v.pastDeadline && v.read == Found(Denied)
    ensures Judge(v) == Some(WasExpired) <==> !v.cancelled && !v.pastDeadline && v.read == Found(Expired)
    ensures Judge(v) == None <==> !v.cancelled && !v.pastDeadline && v.read == Found(Pending)
  {
  }

  /** The action behind a gate: a closure over its own data, which the ledger does not see. */
  class Action {
    const captured: string
    var ran: seq<string>

    constructor (captured: string)
      ensures this.captured == captured && ran == []
    {
      this.captured := captured;
      ran := [];
    }

    method Execute()
      modifies this`ran
      ensures ran == old(ran) + [captured]
    {
      ran := ran + [captured];
    }
  }

  /**
   The waiting loop over the sights it gets. The first decisive one settles it; the action runs
   once, on what it has captured, exactly when that one is an approval seen in time.
   */
  method RunGated(sights: seq<Sight>, action: Action) returns (outcome: Option<Outcome>, turns: nat)
    modifies action`ran
    ensures outcome.None? ==> turns == |sights| && forall i :: 0 <= i < |sights| ==> Judge(sights[i]) == None
    ensures outcome.Some? ==> 0 < turns <= |sights| && Judge(sights[turns - 1]) == outcome
    ensures outcome.Some? ==> forall i :: 0 <= i < turns - 1 ==> Judge(sights[i]) == None
    ensures action.ran == old(action.ran) + if outcome == Some(Ran) then [action.captured] else []
  {
    turns := 0;
    while turns < |sights|
      invariant turns <= |sights|
      invariant forall i :: 0 <= i < turns ==> Judge(sights[i]) == None
      invariant action.ran == old(action.ran)
    {
      var v := sights[turns];
      turns := turns + 1;
      if v.cancelled {
        return Some(ShutDown), turns;
      }
      if v.pastDeadline {
        return Some(TimedOut), turns;
      }
      match v.read {
        case Failed => return Some(ReadFailed), turns;
        case Missing => return Some(Vanished), turns;
        case Found(state) =>
          match state {
            case Approved =>
              action.Execute();
              return Some(Ran), turns;
            case Denied => return Some(WasDenied), turns;
            case Expired => return Some(WasExpired), turns;
            case Pending =>
          }
      }
    }
    outcome := None;
  }

  // ------------------------------------------------------------------ gates, approvers and sweeper together

  /** A gate is known by the row it waits for. */
  datatype Gate = Waiting | Finished(outcome: Outcome) | Lost

  /**
   `captured` is the data of each gate's action; `wins` logs the decisions that returned true,
   `ran` the actions run and the data they ran on.
   */
  datatype System = System(rows: Rows, next: int, gates: map<int, Gate>, captured: map<int, string>,
                           wins: seq<(int, State)>, ran: seq<(int, string)>)

  datatype Step =
    | Open(kind: string, payload: string, reason: string, now: int, data: string)
    | Verdict(id: int, word: string, by_: string)
    | Sweep(cutoff: int)
    | Poll(id: int, cancelled: bool, pastDeadline: bool, readFails: bool)
    | Lose(id: int)

  const Initial := System(map[], 1, map[], map[], [], [])

  function SightOf(s: System, p: Step): Sight
    requires p.Poll?
  {
    Sight(p.cancelled, p.pastDeadline,
          if p.readFails then Failed else if p.id !in s.rows then Missing else Found(s.rows[p.id].state))
  }

  function Next(s: System, p: Step): System {
    match p
    case Open(kind, payload, reason, now, data) =>
      s.(rows := s.rows[s.next := Row(kind, payload, reason, now, Pending, "")], next := s.next + 1,
         gates := s.gates[s.next := Waiting], captured := s.captured[s.next := data])
    case Verdict(id, word, by_) =>
      var (rows, reply) := Decide(s.rows, id, word, by_);
      s.(rows := rows, wins := s.wins + if reply == Decided(true) then [(id, VerdictOf(word))] else [])
    case Sweep(cutoff) => s.(rows := Swept(s.rows, cutoff))
    case Poll(id, _, _, _) =>
      if id !in s.gates || id !in s.captured || !s.gates[id].Waiting? || Judge(SightOf(s, p)) == None then s
      else
        var outcome := Judge(SightOf(s, p)).value;
        s.(gates := s.gates[id := Finished(outcome)],
           ran := s.ran + if outcome == Ran then [(id, s.captured[id])] else [])
    case Lose(id) => if id in s.gates && s.gates[id].Waiting? then s.(gates := s.gates[id := Lost]) else s
  }

  function Run(s: System, steps: seq<Step>): System
    decreases |steps|
  {
    if steps == [] then s else Run(Next(s, steps[0]), steps[1..])
  }

  predicate OncePerId<T>(log: seq<(int, T)>) {
    forall i, j :: 0 <= i < j < |log| ==> log[i].0 != log[j].0
  }

  predicate Settled(state: State) { state == Approved || state == Denied }

  /** A row is approved or denied exactly if one decision won, with that verdict. */
  predicate WinsMatchRows(s: System) {
    && OncePerId(s.wins)
    && (forall w :: w in s.wins ==> w.0 in s.rows && Settled(w.1) && s.rows[w.0].state == w.1)
    && (forall id :: id in s.rows && Settled(s.rows[id].state) ==> (id, s.rows[id].state) in s.wins)
  }

  /** An action ran exactly if its gate finished so, and then on its own data, with the row approved. */
  predicate RunsMatchGates(s: System) {
    && OncePerId(s.ran)
    && (forall r :: r in s.ran ==>
          r.0 in s.rows && s.rows[r.0].state == Approved
          && r.0 in s.gates && s.gates[r.0] == Finished(Ran) && r.0 in s.captured && r.1 == s.captured[r.0])
    && (forall id :: id in s.gates && s.gates[id] == Finished(Ran) ==>
          id in s.captured && (id, s.captured[id]) in s.ran)
  }

  predicate GatesMatchRows(s: System) {
    && (forall id :: id in s.rows ==> id < s.next)
    && s.gates.Keys == s.rows.Keys && s.captured.Keys == s.rows.Keys
    && (forall id :: id in s.gates ==>
          && (s.gates[id] == Finished(WasDenied) ==> s.rows[id].state == Denied)
          && (s.gates[id] == Finished(WasExpired) ==> s.rows[id].state == Expired)
          && s.gates[id] != Finished(Vanished))
  }

  predicate Safe(s: System) {
    WinsMatchRows(s) && RunsMatchGates(s) && GatesMatchRows(s)
  }

  /** Nothing about a row ever changes but its state and approver, and those only once. */
  lemma RowStep(s: System, p: Step, id: int)
    requires Safe(s) && id in s.rows
    ensures id in Next(s, p).rows
    ensures var r, r' := s.rows[id], Next(s, p).rows[id];
            && r'.(state := r.state, decidedBy := r.decidedBy) == r
            && (r.state != Pending ==> r' == r)
  {
  }

  lemma {:induction false} VerdictIsFinal(s: System, steps: seq<Step>, id: int)
    requires Safe(s) && id in s.rows
    ensures id in Run(s, steps).rows
    ensures var r, r' := s.rows[id], Run(s, steps).rows[id];
            && r'.(state := r.state, decidedBy := r.decidedBy) == r
            && (r.state != Pending ==> r' == r)
    decreases |steps|
  {
    if steps != [] {
      RowStep(s, steps[0], id);
      SafeStep(s, steps[0]);
      VerdictIsFinal(Next(s, steps[0]), steps[1..], id);
    }
  }

  /** Rows that have left pending stay, and none becomes settled. */
  predicate Unsettling(rows: Rows, rows': Rows) {
    && (forall id :: id in rows ==> id in rows' && (rows[id].state != Pending ==> rows'[id] == rows[id]))
    && (forall id :: id in rows' && Settled(rows'[id].state) ==> id in rows && rows[id].state == rows'[id].state)
  }

  lemma NoVerdict(s: System, p: Step)
    requires GatesMatchRows(s) && !p.Verdict?
    ensures Unsettling(s.rows, Next(s, p).rows) && Next(s, p).wins == s.wins
  {
    hide Judge, SightOf;
  }

  lemma WinsFrame(s: System, s': System)
    requires WinsMatchRows(s) && s'.wins == s.wins && Unsettling(s.rows, s'.rows)
    ensures WinsMatchRows(s')
  {
  }

  lemma WinsStep(s: System, p: Step)
    requires Safe(s)
    ensures WinsMatchRows(Next(s, p))
  {
    hide WinsMatchRows, RunsMatchGates, GatesMatchRows, Unsettling, Next;
    if p.Verdict? {
      WinsVerdict(s, p);
    } else {
      NoVerdict(s, p);
      WinsFrame(s, Next(s, p));
    }
  }

  lemma WinsVerdict(s: System, p: Step)
    requires WinsMatchRows(s) && p.Verdict?
    ensures WinsMatchRows(Next(s, p))
  {
    hide Judge, SightOf;
    if Next(s, p).wins != s.wins {
      assert Next(s, p).wins == s.wins + [(p.id, VerdictOf(p.word))];
    }
  }

  /** What a step that runs nothing keeps. */
  predicate RunsNothing(s: System, s': System) {
    && s'.ran == s.ran
    && (forall id :: id in s.rows ==> id in s'.rows && (s.rows[id].state != Pending ==> s'.rows[id] == s.rows[id]))
    && (forall id :: id in s.captured ==> id in s'.captured && s'.captured[id] == s.captured[id])
    && (forall id :: id in s.gates ==> id in s'.gates)
    && (forall id :: id in s'.gates ==> (s'.gates[id] == Finished(Ran) <==> id in s.gates && s.gates[id] == Finished(Ran)))
  }

  lemma OtherStep(s: System, p: Step)
    requires GatesMatchRows(s) && !p.Poll?
    ensures RunsNothing(s, Next(s, p))
  {
    hide Judge, SightOf;
  }

  lemma RunsFrame(s: System, s': System)
    requires RunsMatchGates(s) && RunsNothing(s, s')
    ensures RunsMatchGates(s')
  {
  }

  lemma RunsStep(s: System, p: Step)
    requires Safe(s)
    ensures RunsMatchGates(Next(s, p))
  {
    hide WinsMatchRows, RunsMatchGates, GatesMatchRows, RunsNothing, Next;
    if p.Poll? {
      RunsPoll(s, p);
    } else {
      OtherStep(s, p);
      RunsFrame(s, Next(s, p));
    }
  }

  lemma RunsPoll(s: System, p: Step)
    requires RunsMatchGates(s) && GatesMatchRows(s) && p.Poll?
    ensures RunsMatchGates(Next(s, p))
  {
    if Next(s, p).ran != s.ran {
      assert Next(s, p).ran == s.ran + [(p.id, s.captured[p.id])];
    }
  }

  lemma GatesOpen(s: System, p: Step)
    requires GatesMatchRows(s) && (p.Open? || p.Lose?)
    ensures GatesMatchRows(Next(s, p))
  {
  }

  lemma GatesRows(s: System, p: Step)
    requires GatesMatchRows(s) && (p.Verdict? || p.Sweep?)
    ensures GatesMatchRows(Next(s, p))
  {
    assert Next(s, p).rows.Keys == s.rows.Keys;
  }

  lemma GatesPoll(s: System, p: Step)
    requires GatesMatchRows(s) && p.Poll?
    ensures GatesMatchRows(Next(s, p))
  {
  }

  lemma GatesStep(s: System, p: Step)
    requires Safe(s)
    ensures GatesMatchRows(Next(s, p))
  {
    hide WinsMatchRows, RunsMatchGates, GatesMatchRows, Next;
    match p
    case Open(_, _, _, _, _) => GatesOpen(s, p);
    case Lose(_) => GatesOpen(s, p);
    case Verdict(_, _, _) => GatesRows(s, p);
    case Sweep(_) => GatesRows(s, p);
    case Poll(_, _, _, _) => GatesPoll(s, p);
  }

  lemma SafeStep(s: System, p: Step)
    requires Safe(s)
    ensures Safe(Next(s, p))
  {
    hide WinsMatchRows, RunsMatchGates, GatesMatchRows, Next;
    WinsStep(s, p);
    RunsStep(s, p);
    GatesStep(s, p);
  }

  lemma {:induction false} SafeRun(s: System, steps: seq<Step>)
    requires Safe(s)
    ensures Safe(Run(s, steps))
    decreases |steps|
  {
    if steps != [] {
      SafeStep(s, steps[0]);
      SafeRun(Next(s, steps[0]), steps[1..]);
    }
  }

  /**
   Under any interleaving: each request is decided by at most one call; its action runs at most
   once, on its gate's own data, and only if the one winning decision was an approval; a gate
   that finished in any other way did not run it.
   */
  lemma ApprovalSafety(steps: seq<Step>)
    ensures var s := Run(Initial, steps);
            && OncePerId(s.wins) && OncePerId(s.ran)
            && (forall r :: r in s.ran ==>
                  r.0 in s.captured && (r.0, Approved) in s.wins && (r.0, Denied) !in s.wins && r.1 == s.captured[r.0])
            && (forall id :: id in s.gates && s.gates[id].Finished? ==>
                  (s.gates[id].outcome == Ran <==> HasRun(s, id)))
  {
    SafeRun(Initial, steps);
    var s := Run(Initial, steps);
    hide Run, HasRun;
    forall id | id in s.gates ensures HasRun(s, id) <==> s.gates[id] == Finished(Ran) {
      RanIff(s, id);
    }
    forall r | r in s.ran
      ensures r.0 in s.captured && (r.0, Approved) in s.wins && (r.0, Denied) !in s.wins && r.1 == s.captured[r.0]
    {
      RanApproved(s, r);
    }
  }

  lemma RanApproved(s: System, r: (int, string))
    requires Safe(s) && r in s.ran
    ensures r.0 in s.captured && (r.0, Approved) in s.wins && (r.0, Denied) !in s.wins && r.1 == s.captured[r.0]
  {
    var id := r.0;
    assert id in s.rows && Settled(s.rows[id].state);
    var w := (id, s.rows[id].state);
    assert w in s.wins;
  }

  lemma RanIff(s: System, id: int)
    requires Safe(s) && id in s.gates
    ensures HasRun(s, id) <==> s.gates[id] == Finished(Ran)
  {
    if s.gates[id] == Finished(Ran) {
      assert (id, s.captured[id]) in s.ran;
    }
  }

  predicate HasRun(s: System, id: int) {
    exists r :: r in s.ran && r.0 == id
  }

  /** A gate that has ended stays as it is; an action's data never change. */
  lemma {:induction false} EndedStays(s: System, steps: seq<Step>, id: int)
    requires Safe(s) && id in s.gates
    ensures var s' := Run(s, steps);
            && id in s'.gates && id in s'.captured && s'.captured[id] == s.captured[id]
            && (!s.gates[id].Waiting? ==> s'.gates[id] == s.gates[id])
    decreases |steps|
  {
    if steps != [] {
      SafeStep(s, steps[0]);
      EndedStays(Next(s, steps[0]), steps[1..], id);
    }
  }

  /** Approving a pending row, if need be, and letting its waiting gate look. */
  function Approve(s: System, id: int): seq<Step>
    requires id in s.rows
  {
    (if s.rows[id].state == Pending then [Verdict(id, "approved", "cli")] else []) + [Poll(id, false, false, false)]
  }

  lemma ApproveRuns(s: System, id: int)
    requires Safe(s) && id in s.rows && s.gates[id].Waiting?
    requires s.rows[id].state == Pending || s.rows[id].state == Approved
    ensures (id, s.captured[id]) in Run(s, Approve(s, id)).ran
  {
    var poll := Poll(id, false, false, false);
    if s.rows[id].state == Pending {
      var verdict := Verdict(id, "approved", "cli");
      var s1 := Next(s, verdict);
      assert Approve(s, id)[1..] == [poll] && [poll][1..] == [];
      assert Run(s, Approve(s, id)) == Next(s1, poll) by {
        assert Run(Next(s1, poll), []) == Next(s1, poll) && Run(s1, [poll]) == Next(s1, poll);
      }
    } else {
      assert Approve(s, id) == [poll] && [poll][1..] == [];
      assert Run(s, [poll]) == Run(Next(s, poll), []);
    }
  }

  /** Some continuation runs the action behind `id`. */
  ghost predicate CanRun(s: System, id: int) {
    exists more :: HasRun(Run(s, more), id)
  }

  lemma CanRunBy(s: System, more: seq<Step>, id: int)
    requires HasRun(Run(s, more), id)
    ensures CanRun(s, id)
  {
  }

  /**
   When a request can still be carried out: in any reachable state, some continuation runs it
   exactly if it has run, or its gate still waits and its row is pending or approved. So an
   approval runs nothing exactly when its gate has given up or is gone.
   */
  lemma RunsIff(past: seq<Step>, id: int)
    requires id in Run(Initial, past).rows
    ensures var s := Run(Initial, past);
            && id in s.gates
            && (CanRun(s, id) <==>
                s.gates[id] == Finished(Ran)
                || (s.gates[id].Waiting? && (s.rows[id].state == Pending || s.rows[id].state == Approved)))
  {
    SafeRun(Initial, past);
    var s := Run(Initial, past);
    if s.gates[id] == Finished(Ran) {
      RanIff(s, id);
      CanRunBy(s, [], id);
    } else if s.gates[id].Waiting? && (s.rows[id].state == Pending || s.rows[id].state == Approved) {
      ApproveRuns(s, id);
      CanRunBy(s, Approve(s, id), id);
    } else {
      forall more ensures !HasRun(Run(s, more), id) {
        NeverRuns(s, more, id);
      }
    }
  }

  lemma NeverRuns(s: System, more: seq<Step>, id: int)
    requires Safe(s) && id in s.rows && s.gates[id] != Finished(Ran)
    requires s.gates[id].Waiting? ==> s.rows[id].state != Pending && s.rows[id].state != Approved
    ensures !HasRun(Run(s, more), id)
  {
    SafeRun(s, more);
    EndedStays(s, more, id);
    VerdictIsFinal(s, more, id);
    RanIff(Run(s, more), id);
  }

  /** On every continuation, each run of gate `id` is on what was shown for it. */
  ghost predicate RunsAsShown(s: System, id: int, shown: string) {
    forall more, r :: r in Run(s, more).ran && r.0 == id ==> r.1 == shown
  }

  lemma RunsOwnData(s: System, id: int)
    requires Safe(s) && id in s.rows
    ensures RunsAsShown(s, id, s.captured[id])
  {
    forall more, r | r in Run(s, more).ran && r.0 == id ensures r.1 == s.captured[id] {
      SafeRun(s, more);
      EndedStays(s, more, id);
    }
  }

  lemma OneOtherRun(s: System, id: int, shown: string, more: seq<Step>, r: (int, string))
    requires r in Run(s, more).ran && r.0 == id && r.1 != shown
    ensures !RunsAsShown(s, id, shown)
  {
  }

  /**
   "An approver always sees what will run" holds of a gate exactly if its action's data are the
   payload of its row: every run of that gate, on every continuation, is then on what was shown.
   */
  lemma ShownIsRunIff(past: seq<Step>, p: Step)
    requires p.Open?
    ensures var s := Run(Initial, past);
            RunsAsShown(Next(s, p), s.next, p.payload) <==> p.data == p.payload
  {
    SafeRun(Initial, past);
    var s := Run(Initial, past);
    var id, s1 := s.next, Next(s, p);
    SafeStep(s, p);
    assert s1.captured[id] == p.data;
    RunsOwnData(s1, id);
    if p.data != p.payload {
      ApproveRuns(s1, id);
      hide Run, Approve, Next;
      OneOtherRun(s1, id, p.payload, Approve(s1, id), (id, p.data));
    }
  }

  /** The gate that registers rules: its row shows a count, and it runs on rules the row does not hold. */
  lemma RegisterRunsUnseen(reason: string, rules: string)
    requires rules != "{\"action\":\"register_rules\",\"rules\":1}"
    ensures var shown := "{\"action\":\"register_rules\",\"rules\":1}";
            exists steps :: var s := Run(Initial, steps);
              1 in s.rows && s.rows[1].payload == shown && (1, rules) in s.ran
  {
    var shown := "{\"action\":\"register_rules\",\"rules\":1}";
    var open := Open("register_rules", shown, reason, 0, rules);
    var s1 := Next(Initial, open);
    SafeStep(Initial, open);
    ApproveRuns(s1, 1);
    VerdictIsFinal(s1, Approve(s1, 1), 1);
    var steps := [open] + Approve(s1, 1);
    assert steps[1..] == Approve(s1, 1);
    assert Run(Initial, steps) == Run(s1, Approve(s1, 1));
  }

  /** An approval that comes after the gate gave up is granted, and nothing ever runs. */
  lemma LateApproval(payload: string, data: string, steps: seq<Step>)
    ensures var opening := [Open("system_command", payload, "", 0, data), Poll(1, false, true, false), Verdict(1, "approved", "cli")];
            var s := Run(Run(Initial, opening), steps);
            && (1, Approved) in s.wins && 1 in s.rows && s.rows[1].state == Approved && !HasRun(s, 1)
  {
    var opening := [Open("system_command", payload, "", 0, data), Poll(1, false, true, false), Verdict(1, "approved", "cli")];
    var s0 := Next(Initial, opening[0]);
    var s1 := Next(s0, opening[1]);
    var s2 := Next(s1, opening[2]);
    assert opening[1..] == [opening[1], opening[2]] && [opening[1], opening[2]][1..] == [opening[2]];
    assert [opening[2]][1..] == [];
    assert Run(s2, []) == s2 && Run(s1, [opening[2]]) == s2 && Run(s0, opening[1..]) == s2;
    assert s2 == Run(Initial, opening);
    assert s2.gates[1] == Finished(TimedOut);
    SafeRun(Initial, opening);
    SafeRun(s2, steps);
    VerdictIsFinal(s2, steps, 1);
    NeverRuns(s2, steps, 1);
  }

  /** What the gate's loop would see on this run is what the gate of the system acts on. */
  lemma GateMatchesLoop(s: System, p: Step)
    requires Safe(s) && p.Poll? && p.id in s.gates && s.gates[p.id].Waiting?
    ensures var s' := Next(s, p);
            match Judge(SightOf(s, p))
            case None => s' == s && s.rows[p.id].state == Pending
            case Some(o) => s'.gates[p.id] == Finished(o) && (s'.ran != s.ran <==> o == Ran)
                            && (o == Ran ==> s.rows[p.id].state == Approved)
  {
    var s' := Next(s, p);
    assert |s'.ran| == |s.ran| + (if Judge(SightOf(s, p)) == Some(Ran) then 1 else 0);
  }
}
