/**
 The single-writer batcher: a bounded queue in front of one goroutine that applies up to
 64 operations per transaction. The class is the code; the state machine below it is every
 interleaving of enqueuers, the batcher and Close.
 */
module Batcher {
  import opened Common

  const BATCH_CAP := 64
  const QUEUE_CAP := 4096

  type Db = map<string, string>

  /** A write: its statement either fails or maps the database to a new one. `tag` numbers accepted writes. */
  datatype Op = Op(tag: nat, run: Db -> Option<Db>, wantsAck: bool)

  /**
   The statements of one transaction in order. `fault` is the position at which the environment
   makes it fail: a statement, or, at the end of the list, the commit itself.
   */
  function Exec(db: Db, ops: seq<Op>, fault: nat): Option<Db>
    decreases |ops|
  {
    if fault == 0 then None
    else if ops == [] then Some(db)
    else
      match ops[0].run(db)
      case None => None
      case Some(db') => Exec(db', ops[1..], fault - 1)
  }

  /** The transaction when nothing outside it fails. */
  function Transaction(db: Db, ops: seq<Op>): Option<Db> {
    Exec(db, ops, |ops| + 1)
  }

  lemma {:induction false} ExecIsTransaction(db: Db, ops: seq<Op>, fault: nat)
    ensures Exec(db, ops, fault) == if fault <= |ops| then None else Transaction(db, ops)
    decreases |ops|
  {
    if ops != [] && fault > 0 && ops[0].run(db).Some? {
      ExecIsTransaction(ops[0].run(db).value, ops[1..], fault - 1);
    }
  }

  /** Nothing to run, nothing changes; one statement is that statement. */
  lemma TransactionOne(db: Db, op: Op)
    ensures Transaction(db, []) == Some(db)
    ensures Transaction(db, [op]) == op.run(db)
  {
    assert [op][1..] == [];
    if op.run(db).Some? {
      assert Exec(op.run(db).value, [], 1) == op.run(db);
    }
  }

  /** Statements take effect one on top of the other, and the first failure is everybody's. */
  lemma {:induction false} TransactionConcat(db: Db, a: seq<Op>, b: seq<Op>)
    ensures Transaction(db, a + b) == if Transaction(db, a).Some? then Transaction(Transaction(db, a).value, b) else None
    decreases |a|
  {
    if a == [] {
      assert a + b == b;
    } else {
      assert (a + b)[1..] == a[1..] + b;
      if a[0].run(db).Some? {
        TransactionConcat(a[0].run(db).value, a[1..], b);
      }
    }
  }

  /** How many of the queued operations join one that was already read. */
  function Joining(have: nat, queued: nat): nat
    requires have <= BATCH_CAP
  {
    if queued < BATCH_CAP - have then queued else BATCH_CAP - have
  }

  function Answers(acks: map<nat, bool>, ops: seq<Op>, ok: bool): map<nat, bool>
    decreases |ops|
  {
    if ops == [] then acks
    else Answers(if ops[0].wantsAck then acks[ops[0].tag := ok] else acks, ops[1..], ok)
  }

  /** How many operations one pass takes off a queue of that length. */
  function BatchLen(queued: nat): nat
    requires queued > 0
  {
    1 + Joining(1, queued - 1)
  }

  /** Database and answers after draining a queue; in a drain only failures are answered. */
  function Drain(writes: seq<Op>, db: Db, acks: map<nat, bool>, faults: nat -> nat, pass: nat): (Db, map<nat, bool>)
    decreases |writes|
  {
    if writes == [] then (db, acks)
    else
      var n := BatchLen(|writes|);
      var r := Exec(db, writes[..n], faults(pass));
      Drain(writes[n..], if r.Some? then r.value else db,
            if r.Some? then acks else Answers(acks, writes[..n], false), faults, pass + 1)
  }

  class Store {
    var writes: seq<Op>
    var closed: bool
    var db: Db
    var acks: map<nat, bool>

    constructor (db: Db)
      ensures writes == [] && !closed && this.db == db && acks == map[]
    {
      writes, closed, this.db, acks := [], false, db, map[];
    }

    method Enqueue(op: Op) returns (ok: bool)
      modifies this`writes
      ensures ok <==> !closed && |old(writes)| < 4096
      ensures writes == if ok then old(writes) + [op] else old(writes)
    {
      if closed {
        return false;
      }
      ok := |writes| < QUEUE_CAP;
      if ok {
        writes := writes + [op];
      }
    }

    method Collect(first: Op) returns (batch: seq<Op>)
      modifies this`writes
      ensures var n := Joining(1, |old(writes)|);
              batch == [first] + old(writes)[..n] && writes == old(writes)[n..]
    {
      batch := [first];
      while |batch| < BATCH_CAP
        invariant 1 <= |batch| <= BATCH_CAP && |batch| - 1 <= |old(writes)|
        invariant batch == [first] + old(writes)[..|batch| - 1] && writes == old(writes)[|batch| - 1..]
      {
        if writes == [] {
          return;
        }
        batch := batch + [writes[0]];
        writes := writes[1..];
      }
    }

    /** All or nothing: the database moves only when every statement and the commit succeed. */
    method Apply(batch: seq<Op>, fault: nat) returns (ok: bool)
      modifies this`db
      ensures var r := Exec(old(db), batch, fault);
              ok == r.Some? && db == if ok then r.value else old(db)
      ensures ok ==> fault > |batch|
      ensures batch == [] ==> db == old(db)
      ensures |batch| == 1 && fault > 1 ==>
                var r := batch[0].run(old(db)); ok == r.Some? && db == if r.Some? then r.value else old(db)
    {
      ExecIsTransaction(db, batch, fault);
      if |batch| == 1 {
        TransactionOne(db, batch[0]);
        assert batch == [batch[0]];
      }
      hide Transaction;
      var tx := db;
      for i := 0 to |batch|
        invariant i <= fault && Exec(old(db), batch, fault) == Exec(tx, batch[i..], fault - i)
        invariant db == old(db)
      {
        if fault == i {
          return false;
        }
        var r := batch[i].run(tx);
        if r.None? {
          return false;
        }
        tx := r.value;
      }
      if fault == |batch| {
        return false;
      }
      db := tx;
      ok := true;
    }

    /** One pass of the batcher on a non-empty queue, before shutdown or while draining. */
    method Cycle(draining: bool, fault: nat)
      requires writes != []
      modifies this`writes, this`db, this`acks
      ensures var n := BatchLen(|old(writes)|);
              var batch := old(writes)[..n];
              var r := Exec(old(db), batch, fault);
              && writes == old(writes)[n..]
              && db == (if r.Some? then r.value else old(db))
              && acks == if draining && r.Some? then old(acks) else Answers(old(acks), batch, r.Some?)
    {
      var op := writes[0];
      writes := writes[1..];
      var batch := Collect(op);
      ghost var n := Joining(1, |old(writes)| - 1);
      assert old(writes)[..1 + n] == [op] + old(writes)[1..][..n];
      assert old(writes)[1 + n..] == old(writes)[1..][n..];
      assert batch == old(writes)[..1 + n];
      var ok := Apply(batch, fault);
      if !draining || !ok {
        for i := 0 to |batch|
          modifies this`acks
          invariant Answers(old(acks), batch, ok) == Answers(acks, batch[i..], ok)
        {
          if batch[i].wantsAck {
            acks := acks[batch[i].tag := ok];
          }
        }
        assert batch[|batch|..] == [];
      }
    }

    /** Shutdown: everything still queued is applied. */
    method DrainRemaining(faults: nat -> nat)
      modifies this`writes, this`db, this`acks
      ensures writes == []
      ensures (db, acks) == Drain(old(writes), old(db), old(acks), faults, 0)
    {
      var pass := 0;
      while writes != []
        invariant Drain(writes, db, acks, faults, pass) == Drain(old(writes), old(db), old(acks), faults, 0)
        decreases |writes|
      {
        Cycle(true, faults(pass));
        pass := pass + 1;
      }
    }
  }

  // ------------------------------------------------------------------ every interleaving

  datatype Pc =
    | Waiting
    | Collecting(batch: seq<Op>)
    | Acking(next: nat)       // answering the last decided batch
    | Exited

  /** A decided transaction: what it held, whether it committed, whether the shutdown drain ran it. */
  datatype Batch = Batch(ops: seq<Op>, ok: bool, drained: bool)

  datatype State = State(
    queue: seq<Op>,
    closed: bool,
    draining: bool,
    checked: seq<Op>,      // enqueuers past the closed check, before the send
    pc: Pc,
    db: Db,
    accepted: seq<Op>,
    batches: seq<Batch>,
    acks: map<nat, bool>)

  datatype Step =
    | CheckOpen(op: Op)
    | Push(i: nat)
    | Close
    | Quit
    | TakeFirst
    | CollectOne
    | ApplyBatch(fault: nat)
    | AckNext
    | Exit

  function Init(db: Db): State {
    State([], false, false, [], Waiting, db, [], [], map[])
  }

  function Next(s: State, st: Step): State {
    match st
    case CheckOpen(op) => if s.closed then s else s.(checked := s.checked + [op])
    case Push(i) =>
      if i >= |s.checked| then s
      else
        var rest := s.checked[..i] + s.checked[i + 1..];
        if |s.queue| >= QUEUE_CAP then s.(checked := rest)
        else
          var op := s.checked[i].(tag := |s.accepted|);
          s.(checked := rest, queue := s.queue + [op], accepted := s.accepted + [op])
    case Close => s.(closed := true)
    case Quit => if s.pc.Waiting? && s.closed then s.(draining := true) else s
    case TakeFirst =>
      if s.pc.Waiting? && s.queue != []
      then s.(pc := Collecting([s.queue[0]]), queue := s.queue[1..]) else s
    case CollectOne =>
      if s.pc.Collecting? && |s.pc.batch| < BATCH_CAP && s.queue != []
      then s.(pc := Collecting(s.pc.batch + [s.queue[0]]), queue := s.queue[1..]) else s
    case ApplyBatch(fault) =>
      if s.pc.Collecting? && (|s.pc.batch| >= BATCH_CAP || s.queue == []) then
        var r := Exec(s.db, s.pc.batch, fault);
        s.(db := if r.Some? then r.value else s.db,
           batches := s.batches + [Batch(s.pc.batch, r.Some?, s.draining)],
           pc := if s.draining && r.Some? then Waiting else Acking(0))
      else s
    case AckNext =>
      if s.pc.Acking? && s.batches != [] then
        var b := s.batches[|s.batches| - 1];
        if s.pc.next < |b.ops| then
          var op := b.ops[s.pc.next];
          s.(pc := Acking(s.pc.next + 1), acks := if op.wantsAck then s.acks[op.tag := b.ok] else s.acks)
        else s.(pc := Waiting)
      else s
    case Exit => if s.pc.Waiting? && s.draining && s.queue == [] then s.(pc := Exited) else s
  }

  function Run(s: State, steps: seq<Step>): State
    decreases |steps|
  {
    if steps == [] then s else Run(Next(s, steps[0]), steps[1..])
  }

  /** The operations decided so far, in order. */
  function Decided(bs: seq<Batch>): seq<Op> {
    if bs == [] then [] else Decided(bs[..|bs| - 1]) + bs[|bs| - 1].ops
  }

  function InFlight(pc: Pc): seq<Op> {
    if pc.Collecting? then pc.batch else []
  }

  /** The database obtained by running the committed batches, each as one transaction. */
  function Replay(db: Db, bs: seq<Batch>): Option<Db> {
    if bs == [] then Some(db)
    else
      var last := bs[|bs| - 1];
      match Replay(db, bs[..|bs| - 1])
      case None => None
      case Some(d) => if last.ok then Transaction(d, last.ops) else Some(d)
  }

  /** Position of the first operation of batch `i` among the accepted ones. */
  function Start(bs: seq<Batch>, i: nat): nat
    requires i <= |bs|
  {
    if i == 0 then 0 else Start(bs, i - 1) + |bs[i - 1].ops|
  }

  lemma {:induction false} StartOrder(bs: seq<Batch>, i: nat, k: nat)
    requires i <= k <= |bs|
    ensures Start(bs, i) <= Start(bs, k)
    ensures i < k ==> Start(bs, i) + |bs[i].ops| <= Start(bs, k)
  {
    if i < k {
      StartOrder(bs, i, k - 1);
    }
  }

  lemma {:induction false} StartPrefix(bs: seq<Batch>, more: seq<Batch>, i: nat)
    requires i <= |bs|
    ensures Start(bs + more, i) == Start(bs, i)
  {
    if i > 0 {
      StartPrefix(bs, more, i - 1);
    }
  }

  lemma {:induction false} DecidedLength(bs: seq<Batch>)
    ensures |Decided(bs)| == Start(bs, |bs|)
  {
    if bs != [] {
      var front := bs[..|bs| - 1];
      DecidedLength(front);
      StartPrefix(front, [bs[|bs| - 1]], |front|);
      assert front + [bs[|bs| - 1]] == bs;
    }
  }

  /** Queue and batches hold the accepted operations in order, and the database is the fold of what committed. */
  ghost predicate FifoInv(db0: Db, s: State) {
    && s.accepted == Decided(s.batches) + InFlight(s.pc) + s.queue
    && (forall i :: 0 <= i < |s.accepted| ==> s.accepted[i].tag == i)
    && (forall i :: 0 <= i < |s.batches| ==> 1 <= |s.batches[i].ops| <= BATCH_CAP)
    && (s.pc.Collecting? ==> 1 <= |s.pc.batch| <= BATCH_CAP)
    && Replay(db0, s.batches) == Some(s.db)
  }

  lemma OneMoreBatch(db0: Db, bs: seq<Batch>, b: Batch)
    ensures Decided(bs + [b]) == Decided(bs) + b.ops
    ensures Replay(db0, bs + [b]) ==
            match Replay(db0, bs) { case None => None case Some(d) => if b.ok then Transaction(d, b.ops) else Some(d) }
  {
    assert (bs + [b])[..|bs|] == bs;
  }

  /** What a decision changes: the batch in flight is appended with its outcome. */
  ghost predicate Decides(s: State, s': State, b: Batch) {
    && s.pc == Collecting(b.ops) && s'.batches == s.batches + [b]
    && s'.queue == s.queue && s'.accepted == s.accepted && s'.acks == s.acks
    && s'.pc == (if b.drained && b.ok then Waiting else Acking(0))
  }

  lemma ApplyDecides(s: State, fault: nat) returns (b: Batch)
    requires s.pc.Collecting? && (|s.pc.batch| >= BATCH_CAP || s.queue == [])
    ensures var s' := Next(s, ApplyBatch(fault));
            && Decides(s, s', b)
            && (if b.ok then Some(s'.db) == Transaction(s.db, b.ops) else s'.db == s.db)
  {
    ExecIsTransaction(s.db, s.pc.batch, fault);
    b := Batch(s.pc.batch, Exec(s.db, s.pc.batch, fault).Some?, s.draining);
  }

  lemma FifoInvDecide(db0: Db, s: State, s': State, b: Batch)
    requires FifoInv(db0, s) && Decides(s, s', b)
    requires if b.ok then Some(s'.db) == Transaction(s.db, b.ops) else s'.db == s.db
    ensures FifoInv(db0, s')
  {
    OneMoreBatch(db0, s.batches, b);
    hide Decided, Replay, Transaction;
    assert s'.accepted == Decided(s'.batches) + InFlight(s'.pc) + s'.queue;
  }

  lemma FifoInvApply(db0: Db, s: State, fault: nat)
    requires FifoInv(db0, s)
    ensures FifoInv(db0, Next(s, ApplyBatch(fault)))
  {
    if s.pc.Collecting? && (|s.pc.batch| >= BATCH_CAP || s.queue == []) {
      var b := ApplyDecides(s, fault);
      FifoInvDecide(db0, s, Next(s, ApplyBatch(fault)), b);
    }
  }

  lemma FifoInvQueue(db0: Db, s: State, st: Step)
    requires FifoInv(db0, s) && (st.TakeFirst? || st.CollectOne?)
    ensures FifoInv(db0, Next(s, st))
  {
    hide Decided, Replay;
    var s' := Next(s, st);
    Regroup(Decided(s.batches), InFlight(s.pc), s.queue);
    Regroup(Decided(s.batches), InFlight(s'.pc), s'.queue);
    assert InFlight(s'.pc) + s'.queue == InFlight(s.pc) + s.queue by {
      if s' != s {
        assert s.queue == [s.queue[0]] + s.queue[1..];
      }
    }
  }

  lemma FifoInvPush(db0: Db, s: State, i: nat)
    requires FifoInv(db0, s)
    ensures FifoInv(db0, Next(s, Push(i)))
  {
    hide Decided, Replay;
    if i < |s.checked| && |s.queue| < QUEUE_CAP {
      var op := s.checked[i].(tag := |s.accepted|);
      assert s.accepted + [op] == Decided(s.batches) + InFlight(s.pc) + (s.queue + [op]);
    }
  }

  lemma FifoInvStep(db0: Db, s: State, st: Step)
    requires FifoInv(db0, s)
    ensures FifoInv(db0, Next(s, st))
  {
    hide Decided, Replay, Exec;
    match st
    case ApplyBatch(fault) => FifoInvApply(db0, s, fault);
    case Push(i) => FifoInvPush(db0, s, i);
    case TakeFirst => FifoInvQueue(db0, s, st);
    case CollectOne => FifoInvQueue(db0, s, st);
    case _ =>
  }

  lemma {:induction false} FifoInvRun(db0: Db, s: State, steps: seq<Step>)
    requires FifoInv(db0, s)
    ensures FifoInv(db0, Run(s, steps))
    decreases |steps|
  {
    if steps != [] {
      FifoInvStep(db0, s, steps[0]);
      FifoInvRun(db0, Next(s, steps[0]), steps[1..]);
    }
  }

  /**
   Over every interleaving: the accepted operations are exactly decided, in flight and queued,
   in order; every decided batch holds 1 to 64 of them; the database is the fold of the committed ones.
   */
  lemma BatcherRefinesFold(db0: Db, steps: seq<Step>)
    ensures var s := Run(Init(db0), steps);
            && s.accepted == Decided(s.batches) + InFlight(s.pc) + s.queue
            && (forall i :: 0 <= i < |s.batches| ==> 1 <= |s.batches[i].ops| <= 64)
            && Replay(db0, s.batches) == Some(s.db)
  {
    FifoInvRun(db0, Init(db0), steps);
  }

  /** What the queue takes: over every interleaving at most 4096 writes wait, and a send is refused only then. */
  lemma {:induction false} QueueBound(s: State, steps: seq<Step>)
    requires |s.queue| <= 4096
    ensures |Run(s, steps).queue| <= 4096
    decreases |steps|
  {
    if steps != [] {
      QueueStep(s, steps[0]);
      hide Next;
      QueueBound(Next(s, steps[0]), steps[1..]);
    }
  }

  lemma QueueStep(s: State, st: Step)
    requires |s.queue| <= 4096
    ensures |Next(s, st).queue| <= 4096
    ensures st.Push? && st.i < |s.checked| ==>
              Next(s, st).accepted == s.accepted + if |s.queue| < 4096 then [s.checked[st.i].(tag := |s.accepted|)] else []
    ensures st.CheckOpen? ==> Next(s, st).checked == s.checked + if s.closed then [] else [st.op]
  {
    hide Exec;
  }

  /** The operations that committed, in order. */
  function CommittedOps(bs: seq<Batch>): seq<Op> {
    if bs == [] then [] else CommittedOps(bs[..|bs| - 1]) + if bs[|bs| - 1].ok then bs[|bs| - 1].ops else []
  }

  lemma {:induction false} ReplayIsOne(db: Db, bs: seq<Batch>)
    requires Replay(db, bs).Some?
    ensures Replay(db, bs) == Transaction(db, CommittedOps(bs))
  {
    if bs == [] {
      TransactionOne(db, Op(0, d => Some(d), false));
    } else {
      var front, last := bs[..|bs| - 1], bs[|bs| - 1];
      ReplayIsOne(db, front);
      hide Transaction;
      if last.ok {
        TransactionConcat(db, CommittedOps(front), last.ops);
      } else {
        assert CommittedOps(front) + [] == CommittedOps(front);
      }
    }
  }

  /** Over every interleaving the database is what the committed writes make of it, run one after the other. */
  lemma DatabaseIsCommitted(db0: Db, steps: seq<Step>)
    ensures var s := Run(Init(db0), steps); Some(s.db) == Transaction(db0, CommittedOps(s.batches))
  {
    BatcherRefinesFold(db0, steps);
    ReplayIsOne(db0, Run(Init(db0), steps).batches);
  }

  // ------------------------------------------------------------------ acknowledgements

  /** Operation j of batch i has been answered: not when it committed during the shutdown drain. */
  predicate Answered(s: State, i: nat, j: nat)
    requires i < |s.batches| && j < |s.batches[i].ops|
  {
    && s.batches[i].ops[j].wantsAck
    && !(s.batches[i].ok && s.batches[i].drained)
    && !(s.pc.Acking? && i == |s.batches| - 1 && j >= s.pc.next)
  }

  /** Operation j of batch i: its number is its position, and its answer is the outcome of its batch. */
  predicate EntryOk(s: State, i: nat, j: nat)
    requires i < |s.batches| && j < |s.batches[i].ops|
  {
    var tag := s.batches[i].ops[j].tag;
    && tag == Start(s.batches, i) + j
    && (tag in s.acks <==> Answered(s, i, j))
    && (tag in s.acks ==> s.acks[tag] == s.batches[i].ok)
  }

  predicate AckInv(s: State) {
    && (forall i, j :: 0 <= i < |s.batches| && 0 <= j < |s.batches[i].ops| ==> EntryOk(s, i, j))
    && (forall t :: t in s.acks ==> t < Start(s.batches, |s.batches|))
    && (s.pc.Acking? ==> LastAnswers(s))
  }

  predicate LastAnswers(s: State) {
    s.batches != [] && !(s.batches[|s.batches| - 1].ok && s.batches[|s.batches| - 1].drained)
  }

  lemma AckInvDecide(db0: Db, s: State, s': State, b: Batch)
    requires FifoInv(db0, s) && AckInv(s) && Decides(s, s', b)
    ensures AckInv(s')
  {
    var last := |s.batches|;
    DecidedLength(s.batches);
    StartPrefix(s.batches, [b], last);
    hide Decided, Replay;
    forall i, j | 0 <= i < |s'.batches| && 0 <= j < |s'.batches[i].ops| ensures EntryOk(s', i, j) {
      if i < last {
        assert EntryOk(s, i, j);
        StartPrefix(s.batches, [b], i);
      } else {
        assert s.accepted[|Decided(s.batches)| + j] == b.ops[j];
      }
    }
    assert Start(s'.batches, last + 1) == Start(s'.batches, last) + |b.ops|;
  }

  lemma AckInvApply(db0: Db, s: State, fault: nat)
    requires FifoInv(db0, s) && AckInv(s)
    ensures AckInv(Next(s, ApplyBatch(fault)))
  {
    if s.pc.Collecting? && (|s.pc.batch| >= BATCH_CAP || s.queue == []) {
      var b := ApplyDecides(s, fault);
      AckInvDecide(db0, s, Next(s, ApplyBatch(fault)), b);
    }
  }

  lemma TagsDiffer(s: State, i: nat, j: nat, k: nat)
    requires AckInv(s) && i < |s.batches| && j < |s.batches[i].ops| && k < |s.batches[|s.batches| - 1].ops|
    requires i != |s.batches| - 1 || j != k
    ensures s.batches[i].ops[j].tag != s.batches[|s.batches| - 1].ops[k].tag
  {
    var last := |s.batches| - 1;
    assert EntryOk(s, i, j) && EntryOk(s, last, k);
    StartOrder(s.batches, i, last);
  }

  /** Answering one operation of the last batch touches no other. */
  lemma AckEntry(s: State, s': State, i: nat, j: nat)
    requires AckInv(s) && s.pc.Acking? && s'.batches == s.batches
    requires i < |s.batches| && j < |s.batches[i].ops|
    requires var (ops, k) := (s.batches[|s.batches| - 1].ops, s.pc.next);
             if k < |ops| then
               s'.pc == Acking(k + 1) &&
               s'.acks == if ops[k].wantsAck then s.acks[ops[k].tag := s.batches[|s.batches| - 1].ok] else s.acks
             else s'.pc == Waiting && s'.acks == s.acks
    ensures EntryOk(s', i, j)
  {
    var last := |s.batches| - 1;
    assert EntryOk(s, i, j);
    hide Start;
    if s.pc.next < |s.batches[last].ops| && (i != last || j != s.pc.next) {
      TagsDiffer(s, i, j, s.pc.next);
    }
  }

  lemma AckInvAck(s: State)
    requires AckInv(s)
    ensures AckInv(Next(s, AckNext))
  {
    if s.pc.Acking? {
      var s' := Next(s, AckNext);
      var last := |s.batches| - 1;
      assert s.pc.next < |s.batches[last].ops| ==> EntryOk(s, last, s.pc.next);
      StartOrder(s.batches, last, last + 1);
      forall i, j | 0 <= i < |s'.batches| && 0 <= j < |s'.batches[i].ops| ensures EntryOk(s', i, j) {
        AckEntry(s, s', i, j);
      }
      hide EntryOk;
    }
  }

  lemma AckInvStep(db0: Db, s: State, st: Step)
    requires FifoInv(db0, s) && AckInv(s)
    ensures AckInv(Next(s, st))
  {
    match st
    case ApplyBatch(fault) => AckInvApply(db0, s, fault);
    case AckNext => AckInvAck(s);
    case _ => AckInvOther(s, st);
  }

  lemma AckInvOther(s: State, st: Step)
    requires AckInv(s) && !st.ApplyBatch? && !st.AckNext?
    ensures AckInv(Next(s, st))
  {
    var s' := Next(s, st);
    assert s'.batches == s.batches && s'.acks == s.acks && (s'.pc.Acking? <==> s.pc.Acking?);
    assert s.pc.Acking? ==> s'.pc == s.pc;
    hide Next, Start;
    forall i, j | 0 <= i < |s'.batches| && 0 <= j < |s'.batches[i].ops| ensures EntryOk(s', i, j) {
      assert EntryOk(s, i, j);
    }
  }

  lemma {:induction false} AckInvRun(db0: Db, s: State, steps: seq<Step>)
    requires FifoInv(db0, s) && AckInv(s)
    ensures FifoInv(db0, Run(s, steps)) && AckInv(Run(s, steps))
    decreases |steps|
  {
    hide AckInv, FifoInv, Next;
    if steps != [] {
      AckInvStep(db0, s, steps[0]);
      FifoInvStep(db0, s, steps[0]);
      AckInvRun(db0, Next(s, steps[0]), steps[1..]);
    }
  }

  lemma {:induction false} BatchOf(bs: seq<Batch>, t: nat) returns (i: nat, j: nat)
    requires t < Start(bs, |bs|)
    ensures i < |bs| && j < |bs[i].ops| && Start(bs, i) + j == t
  {
    i := |bs|;
    while Start(bs, i) > t
      invariant i <= |bs| && (i < |bs| ==> t < Start(bs, i + 1))
      invariant t < Start(bs, |bs|)
      decreases i
    {
      i := i - 1;
    }
    j := t - Start(bs, i);
  }

  /** The write numbered `t` was part of a committed transaction. */
  ghost predicate Committed(s: State, t: nat) {
    exists i, j :: 0 <= i < |s.batches| && 0 <= j < |s.batches[i].ops|
                   && s.batches[i].ok && s.batches[i].ops[j].tag == t
  }

  lemma OneBatch(s: State, i: nat, j: nat, i': nat, j': nat)
    requires AckInv(s) && i < |s.batches| && j < |s.batches[i].ops| && i' < |s.batches| && j' < |s.batches[i'].ops|
    requires s.batches[i].ops[j].tag == s.batches[i'].ops[j'].tag
    ensures i == i'
  {
    assert EntryOk(s, i, j) && EntryOk(s, i', j');
    hide Start;
    if i' < i {
      StartOrder(s.batches, i', i);
    } else if i < i' {
      StartOrder(s.batches, i, i');
    }
  }

  /** An answer without error means the write committed; an error means its transaction rolled back. */
  lemma NilAckMeansCommitted(db0: Db, steps: seq<Step>, t: nat)
    ensures var s := Run(Init(db0), steps);
            t in s.acks ==> t < |s.accepted| && (s.acks[t] <==> Committed(s, t))
  {
    var s := Run(Init(db0), steps);
    assert FifoInv(db0, Init(db0)) && AckInv(Init(db0));
    AckInvRun(db0, Init(db0), steps);
    AcceptedHoldDecided(db0, s);
    hide Run, Next;
    AnswerIsOutcome(s, t);
  }

  lemma AcceptedHoldDecided(db0: Db, s: State)
    requires FifoInv(db0, s)
    ensures Start(s.batches, |s.batches|) <= |s.accepted|
  {
    DecidedLength(s.batches);
  }

  lemma AnswerIsOutcome(s: State, t: nat)
    requires AckInv(s)
    ensures t in s.acks ==> t < Start(s.batches, |s.batches|) && (s.acks[t] <==> Committed(s, t))
  {
    if t in s.acks {
      var i, j := BatchOf(s.batches, t);
      assert EntryOk(s, i, j);
      hide Start;
      forall i', j' | 0 <= i' < |s.batches| && 0 <= j' < |s.batches[i'].ops| && s.batches[i'].ops[j'].tag == t
        ensures i' == i
      {
        OneBatch(s, i, j, i', j');
      }
    }
  }

  /** Flush: when a write is answered without error, it and every write accepted before it are decided. */
  lemma FlushIsBarrier(db0: Db, steps: seq<Step>, f: nat, t: nat)
    requires var s := Run(Init(db0), steps); f in s.acks && t <= f
    ensures var s := Run(Init(db0), steps);
            t < |Decided(s.batches)| && f < |s.accepted| && s.accepted[t] == Decided(s.batches)[t]
  {
    assert FifoInv(db0, Init(db0)) && AckInv(Init(db0));
    AckInvRun(db0, Init(db0), steps);
    DecidedLength(Run(Init(db0), steps).batches);
  }

  /**
   Who is told: once the batcher is not in the middle of answering, a decided write that asked
   has its answer exactly when it did not commit in the shutdown drain, which answers failures only.
   */
  lemma AnsweredIff(db0: Db, steps: seq<Step>, i: nat, j: nat)
    requires var s := Run(Init(db0), steps);
             !s.pc.Acking? && i < |s.batches| && j < |s.batches[i].ops| && s.batches[i].ops[j].wantsAck
    ensures var s := Run(Init(db0), steps);
            s.batches[i].ops[j].tag in s.acks <==> !(s.batches[i].ok && s.batches[i].drained)
  {
    assert FifoInv(db0, Init(db0)) && AckInv(Init(db0));
    AckInvRun(db0, Init(db0), steps);
    assert EntryOk(Run(Init(db0), steps), i, j);
  }

  /** After the batcher has exited nothing is decided any more. */
  lemma {:induction false} ExitIsFinal(s: State, steps: seq<Step>)
    requires s.pc.Exited?
    ensures Run(s, steps).batches == s.batches && Run(s, steps).acks == s.acks && Run(s, steps).pc.Exited?
    decreases |steps|
  {
    if steps != [] {
      ExitIsFinal(Next(s, steps[0]), steps[1..]);
    }
  }

  /** The state in which the batcher exits: shutting down, nothing in flight, nothing queued. */
  predicate AtExit(s: State) {
    s.pc.Waiting? && s.draining && s.queue == []
  }

  /** When an accepted write is decided: exactly if it was accepted before the batcher's exit. */
  lemma DecidedIffBeforeExit(db0: Db, past: seq<Step>, more: seq<Step>, t: nat)
    requires AtExit(Run(Init(db0), past))
    ensures var s := Run(Init(db0), past);
            var s' := Run(Next(s, Exit), more);
            t < |Decided(s'.batches)| <==> t < |s.accepted|
  {
    FifoInvRun(db0, Init(db0), past);
    ExitIsFinal(Next(Run(Init(db0), past), Exit), more);
  }

  predicate ClosedFirst(s: State) { s.draining ==> s.closed }

  lemma {:induction false} ClosedFirstRun(s: State, steps: seq<Step>)
    requires ClosedFirst(s)
    ensures ClosedFirst(Run(s, steps))
    decreases |steps|
  {
    if steps != [] {
      ClosedFirstRun(Next(s, steps[0]), steps[1..]);
    }
  }

  /** After the exit, with no enqueuer left between the closed check and the send, nothing is accepted. */
  lemma {:induction false} NoneAccepted(s: State, steps: seq<Step>)
    requires s.pc.Exited? && s.closed && s.checked == []
    ensures Run(s, steps).accepted == s.accepted
    decreases |steps|
  {
    if steps != [] {
      NoneAccepted(Next(s, steps[0]), steps[1..]);
    }
  }

  /** No accepted write is ever left undecided after this exit. */
  ghost predicate NoneStranded(s: State) {
    forall more :: Decided(Run(Next(s, Exit), more).batches) == Run(Next(s, Exit), more).accepted
  }

  /** ... which holds exactly if no enqueuer stands between the closed check and the send at the exit. */
  lemma NoneStrandedIff(db0: Db, past: seq<Step>)
    requires AtExit(Run(Init(db0), past))
    ensures NoneStranded(Run(Init(db0), past)) <==> Run(Init(db0), past).checked == []
  {
    var s := Run(Init(db0), past);
    FifoInvRun(db0, Init(db0), past);
    ClosedFirstRun(Init(db0), past);
    FifoNow(db0, s);
    hide FifoInv, Run, Next;
    if s.checked == [] {
      forall more ensures Decided(Run(Next(s, Exit), more).batches) == Run(Next(s, Exit), more).accepted {
        NoneLeft(s, more);
      }
    } else {
      OneLeft(s);
    }
  }

  lemma NoneLeft(s: State, more: seq<Step>)
    requires AtExit(s) && ClosedFirst(s) && s.checked == [] && Decided(s.batches) == s.accepted
    ensures var s' := Run(Next(s, Exit), more); Decided(s'.batches) == s'.accepted
  {
    hide Decided;
    ExitIsFinal(Next(s, Exit), more);
    NoneAccepted(Next(s, Exit), more);
  }

  lemma OneLeft(s: State)
    requires AtExit(s) && s.checked != [] && Decided(s.batches) == s.accepted
    ensures !NoneStranded(s)
  {
    hide Decided;
    var s1, more := Next(s, Exit), [Push(0)] + [];
    RunFirst(s1, Push(0), []);
    assert Run(Next(s1, Push(0)), []) == Next(s1, Push(0));
    hide Run;
    var s2 := Run(s1, more);
    assert |s2.accepted| == |s.accepted| + 1 && s2.batches == s.batches;
    assert Decided(Run(Next(s, Exit), more).batches) != Run(Next(s, Exit), more).accepted;
  }

  lemma FifoNow(db0: Db, s: State)
    requires FifoInv(db0, s) && AtExit(s)
    ensures Decided(s.batches) == s.accepted
  {
  }

  /** A write that committed in the shutdown drain, with its waiter left without an answer. */
  lemma DrainedUnanswered(db0: Db, op: Op)
    requires op.wantsAck && op.run(db0).Some?
    ensures var s := Run(Init(db0), [CheckOpen(op), Push(0), Close, Quit, TakeFirst, ApplyBatch(2)]);
            && s.pc.Waiting? && |s.batches| == 1 && |s.batches[0].ops| == 1
            && s.batches[0].ok && s.batches[0].drained && s.batches[0].ops[0].wantsAck && s.acks == map[]
  {
    var tagged := op.(tag := 0);
    var steps := [CheckOpen(op), Push(0), Close, Quit, TakeFirst] + [ApplyBatch(2)];
    var s5 := Init(db0).(closed := true, draining := true, pc := Collecting([tagged]), accepted := [tagged]);
    FiveSteps(Init(db0), steps[..5]);
    var s2 := Next(Next(Init(db0), steps[0]), steps[1]);
    assert s2 == Init(db0).(queue := [tagged], accepted := [tagged]);
    assert Next(Next(Next(s2, steps[2]), steps[3]), steps[4]) == s5;
    RunConcat(Init(db0), steps[..5], [ApplyBatch(2)]);
    RunFirst(s5, ApplyBatch(2), []);
    assert steps[..5] == [CheckOpen(op), Push(0), Close, Quit, TakeFirst];
    assert [ApplyBatch(2)] + [] == [ApplyBatch(2)];
    assert steps == [CheckOpen(op), Push(0), Close, Quit, TakeFirst, ApplyBatch(2)];
    LastDrained(s5, tagged);
    assert Run(Next(s5, ApplyBatch(2)), []) == Next(s5, ApplyBatch(2));
  }

  lemma LastDrained(s: State, op: Op)
    requires s.pc == Collecting([op]) && s.queue == [] && s.draining && s.batches == [] && op.run(s.db).Some?
    ensures Next(s, ApplyBatch(2)) == s.(db := op.run(s.db).value, batches := [Batch([op], true, true)], pc := Waiting)
  {
    TransactionOne(s.db, op);
    hide Transaction;
    assert Exec(s.db, [op], 2) == op.run(s.db) by { ExecIsTransaction(s.db, [op], 2); }
  }

  /** A write that passed the closed check before Close and reached the queue after the drain is accepted, never decided. */
  lemma LateWriteStranded(db0: Db, op: Op, more: seq<Step>)
    ensures var s := Run(Init(db0), [CheckOpen(op), Close, Quit, Exit, Push(0)]);
            s.accepted == [op.(tag := 0)] && Run(s, more).batches == [] && Run(s, more).acks == map[]
  {
    var s0 := Init(db0);
    var s4 := s0.(checked := [op], closed := true, draining := true, pc := Exited);
    var steps := [CheckOpen(op), Close, Quit, Exit, Push(0)];
    assert Next(Next(Next(Next(s0, steps[0]), steps[1]), steps[2]), steps[3]) == s4;
    assert steps[1..][1..][1..][1..][1..] == [];
    FiveSteps(s0, steps);
    ExitIsFinal(Next(s4, Push(0)), more);
  }

  lemma FiveSteps(s: State, steps: seq<Step>)
    requires |steps| == 5
    ensures Run(s, steps) == Next(Next(Next(Next(Next(s, steps[0]), steps[1]), steps[2]), steps[3]), steps[4])
  {
    hide Next;
    var s1 := Next(s, steps[0]);
    var s2 := Next(s1, steps[1]);
    var s3 := Next(s2, steps[2]);
    var s4 := Next(s3, steps[3]);
    assert Run(s1, steps[1..]) == Run(s2, steps[1..][1..]);
    assert Run(s2, steps[1..][1..]) == Run(s3, steps[1..][1..][1..]);
    assert Run(s3, steps[1..][1..][1..]) == Run(s4, steps[1..][1..][1..][1..]);
    assert Run(s4, steps[1..][1..][1..][1..]) == Run(Next(s4, steps[4]), []);
  }

  // ------------------------------------------------------------------ the code is a run

  function Times(st: Step, k: nat): seq<Step> {
    if k == 0 then [] else [st] + Times(st, k - 1)
  }

  lemma {:induction false} RunConcat(s: State, a: seq<Step>, b: seq<Step>)
    ensures Run(s, a + b) == Run(Run(s, a), b)
    decreases |a|
  {
    hide Next;
    if a == [] {
      assert a + b == b;
    } else {
      assert (a + b)[1..] == a[1..] + b;
      RunConcat(Next(s, a[0]), a[1..], b);
    }
  }

  lemma RunFirst(s: State, st: Step, rest: seq<Step>)
    ensures Run(s, [st] + rest) == Run(Next(s, st), rest)
  {
    hide Next;
    assert ([st] + rest)[1..] == rest;
  }

  lemma MoveOne(batch: seq<Op>, queue: seq<Op>, m: nat)
    requires 0 < m <= |queue|
    ensures batch + [queue[0]] + queue[1..][..m - 1] == batch + queue[..m]
    ensures queue[1..][m - 1..] == queue[m..]
  {
    assert queue[..m] == [queue[0]] + queue[1..][..m - 1];
  }

  lemma {:induction false} CollectMany(s: State, k: nat)
    requires s.pc.Collecting? && |s.pc.batch| <= BATCH_CAP
    requires k >= Joining(|s.pc.batch|, |s.queue|)
    ensures var m := Joining(|s.pc.batch|, |s.queue|);
            Run(s, Times(CollectOne, k)) == s.(pc := Collecting(s.pc.batch + s.queue[..m]), queue := s.queue[m..])
    decreases k
  {
    var m := Joining(|s.pc.batch|, |s.queue|);
    Empty(s.pc.batch, s.queue);
    if k > 0 {
      var s' := Next(s, CollectOne);
      RunFirst(s, CollectOne, Times(CollectOne, k - 1));
      assert s' == if m == 0 then s else s.(pc := Collecting(s.pc.batch + [s.queue[0]]), queue := s.queue[1..]);
      hide Next, Run;
      CollectMany(s', k - 1);
      if m > 0 {
        MoveOne(s.pc.batch, s.queue, m);
      }
    }
  }

  lemma Empty(batch: seq<Op>, queue: seq<Op>)
    ensures batch + queue[..0] == batch && queue[0..] == queue
  {
  }

  lemma {:induction false} AckMany(s: State, b: Batch, k: nat)
    requires s.batches != [] && b == s.batches[|s.batches| - 1]
    requires s.pc.Waiting? || (s.pc.Acking? && s.pc.next <= |b.ops| && k > |b.ops| - s.pc.next)
    ensures Run(s, Times(AckNext, k)) ==
            if s.pc.Waiting? then s else s.(pc := Waiting, acks := Answers(s.acks, b.ops[s.pc.next..], b.ok))
    decreases k
  {
    if k > 0 {
      assert Times(AckNext, k)[1..] == Times(AckNext, k - 1);
      AckMany(Next(s, AckNext), b, k - 1);
    }
  }

  /** The steps of one pass of the batcher that nobody interrupts. */
  function CycleSteps(fault: nat): seq<Step> {
    [TakeFirst] + Times(CollectOne, BATCH_CAP) + ([ApplyBatch(fault)] + Times(AckNext, BATCH_CAP + 1))
  }

  /** One uninterrupted pass takes, applies and answers exactly what the code's pass does. */
  lemma CycleIsRun(s: State, fault: nat)
    requires s.pc.Waiting? && s.queue != []
    ensures var n := BatchLen(|s.queue|);
            var r := Exec(s.db, s.queue[..n], fault);
            var s' := Run(s, CycleSteps(fault));
            && s'.pc.Waiting? && s'.draining == s.draining && s'.queue == s.queue[n..]
            && s'.db == (if r.Some? then r.value else s.db)
            && s'.acks == (if s.draining && r.Some? then s.acks else Answers(s.acks, s.queue[..n], r.Some?))
            && s'.batches == s.batches + [Batch(s.queue[..n], r.Some?, s.draining)]
  {
    var n := BatchLen(|s.queue|);
    TakeBatch(s);
    var s2 := s.(pc := Collecting(s.queue[..n]), queue := s.queue[n..]);
    DecideAndAnswer(s2, fault);
    hide Next, Times, Exec, Answers;
    RunConcat(s, [TakeFirst] + Times(CollectOne, BATCH_CAP), [ApplyBatch(fault)] + Times(AckNext, BATCH_CAP + 1));
  }

  lemma TakeBatch(s: State)
    requires s.pc.Waiting? && s.queue != []
    ensures var n := BatchLen(|s.queue|);
            Run(s, [TakeFirst] + Times(CollectOne, BATCH_CAP))
            == s.(pc := Collecting(s.queue[..n]), queue := s.queue[n..])
  {
    var n := BatchLen(|s.queue|);
    var s1 := Next(s, TakeFirst);
    CollectMany(s1, BATCH_CAP);
    hide Next, Times;
    RunFirst(s, TakeFirst, Times(CollectOne, BATCH_CAP));
    MoveOne([], s.queue, n);
    assert [] + [s.queue[0]] == [s.queue[0]] && [] + s.queue[..n] == s.queue[..n];
  }

  lemma DecideAndAnswer(s: State, fault: nat)
    requires s.pc.Collecting? && |s.pc.batch| <= BATCH_CAP && (|s.pc.batch| == BATCH_CAP || s.queue == [])
    ensures var r := Exec(s.db, s.pc.batch, fault);
            Run(s, [ApplyBatch(fault)] + Times(AckNext, BATCH_CAP + 1))
            == s.(pc := Waiting, db := if r.Some? then r.value else s.db,
                  acks := if s.draining && r.Some? then s.acks else Answers(s.acks, s.pc.batch, r.Some?),
                  batches := s.batches + [Batch(s.pc.batch, r.Some?, s.draining)])
  {
    var b := Batch(s.pc.batch, Exec(s.db, s.pc.batch, fault).Some?, s.draining);
    var s' := Next(s, ApplyBatch(fault));
    assert s'.batches[|s'.batches| - 1] == b && b.ops[0..] == b.ops;
    AckMany(s', b, BATCH_CAP + 1);
    hide Times, Exec, Answers;
    RunFirst(s, ApplyBatch(fault), Times(AckNext, BATCH_CAP + 1));
  }
  /** The code's shutdown, uninterrupted, is a run of the machine: it decides all that is queued, in order, and exits. */
  lemma {:induction false} DrainIsRun(s: State, faults: nat -> nat, pass: nat) returns (steps: seq<Step>)
    requires s.pc.Waiting? && s.draining
    ensures var s' := Run(s, steps);
            && s'.pc.Exited? && s'.queue == []
            && (s'.db, s'.acks) == Drain(s.queue, s.db, s.acks, faults, pass)
            && Decided(s'.batches) == Decided(s.batches) + s.queue
    decreases |s.queue|
  {
    if s.queue == [] {
      steps := [Exit];
      ExitRun(s);
      hide Run, Next;
      assert Drain([], s.db, s.acks, faults, pass) == (s.db, s.acks);
    } else {
      var n := BatchLen(|s.queue|);
      var first := CycleSteps(faults(pass));
      CycleIsRun(s, faults(pass));
      var s1 := Run(s, first);
      var b := Batch(s.queue[..n], Exec(s.db, s.queue[..n], faults(pass)).Some?, s.draining);
      DecidedOne(s.batches, b);
      DrainFirst(s.queue, s.db, s.acks, faults, pass);
      assert s.queue == s.queue[..n] + s.queue[n..];
      hide Run, CycleSteps, Exec, Answers, Decided, Drain;
      var rest := DrainIsRun(s1, faults, pass + 1);
      RunConcat(s, first, rest);
      steps := first + rest;
      Regroup(Decided(s.batches), s.queue[..n], s.queue[n..]);
    }
  }

  lemma ExitRun(s: State)
    ensures Run(s, [Exit]) == Next(s, Exit)
  {
    assert [Exit][1..] == [];
    hide Next;
  }

  lemma DrainFirst(writes: seq<Op>, db: Db, acks: map<nat, bool>, faults: nat -> nat, pass: nat)
    requires writes != []
    ensures var n := BatchLen(|writes|);
            var r := Exec(db, writes[..n], faults(pass));
            Drain(writes, db, acks, faults, pass)
            == Drain(writes[n..], if r.Some? then r.value else db,
                     if r.Some? then acks else Answers(acks, writes[..n], false), faults, pass + 1)
  {
    hide Exec, Answers;
  }

  lemma DecidedOne(bs: seq<Batch>, b: Batch)
    ensures Decided(bs + [b]) == Decided(bs) + b.ops
  {
    assert (bs + [b])[..|bs|] == bs;
  }
}
