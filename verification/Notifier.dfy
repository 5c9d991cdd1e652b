/**
 The approval notifier: it polls the fifty oldest pending requests and announces those above the
 highest id it has seen. Ids are handed out in ascending order and never reused.
 */
module Notifier {
  import opened Common
  import opened InboxTable
  import Approvals

  const WINDOW: nat := 50

  // ------------------------------------------------------------------ one poll

  function Raise(last: int, ids: seq<int>): int
    decreases |ids|
  {
    if ids == [] then last else Raise(if ids[0] > last then ids[0] else last, ids[1..])
  }

  /** The ids announced as new: each one larger than every id seen before it. */
  function News(last: int, ids: seq<int>): seq<int>
    decreases |ids|
  {
    if ids == [] then []
    else if ids[0] > last then [ids[0]] + News(ids[0], ids[1..])
    else News(last, ids[1..])
  }

  /** What the next id read does. */
  lemma FirstRead(last: int, ids: seq<int>, i: nat)
    requires i < |ids|
    ensures Raise(last, ids[i..]) == Raise(if ids[i] > last then ids[i] else last, ids[i + 1..])
    ensures News(last, ids[i..])
         == if ids[i] > last then [ids[i]] + News(ids[i], ids[i + 1..]) else News(last, ids[i + 1..])
  {
    assert ids[i..][1..] == ids[i + 1..];
  }

  lemma Nothing()
    ensures forall last :: Raise(last, []) == last && News(last, []) == []
  {
  }

  class Notifier {
    var lastSeen: int
    var announced: seq<int>

    constructor ()
      ensures lastSeen == 0 && announced == []
    {
      lastSeen, announced := 0, [];
    }

    /** At start: what is already pending counts as seen. A failed read changes nothing. */
    method Prime(ledger: Approvals.Ledger, readOk: bool)
      modifies this`lastSeen
      ensures lastSeen == if readOk then Raise(old(lastSeen), Oldest(Approvals.PendingIds(ledger.rows), WINDOW))
                          else old(lastSeen)
    {
      if !readOk {
        return;
      }
      var pend := ledger.PendingApprovals(50);
      for i := 0 to |pend|
        invariant Raise(lastSeen, pend[i..]) == Raise(old(lastSeen), pend)
      {
        if pend[i] > lastSeen {
          lastSeen := pend[i];
        }
      }
    }

    method Tick(ledger: Approvals.Ledger, readOk: bool)
      modifies this
      ensures var pend := if readOk then Oldest(Approvals.PendingIds(ledger.rows), WINDOW) else [];
              lastSeen == Raise(old(lastSeen), pend) && announced == old(announced) + News(old(lastSeen), pend)
    {
      if !readOk {
        return;
      }
      hide Oldest;
      var pend := ledger.PendingApprovals(50);
      Announce(pend);
    }

    /** The loop of a poll: the mark rises along the ids, announcing each one above it. */
    method Announce(pend: seq<int>)
      modifies this
      ensures lastSeen == Raise(old(lastSeen), pend) && announced == old(announced) + News(old(lastSeen), pend)
    {
      Nothing();
      hide Raise, News;
      ghost var sent: seq<int> := [];
      assert pend[0..] == pend;
      for i := 0 to |pend|
        invariant Raise(lastSeen, pend[i..]) == Raise(old(lastSeen), pend)
        invariant sent + News(lastSeen, pend[i..]) == News(old(lastSeen), pend)
        invariant announced == old(announced) + sent
      {
        FirstRead(lastSeen, pend, i);
        if pend[i] > lastSeen {
          Regroup(sent, [pend[i]], News(pend[i], pend[i + 1..]));
          Regroup(old(announced), sent, [pend[i]]);
          lastSeen := pend[i];
          announced := announced + [pend[i]];
          sent := sent + [pend[i]];
        }
      }
      assert pend[|pend|..] == [];
    }
  }

  lemma AscendingTail(ids: seq<int>)
    requires Ascending(ids) && ids != []
    ensures Ascending(ids[1..])
    ensures forall x :: x in ids <==> x == ids[0] || x in ids[1..]
    ensures forall x :: x in ids[1..] ==> x > ids[0]
  {
    forall x | x in ids[1..] ensures x > ids[0] {
      var k :| 0 <= k < |ids| - 1 && ids[1..][k] == x;
      assert ids[k + 1] == x;
    }
  }

  /** The mark ends at the largest id read, or stays. */
  lemma {:induction false} RaiseFacts(last: int, ids: seq<int>)
    requires Ascending(ids)
    ensures var top := Raise(last, ids);
            && top >= last && (top == last || top in ids)
            && forall x :: x in ids ==> x <= top
    decreases |ids|
  {
    if ids != [] {
      AscendingTail(ids);
      RaiseFacts(if ids[0] > last then ids[0] else last, ids[1..]);
    }
  }

  /** What is new is what lies above the mark. */
  lemma {:induction false} NewsFacts(last: int, ids: seq<int>)
    requires Ascending(ids)
    ensures Ascending(News(last, ids))
    ensures forall x :: x in News(last, ids) <==> x in ids && x > last
    decreases |ids|
  {
    if ids != [] {
      AscendingTail(ids);
      hide Ascending;
      if ids[0] > last {
        NewsFacts(ids[0], ids[1..]);
        AscendingOne(ids[0]);
        AscendingConcat([ids[0]], News(ids[0], ids[1..]));
      } else {
        NewsFacts(last, ids[1..]);
      }
    }
  }

  lemma AscendingOne(x: int)
    ensures Ascending([x])
  {
  }

  lemma AscendingConcat(a: seq<int>, b: seq<int>)
    requires Ascending(a) && Ascending(b)
    requires forall x, y :: x in a && y in b ==> x < y
    ensures Ascending(a + b)
  {
    forall i, j | 0 <= i < j < |a + b| ensures (a + b)[i] < (a + b)[j] {
      if i < |a| <= j {
        assert a[i] in a && b[j - |a|] in b;
      }
    }
  }

  // ------------------------------------------------------------------ a notifier's life

  /** `primed` is what the notifier read when it started; `announced` is what it has sent as new. */
  datatype State = State(pending: set<int>, next: int, lastSeen: int, primed: set<int>, announced: seq<int>)

  datatype Step = Create | Resolve(id: int) | Tick(readOk: bool)

  /** Start over a ledger; the priming read may fail. */
  ghost function Start(pending: set<int>, next: int, primeOk: bool): State {
    var read := if primeOk then Oldest(pending, WINDOW) else [];
    State(pending, next, Raise(0, read), Members(read), [])
  }

  ghost function Next(s: State, p: Step): State {
    match p
    case Create => s.(pending := s.pending + {s.next}, next := s.next + 1)
    case Resolve(id) => s.(pending := s.pending - {id})
    case Tick(readOk) =>
      var read := if readOk then Oldest(s.pending, WINDOW) else [];
      s.(lastSeen := Raise(s.lastSeen, read), announced := s.announced + News(s.lastSeen, read))
  }

  ghost function Run(s: State, steps: seq<Step>): State
    decreases |steps|
  {
    if steps == [] then s else Run(Next(s, steps[0]), steps[1..])
  }

  /** A ledger as the notifier may find it: positive ids below the next one. */
  predicate Ledgered(pending: set<int>, next: int) {
    next >= 1 && forall x :: x in pending ==> 1 <= x < next
  }

  predicate Complete(s: State) {
    && Ledgered(s.pending, s.next)
    && 0 <= s.lastSeen < s.next
    && Ascending(s.announced)
    && (forall x :: x in s.announced ==> x <= s.lastSeen && x !in s.primed)
    && (forall x :: x in s.primed ==> x <= s.lastSeen)
    && (forall x :: x in s.pending && x <= s.lastSeen ==> x in s.announced || x in s.primed)
  }

  lemma StartComplete(pending: set<int>, next: int, primeOk: bool)
    requires Ledgered(pending, next)
    ensures Complete(Start(pending, next, primeOk))
  {
    var read := if primeOk then Oldest(pending, WINDOW) else [];
    if primeOk {
      OldestFacts(pending, WINDOW);
    }
    RaiseFacts(0, read);
    hide Oldest, Raise;
    forall x | x in pending && x <= Raise(0, read) ensures x in read {
      assert 1 <= x;
      assert Raise(0, read) in read;
    }
  }

  lemma TickComplete(s: State)
    requires Complete(s)
    ensures Complete(Next(s, Tick(true)))
  {
    hide Oldest, News, Raise, Ascending;
    var read := Oldest(s.pending, WINDOW);
    OldestFacts(s.pending, WINDOW);
    RaiseFacts(s.lastSeen, read);
    NewsFacts(s.lastSeen, read);
    var s', news := Next(s, Tick(true)), News(s.lastSeen, read);
    AscendingConcat(s.announced, news);
    forall x | x in s.pending && s.lastSeen < x <= s'.lastSeen ensures x in news {
      assert s'.lastSeen in read;
    }
  }

  lemma StepComplete(s: State, p: Step)
    requires Complete(s)
    ensures Complete(Next(s, p))
  {
    if p == Tick(true) {
      TickComplete(s);
    } else if p.Tick? {
      assert s.announced + News(s.lastSeen, []) == s.announced;
    }
  }

  lemma {:induction false} RunComplete(s: State, steps: seq<Step>)
    requires Complete(s)
    ensures Complete(Run(s, steps))
    decreases |steps|
  {
    if steps != [] {
      StepComplete(s, steps[0]);
      RunComplete(Next(s, steps[0]), steps[1..]);
    }
  }

  /**
   Whatever requests come and go between polls: no request is announced as new twice, none that
   was pending at the start is, and every pending request at or below the mark was one or the other.
   */
  lemma NotifierComplete(pending: set<int>, next: int, primeOk: bool, steps: seq<Step>)
    requires Ledgered(pending, next)
    ensures var s := Run(Start(pending, next, primeOk), steps);
            && (forall i, j :: 0 <= i < j < |s.announced| ==> s.announced[i] != s.announced[j])
            && (forall x :: x in s.announced ==> x !in s.primed)
            && (forall x :: x in s.pending && x <= s.lastSeen ==> x in s.announced || x in s.primed)
  {
    StartComplete(pending, next, primeOk);
    RunComplete(Start(pending, next, primeOk), steps);
  }

  /** A poll announces a request exactly if it is unseen and fewer than fifty pending ones are older. */
  lemma TickAnnouncesIff(s: State, id: int)
    requires Complete(s) && id in s.pending && id > s.lastSeen
    ensures id in Next(s, Tick(true)).announced <==> |Below(s.pending, id)| < 50
  {
    var read := Oldest(s.pending, WINDOW);
    OldestFacts(s.pending, WINDOW);
    NewsFacts(s.lastSeen, read);
    InWindowIff(s.pending, WINDOW, id);
  }

  /** So fifty undecided older requests hold back every newer one for as long as they stay undecided. */
  lemma {:induction false} Starved(s: State, steps: seq<Step>, older: set<int>, id: int)
    requires Complete(s) && id in s.pending && id > s.lastSeen
    requires |older| >= 50 && older <= Below(s.pending, id)
    requires forall p :: p in steps && p.Resolve? ==> p.id !in older
    ensures id !in Run(s, steps).announced
    decreases |steps|
  {
    if steps != [] {
      var p := steps[0];
      StepComplete(s, p);
      assert p in steps;
      var s' := Next(s, p);
      assert id !in s'.announced && s'.lastSeen < id by {
        OldestFacts(s.pending, WINDOW);
        RaiseFacts(s.lastSeen, Oldest(s.pending, WINDOW));
        NewsFacts(s.lastSeen, Oldest(s.pending, WINDOW));
        SubsetSize(older, Below(s.pending, id));
        InWindowIff(s.pending, WINDOW, id);
      }
      if id in s'.pending {
        Starved(s', steps[1..], older, id);
      } else {
        NeverAgain(s', steps[1..], id);
      }
    }
  }

  function Times(p: Step, k: nat): seq<Step> {
    if k == 0 then [] else Times(p, k - 1) + [p]
  }

  lemma {:induction false} RunConcat(s: State, a: seq<Step>, b: seq<Step>)
    ensures Run(s, a + b) == Run(Run(s, a), b)
    decreases |a|
  {
    hide Next;
    if a == [] {
      assert a + b == b;
    } else {
      assert (a + b)[1..] == a[1..] + b;
      RunConcat(Next(s, a[0]), a[1..], b);
    }
  }

  /** The first `k` ids. */
  function Upto(k: nat): set<int> {
    set i | 1 <= i <= k && InUpto(k, i)
  }

  predicate InUpto(k: nat, i: int) { 1 <= i <= k }

  lemma {:induction false} CreateMany(k: nat)
    ensures Run(Start({}, 1, true), Times(Create, k)) == Start({}, 1, true).(pending := Upto(k), next := k + 1)
    ensures |Upto(k)| == k
  {
    var s := Start({}, 1, true);
    if k == 0 {
      assert Upto(0) == {};
    } else {
      CreateMany(k - 1);
      RunConcat(s, Times(Create, k - 1), [Create]);
      var s1 := Run(s, Times(Create, k - 1));
        assert [Create][1..] == [];
      assert Run(s1, [Create]) == Run(Next(s1, Create), []);
      assert Upto(k - 1) + {k} == Upto(k) && k !in Upto(k - 1);
    }
  }

  /** Starvation is reached: of fifty-one requests the last is not announced until one of the others is decided. */
  lemma StarvedRun(steps: seq<Step>)
    requires forall p :: p in steps && p.Resolve? ==> p.id !in Upto(WINDOW)
    ensures var s := Run(Start({}, 1, true), Times(Create, WINDOW + 1));
            && WINDOW + 1 in s.pending
            && WINDOW + 1 !in Run(s, steps).announced
  {
    CreateMany(WINDOW);
    CreateMany(WINDOW + 1);
    StartComplete({}, 1, true);
    RunComplete(Start({}, 1, true), Times(Create, WINDOW + 1));
    var s := Run(Start({}, 1, true), Times(Create, WINDOW + 1));
    hide Run;
    assert Start({}, 1, true).lastSeen == 0;
    assert Upto(WINDOW) <= Below(s.pending, WINDOW + 1);
    Starved(s, steps, Upto(WINDOW), WINDOW + 1);
  }

  /** A request decided before it was announced is never announced. */
  lemma {:induction false} NeverAgain(s: State, steps: seq<Step>, id: int)
    requires Complete(s) && id < s.next && id !in s.pending && id !in s.announced
    ensures id !in Run(s, steps).announced
    decreases |steps|
  {
    if steps != [] {
      StepComplete(s, steps[0]);
      OldestFacts(s.pending, WINDOW);
      NewsFacts(s.lastSeen, Oldest(s.pending, WINDOW));
      assert id !in Next(s, steps[0]).announced;
      NeverAgain(Next(s, steps[0]), steps[1..], id);
    }
  }

  /** Everything pending at the start counts as seen exactly if it fits the window of the priming read. */
  lemma PrimedAllIff(pending: set<int>, next: int)
    requires Ledgered(pending, next)
    ensures pending <= Start(pending, next, true).primed <==> |pending| <= 50
  {
    var read := Oldest(pending, WINDOW);
    OldestFacts(pending, WINDOW);
    AscendingSize(read);
    var primed := Members(read);
    assert Start(pending, next, true).primed == primed;
    hide Oldest, Raise, Ascending, Start;
    assert primed <= pending;
    SubsetSize(primed, pending);
    hide Members;
    if pending <= primed {
      assert pending == primed;
    }
  }
}
