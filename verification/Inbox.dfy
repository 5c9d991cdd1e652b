/** The durable inbox: one row per update id, plus the acknowledgement cursor of the poll transport. */
module InboxTable {
  import opened Common

  datatype Status = Pending | Done | Failed | Skipped

  datatype Update = Update(id: int, chat: int, text: string, callback: string)

  /** `replied` stands for a non-null `replied_at`. */
  datatype Row = Row(update: Update, status: Status, replied: bool)

  type Table = map<int, Row>

  /** INSERT OR IGNORE on the update id. */
  function Inserted(t: Table, u: Update): Table {
    if u.id in t then t else t[u.id := Row(u, Pending, false)]
  }

  /** The compare-and-set of a claim succeeds on a row nobody has claimed. */
  predicate Claimable(t: Table, id: int) {
    id in t && !t[id].replied
  }

  function Claimed(t: Table, id: int): Table {
    if Claimable(t, id) then t[id := t[id].(status := Done, replied := true)] else t
  }

  function Marked(t: Table, id: int, status: Status): Table {
    if id in t then t[id := t[id].(status := status)] else t
  }

  function Reopened(t: Table, id: int): Table {
    if id in t then t[id := t[id].(status := Failed, replied := false)] else t
  }

  function PendingIds(t: Table): set<int> {
    set id | id in t && t[id].status == Pending
  }

  predicate IsMin(m: int, s: set<int>) {
    m in s && forall x :: x in s ==> m <= x
  }

  ghost function Min(s: set<int>): (m: int)
    requires s != {}
    ensures IsMin(m, s)
  {
    HasMin(s);
    var m :| IsMin(m, s);
    m
  }

  lemma {:induction false} HasMin(s: set<int>)
    requires s != {}
    ensures exists m :: IsMin(m, s)
  {
    assert (forall x :: x !in s) ==> s == {};
    var a :| a in s;
    var rest := s - {a};
    if rest == {} {
      assert s == {a};
      assert IsMin(a, s);
    } else {
      HasMin(rest);
      var b :| IsMin(b, rest);
      var m := if a < b then a else b;
      forall x | x in s ensures m <= x {
        assert x == a || x in rest;
      }
      assert IsMin(m, s);
    }
  }

  /** ORDER BY id LIMIT n. */
  ghost function Oldest(s: set<int>, n: nat): seq<int>
    decreases n
  {
    if s == {} || n == 0 then [] else [Min(s)] + Oldest(s - {Min(s)}, n - 1)
  }

  predicate Ascending(ids: seq<int>) {
    forall i, j :: 0 <= i < j < |ids| ==> ids[i] < ids[j]
  }

  /** The window holds the smallest elements, in order, and whatever is left out is larger. */
  lemma {:induction false} OldestFacts(s: set<int>, n: nat)
    ensures var o := Oldest(s, n);
            && Ascending(o)
            && (forall x :: x in o ==> x in s)
            && |o| == (if n < |s| then n else |s|)
            && (forall x, y :: x in s && x !in o && y in o ==> y < x)
            && (forall x :: x in s && x !in o ==> |o| == n)
    decreases n
  {
    if s != {} && n > 0 {
      var m := Min(s);
      OldestFacts(s - {m}, n - 1);
      var rest := Oldest(s - {m}, n - 1);
      var o := [m] + rest;
      assert Oldest(s, n) == o && m in s && IsMin(m, s);
      hide Oldest, IsMin;
      assert forall x :: x in s ==> m <= x;
      assert forall i :: 0 < i < |o| ==> o[i] == rest[i - 1] && o[i] in rest;
    }
  }

  function Members(ids: seq<int>): set<int> {
    set x | x in ids
  }

  lemma {:induction false} AscendingSize(ids: seq<int>)
    requires Ascending(ids)
    ensures |Members(ids)| == |ids|
  {
    var all := Members(ids);
    if ids == [] {
      assert all == {};
    } else {
      var n := |ids| - 1;
      var rest := Members(ids[..n]);
      assert ids == ids[..n] + [ids[n]];
      assert all == rest + {ids[n]};
      assert ids[n] !in rest;
      AscendingSize(ids[..n]);
    }
  }

  lemma {:induction false} SubsetSize(a: set<int>, b: set<int>)
    requires a <= b
    ensures |a| <= |b|
    ensures |a| == |b| ==> a == b
  {
    assert b == a + (b - a);
    assert |b| == |a| + |b - a|;
    if |a| == |b| {
      assert b - a == {};
    }
  }

  function Below(s: set<int>, p: int): set<int> {
    set x | x in s && x < p
  }

  /** An element is in the window exactly if fewer than `n` are smaller. */
  lemma InWindowIff(s: set<int>, n: nat, p: int)
    requires p in s
    ensures p in Oldest(s, n) <==> |Below(s, p)| < n
  {
    var o := Oldest(s, n);
    OldestFacts(s, n);
    AscendingSize(o);
    var os := Members(o);
    if p in o {
      assert Below(s, p) <= os - {p};
      SubsetSize(Below(s, p), os - {p});
    } else {
      assert os <= Below(s, p);
      SubsetSize(os, Below(s, p));
    }
  }

  lemma OldestUnfolds(s: set<int>, m: int, n: nat)
    requires m in s && IsMin(m, s) && n > 0
    ensures Oldest(s, n) == [m] + Oldest(s - {m}, n - 1)
  {
    assert m == Min(s);
  }

  method TakeOldest(s: set<int>, n: nat) returns (out: seq<int>)
    ensures out == Oldest(s, n)
  {
    var left := s;
    out := [];
    while left != {} && |out| < n
      invariant |out| <= n
      invariant Oldest(s, n) == out + Oldest(left, n - |out|)
      decreases n - |out|
    {
      HasMin(left);
      var m :| m in left && IsMin(m, left);
      OldestUnfolds(left, m, n - |out|);
      Regroup(out, [m], Oldest(left - {m}, n - |out| - 1));
      hide Oldest;
      out := out + [m];
      left := left - {m};
    }
  }

  class Inbox {
    var rows: Table
    var cursor: int

    constructor ()
      ensures rows == map[] && cursor == 0
    {
      rows := map[];
      cursor := 0;
    }

    method Enqueue(u: Update) returns (isNew: bool)
      modifies this`rows
      ensures rows == Inserted(old(rows), u)
      ensures isNew <==> u.id !in old(rows)
      ensures rows == if isNew then old(rows)[u.id := Row(u, Status.Pending, false)] else old(rows)
    {
      isNew := u.id !in rows;
      if isNew {
        rows := rows[u.id := Row(u, Status.Pending, false)];
      }
    }

    /** Up to `n` pending rows, oldest first. */
    method Pending(n: nat) returns (out: seq<int>)
      ensures out == Oldest(PendingIds(rows), n)
      ensures Ascending(out) && |out| <= n
      ensures forall id :: id in out ==> id in rows && rows[id].status == Status.Pending
      ensures forall id :: id in rows && rows[id].status == Status.Pending && id !in out ==>
                |out| == n && forall x :: x in out ==> x < id
    {
      OldestFacts(PendingIds(rows), n);
      hide Oldest;
      out := TakeOldest(PendingIds(rows), n);
    }

    method ClaimReply(id: int) returns (won: bool)
      modifies this`rows
      ensures won <==> Claimable(old(rows), id)
      ensures rows == Claimed(old(rows), id)
      ensures won <==> id in old(rows) && !old(rows)[id].replied
      ensures rows == if won then old(rows)[id := old(rows)[id].(status := Done, replied := true)] else old(rows)
    {
      won := id in rows && !rows[id].replied;
      if won {
        rows := rows[id := rows[id].(status := Done, replied := true)];
      }
    }

    method MarkStatus(id: int, status: Status)
      modifies this`rows
      ensures rows == Marked(old(rows), id, status)
      ensures rows.Keys == old(rows).Keys && (id in rows ==> rows[id] == old(rows)[id].(status := status))
      ensures forall x :: x in rows && x != id ==> rows[x] == old(rows)[x]
    {
      if id in rows {
        rows := rows[id := rows[id].(status := status)];
      }
    }

    method FailAndReopen(id: int)
      modifies this`rows
      ensures rows == Reopened(old(rows), id)
      ensures rows.Keys == old(rows).Keys && (id in rows ==> rows[id] == old(rows)[id].(status := Failed, replied := false))
      ensures forall x :: x in rows && x != id ==> rows[x] == old(rows)[x]
    {
      if id in rows {
        rows := rows[id := rows[id].(status := Failed, replied := false)];
      }
    }

    method AdvanceHighWater(id: int)
      modifies this`cursor
      ensures cursor == id
    {
      cursor := id;
    }
  }
}
