/** The poll transport's acknowledgement rule: how far one fetched batch moves the cursor. */
module Poll {
  import opened InboxTable

  const PENDING_WINDOW := 500

  /** Scans the batch up to the first update that is still pending; 0 means nothing to acknowledge. */
  function AckTo(ack: int, batch: seq<int>, pending: set<int>): int
    decreases |batch|
  {
    if batch == [] then ack
    else if batch[0] <= 0 then AckTo(ack, batch[1..], pending)
    else if batch[0] in pending then ack
    else AckTo(batch[0], batch[1..], pending)
  }

  ghost function Window(t: Table): set<int> {
    Members(Oldest(PendingIds(t), PENDING_WINDOW))
  }

  class PollLoop {
    const inbox: Inbox

    constructor (inbox: Inbox)
      ensures this.inbox == inbox
    {
      this.inbox := inbox;
    }

    /** The pending read and the cursor write may each fail. */
    method Advance(batch: seq<int>, readOk: bool, writeOk: bool)
      modifies inbox`cursor
      ensures var ack := AckTo(0, batch, Window(inbox.rows));
              inbox.cursor == if !readOk || !writeOk || ack == 0 then old(inbox.cursor) else ack
    {
      hide Oldest, PendingIds;
      if !readOk {
        return;
      }
      var rows := inbox.Pending(PENDING_WINDOW);
      var pending := Members(rows);
      var ackTo := 0;
      var i := 0;
      while i < |batch|
        invariant 0 <= i <= |batch|
        invariant AckTo(0, batch, pending) == AckTo(ackTo, batch[i..], pending)
      {
        if batch[i] > 0 {
          if batch[i] in pending {
            break;
          }
          ackTo := batch[i];
        }
        i := i + 1;
      }
      if ackTo != 0 && writeOk {
        inbox.AdvanceHighWater(ackTo);
      }
    }

    /** One poll round after a fetch: every update is offered to the inbox, which may fail, then the cursor moves. */
    method Round(updates: seq<Update>, stored: seq<bool>, readOk: bool, writeOk: bool)
      requires |stored| == |updates|
      modifies inbox
      ensures inbox.rows == Recorded(old(inbox.rows), updates, stored)
      ensures forall id :: id in inbox.rows <==> id in old(inbox.rows) || Offered(updates, stored, id)
      ensures forall id :: id in old(inbox.rows) ==> inbox.rows[id] == old(inbox.rows)[id]
      ensures forall i :: 0 <= i < |updates| && stored[i] && updates[i].id !in old(inbox.rows)
                          && !Offered(updates[..i], stored[..i], updates[i].id) ==>
                updates[i].id in inbox.rows && inbox.rows[updates[i].id] == Row(updates[i], Status.Pending, false)
      ensures var ack := AckTo(0, Ids(updates), Window(inbox.rows));
              inbox.cursor == if updates == [] || !readOk || !writeOk || ack == 0 then old(inbox.cursor) else ack
    {
      RecordedMeans(inbox.rows, updates, stored);
      hide Offered;
      for i := 0 to |updates|
        invariant Recorded(old(inbox.rows), updates, stored) == Recorded(inbox.rows, updates[i..], stored[i..])
        invariant inbox.cursor == old(inbox.cursor)
      {
        if stored[i] {
          var known := inbox.Enqueue(updates[i]);
        }
      }
      assert updates[|updates|..] == [];
      if |updates| > 0 {
        Advance(Ids(updates), readOk, writeOk);
      }
    }
  }

  function Ids(updates: seq<Update>): seq<int> {
    seq(|updates|, i requires 0 <= i < |updates| => updates[i].id)
  }

  /** The rows after a batch of which only the flagged updates could be stored. */
  function Recorded(t: Table, updates: seq<Update>, stored: seq<bool>): Table
    requires |stored| == |updates|
    decreases |updates|
  {
    if updates == [] then t
    else Recorded(if stored[0] then Inserted(t, updates[0]) else t, updates[1..], stored[1..])
  }

  /** An update with that id was offered and could be stored. */
  predicate Offered(updates: seq<Update>, stored: seq<bool>, id: int)
    requires |stored| == |updates|
  {
    exists i :: 0 <= i < |updates| && stored[i] && updates[i].id == id
  }

  /**
   After a batch the table has its old rows, unchanged, and one row for each new id that could be
   stored: the first update offered under it, pending and unclaimed.
   */
  lemma {:induction false} RecordedMeans(t: Table, updates: seq<Update>, stored: seq<bool>)
    requires |stored| == |updates|
    ensures var r := Recorded(t, updates, stored);
            && (forall id :: id in r <==> id in t || Offered(updates, stored, id))
            && (forall id :: id in t ==> r[id] == t[id])
            && (forall i :: 0 <= i < |updates| && stored[i] && updates[i].id !in t
                            && !Offered(updates[..i], stored[..i], updates[i].id) ==>
                  r[updates[i].id] == Row(updates[i], Status.Pending, false))
    decreases |updates|
  {
    if updates != [] {
      var u, t' := updates[0], if stored[0] then Inserted(t, updates[0]) else t;
      RecordedMeans(t', updates[1..], stored[1..]);
      assert forall id :: id in t' <==> id in t || (stored[0] && id == u.id);
      forall id ensures Offered(updates, stored, id) <==> (stored[0] && u.id == id) || Offered(updates[1..], stored[1..], id) {
        OfferedFront(updates, stored, id);
      }
      forall i | 0 < i < |updates| && stored[i] && !Offered(updates[..i], stored[..i], updates[i].id)
        ensures !Offered(updates[1..][..i - 1], stored[1..][..i - 1], updates[i].id)
        ensures updates[1..][i - 1] == updates[i] && stored[1..][i - 1] && !(stored[0] && u.id == updates[i].id)
      {
        assert updates[..i][1..] == updates[1..][..i - 1] && stored[..i][1..] == stored[1..][..i - 1];
        OfferedFront(updates[..i], stored[..i], updates[i].id);
      }
      hide Recorded, Offered;
    }
  }

  lemma OfferedFront(updates: seq<Update>, stored: seq<bool>, id: int)
    requires |stored| == |updates| && updates != []
    ensures Offered(updates, stored, id) <==>
            (stored[0] && updates[0].id == id) || Offered(updates[1..], stored[1..], id)
  {
    if i :| 0 <= i < |updates| && stored[i] && updates[i].id == id {
      assert i > 0 ==> stored[1..][i - 1] && updates[1..][i - 1].id == id;
    }
    if i :| 0 <= i < |updates[1..]| && stored[1..][i] && updates[1..][i].id == id {
      assert stored[i + 1] && updates[i + 1].id == id;
    }
  }

  /** How many updates stand before the first pending one. */
  function Finished(batch: seq<int>, pending: set<int>): (k: nat)
    ensures k <= |batch| && (forall i :: 0 <= i < k ==> batch[i] !in pending)
    ensures k < |batch| ==> batch[k] in pending
    decreases |batch|
  {
    if batch == [] || batch[0] in pending then 0 else 1 + Finished(batch[1..], pending)
  }

  /** What the scan returns: the update right before the first pending one. */
  lemma {:induction false} AckMeaning(ack: int, batch: seq<int>, pending: set<int>)
    requires forall x :: x in batch ==> x > 0
    ensures var k := Finished(batch, pending);
            AckTo(ack, batch, pending) == if k == 0 then ack else batch[k - 1]
    decreases |batch|
  {
    assert batch != [] ==> batch[0] in batch;
    if batch != [] && batch[0] !in pending {
      assert forall x :: x in batch[1..] ==> x in batch;
      AckMeaning(batch[0], batch[1..], pending);
    }
  }

  /** As many pending rows as the bounded read holds are older than `x`. */
  ghost predicate Crowded(t: Table, x: int) {
    |Below(PendingIds(t), x)| >= 500
  }

  /** The bounded read holds exactly the pending rows that are not crowded out. */
  lemma InWindow(t: Table, x: int)
    ensures x in Window(t) <==> x in PendingIds(t) && !Crowded(t, x)
  {
    var pending := PendingIds(t);
    if x in pending {
      InWindowIff(pending, PENDING_WINDOW, x);
    } else {
      OldestFacts(pending, PENDING_WINDOW);
      assert x in Oldest(pending, PENDING_WINDOW) ==> x in pending;
    }
    hide Oldest, PendingIds, Below;
  }

  lemma CrowdedUp(t: Table, x: int, y: int)
    requires x < y && Crowded(t, x)
    ensures Crowded(t, y)
  {
    SubsetSize(Below(PendingIds(t), x), Below(PendingIds(t), y));
    hide PendingIds;
  }

  /**
   The bounded read against the whole table: the scan stops right before the first pending update of
   the batch, unless that one is crowded out of the read; then it acknowledges the whole batch.
   */
  lemma ScanMeaning(batch: seq<int>, t: Table)
    requires Ascending(batch) && (forall x :: x in batch ==> x > 0)
    ensures var f := Finished(batch, PendingIds(t));
            AckTo(0, batch, Window(t)) ==
            if f < |batch| && !Crowded(t, batch[f]) then (if f == 0 then 0 else batch[f - 1])
            else if batch == [] then 0
            else batch[|batch| - 1]
  {
    var f := Finished(batch, PendingIds(t));
    AckMeaning(0, batch, Window(t));
    ScanStops(batch, t);
    hide *;
  }

  /** Where the scan stops. */
  lemma ScanStops(batch: seq<int>, t: Table)
    requires Ascending(batch)
    ensures var f := Finished(batch, PendingIds(t));
            Finished(batch, Window(t)) == if f < |batch| && !Crowded(t, batch[f]) then f else |batch|
  {
    var pending, window := PendingIds(t), Window(t);
    var f, k := Finished(batch, pending), Finished(batch, window);
    hide Window, PendingIds, Crowded, Finished;
    if k < |batch| {
      InWindow(t, batch[k]);
      if f < k && Crowded(t, batch[f]) {
        CrowdedUp(t, batch[f], batch[k]);
      }
    }
    if f < |batch| {
      InWindow(t, batch[f]);
    }
  }

  /** The acknowledgement gets past the first pending update of a batch exactly if that one is crowded out. */
  lemma AckPassesIff(batch: seq<int>, t: Table)
    requires Ascending(batch) && (forall x :: x in batch ==> x > 0)
    requires Finished(batch, PendingIds(t)) < |batch|
    ensures var first := batch[Finished(batch, PendingIds(t))];
            AckTo(0, batch, Window(t)) >= first <==> Crowded(t, first)
  {
    var f := Finished(batch, PendingIds(t));
    ScanMeaning(batch, t);
    hide AckTo, Finished, Crowded, Window, PendingIds;
    assert batch[f] in batch && (f > 0 ==> batch[f - 1] < batch[f]);
    assert f < |batch| - 1 ==> batch[f] < batch[|batch| - 1];
  }

  /** Every id up to and including the acknowledged one. */
  predicate AckedSafely(batch: seq<int>, stored: set<int>, pending: set<int>) {
    var r := AckTo(0, batch, pending);
    forall x :: x in batch && x <= r ==> x in stored
  }

  /**
   An update whose enqueue failed leaves no pending row for the scan to stop at. Whatever the
   workers have finished by then, the acknowledged part of a batch was recorded exactly when
   no enqueue of that batch failed.
   */
  lemma AckSafeIffAllStored(batch: seq<int>, stored: set<int>)
    requires Ascending(batch) && (forall x :: x in batch ==> x > 0)
    ensures (forall pending: set<int> :: pending <= stored ==> AckedSafely(batch, stored, pending))
            <==> forall x :: x in batch ==> x in stored
  {
    if x :| x in batch && x !in stored {
      AckMeaning(0, batch, {});
      var k := Finished(batch, {});
      assert k == |batch| && x <= batch[|batch| - 1];
      assert !AckedSafely(batch, stored, {});
      assert {} <= stored;
    }
  }
}
