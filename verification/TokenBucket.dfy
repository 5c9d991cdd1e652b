/**
 The per-chat throttle: a token bucket with burst 3 that refills one token per second.
 Time and tokens are exact reals; the clock never runs backwards.
 */
module TokenBucket {

  const BURST := 3.0
  const MAX_WAIT := 5.0

  datatype Bucket = Bucket(tokens: real, last: real)

  /** The tokens available at time `now`. */
  function Level(b: Bucket, now: real): real {
    var t := b.tokens + (now - b.last);
    if t < BURST then t else BURST
  }

  predicate Grants(b: Bucket, now: real) {
    Level(b, now) >= 1.0
  }

  /** One pass of the waiting loop: refill, then take a token if there is one. */
  function Take(b: Bucket, now: real): Bucket {
    Bucket(if Grants(b, now) then Level(b, now) - 1.0 else Level(b, now), now)
  }

  type Buckets = map<int, Bucket>

  /** A chat seen for the first time starts with a full bucket. */
  function BucketOf(bs: Buckets, chat: int, now: real): Bucket {
    if chat in bs then bs[chat] else Bucket(BURST, now)
  }

  function Attempted(bs: Buckets, chat: int, now: real): Buckets {
    bs[chat := Take(BucketOf(bs, chat, now), now)]
  }

  datatype Outcome = Granted | Limited | Cancelled

  /**
   One turn of the loop: the reading in the lock, the reading of the refusal test, and the times at
   which other senders of the same chat make their attempts while this one sleeps.
   */
  datatype Pass = Pass(now: real, check: real, rivals: seq<real>)

  /** The wait of one sender; it is cancelled when there is no further pass. */
  function Wait(bs: Buckets, chat: int, passes: seq<Pass>, deadline: real): (Buckets, Outcome)
    decreases |passes|
  {
    if passes == [] then (bs, Cancelled)
    else
      var p := passes[0];
      var b := BucketOf(bs, chat, p.now);
      var bs' := Attempted(bs, chat, p.now);
      if Grants(b, p.now) then (bs', Granted)
      else if p.check + (1.0 - Level(b, p.now)) > deadline then (bs', Limited)
      else Wait(AllAttempted(bs', chat, p.rivals), chat, passes[1..], deadline)
  }

  function AllAttempted(bs: Buckets, chat: int, times: seq<real>): Buckets
    decreases |times|
  {
    if times == [] then bs else AllAttempted(Attempted(bs, chat, times[0]), chat, times[1..])
  }

  class Throttle {
    var buckets: Buckets

    constructor ()
      ensures buckets == map[]
    {
      buckets := map[];
    }

    /** One locked section of the loop; `need` is the sleep asked for when there is no token. */
    method Try(chat: int, now: real) returns (granted: bool, need: real)
      modifies this
      ensures buckets == Attempted(old(buckets), chat, now)
      ensures granted <==> Grants(BucketOf(old(buckets), chat, now), now)
      ensures need == 1.0 - Level(BucketOf(old(buckets), chat, now), now)
    {
      var b := if chat in buckets then buckets[chat] else Bucket(BURST, now);
      var tokens := b.tokens + (now - b.last);
      if tokens > BURST {
        tokens := BURST;
      }
      granted := tokens >= 1.0;
      need := 1.0 - tokens;
      buckets := buckets[chat := Bucket(if granted then tokens - 1.0 else tokens, now)];
    }

    method WaitChat(chat: int, start: real, passes: seq<Pass>) returns (outcome: Outcome)
      modifies this
      ensures (buckets, outcome) == Wait(old(buckets), chat, passes, start + MAX_WAIT)
    {
      var deadline := start + MAX_WAIT;
      for i := 0 to |passes|
        invariant Wait(old(buckets), chat, passes, deadline) == Wait(buckets, chat, passes[i..], deadline)
      {
        var granted, need := Try(chat, passes[i].now);
        if granted {
          return Granted;
        }
        if passes[i].check + need > deadline {
          return Limited;
        }
        var times := passes[i].rivals;
        ghost var before := buckets;
        for j := 0 to |times|
          invariant AllAttempted(buckets, chat, times[j..]) == AllAttempted(before, chat, times)
        {
          var g, n := Try(chat, times[j]);
        }
        assert times[|times|..] == [];
      }
      assert passes[|passes|..] == [];
      outcome := Cancelled;
    }
  }

  // ------------------------------------------------------------------ the rate

  datatype Event = Event(chat: int, now: real)

  predicate Monotone(es: seq<Event>) {
    forall i, j :: 0 <= i < j < |es| ==> es[i].now <= es[j].now
  }

  /** The clock has not gone back behind any bucket. */
  predicate Started(bs: Buckets, es: seq<Event>) {
    forall c, i :: c in bs && 0 <= i < |es| ==> bs[c].last <= es[i].now
  }

  /** Tokens granted to `chat` between `lo` and `hi`, over a run of interleaved attempts. */
  function GrantsTo(bs: Buckets, es: seq<Event>, chat: int, lo: real, hi: real): nat
    decreases |es|
  {
    if es == [] then 0
    else
      var e := es[0];
      (if e.chat == chat && lo <= e.now <= hi && Grants(BucketOf(bs, chat, e.now), e.now) then 1 else 0)
      + GrantsTo(Attempted(bs, e.chat, e.now), es[1..], chat, lo, hi)
  }

  lemma StartedStep(bs: Buckets, es: seq<Event>)
    requires es != [] && Monotone(es) && Started(bs, es)
    ensures Monotone(es[1..]) && Started(Attempted(bs, es[0].chat, es[0].now), es[1..])
  {
  }

  /** From time `t` on, what the bucket holds at `t` plus the time left bounds the grants. */
  lemma {:induction false} GrantsFrom(bs: Buckets, es: seq<Event>, chat: int, t: real, hi: real)
    requires Monotone(es) && Started(bs, es) && t <= hi
    requires chat in bs && bs[chat].last <= t && forall i :: 0 <= i < |es| ==> t <= es[i].now
    requires Level(bs[chat], t) >= 0.0
    ensures GrantsTo(bs, es, chat, t, hi) as real <= Level(bs[chat], t) + (hi - t)
    decreases |es|
  {
    if es != [] {
      var e := es[0];
      var bs' := Attempted(bs, e.chat, e.now);
      StartedStep(bs, es);
      if e.chat != chat {
        GrantsFrom(bs', es[1..], chat, t, hi);
      } else if e.now <= hi {
        GrantsFrom(bs', es[1..], chat, e.now, hi);
        SameWindow(bs', es[1..], chat, t, e.now, hi);
      } else {
        NoneAfter(bs, es, chat, t, hi);
      }
    }
  }

  lemma {:induction false} SameWindow(bs: Buckets, es: seq<Event>, chat: int, lo: real, lo': real, hi: real)
    requires forall i :: 0 <= i < |es| ==> lo <= es[i].now && lo' <= es[i].now
    ensures GrantsTo(bs, es, chat, lo, hi) == GrantsTo(bs, es, chat, lo', hi)
    decreases |es|
  {
    if es != [] {
      SameWindow(Attempted(bs, es[0].chat, es[0].now), es[1..], chat, lo, lo', hi);
    }
  }

  lemma {:induction false} NoneAfter(bs: Buckets, es: seq<Event>, chat: int, lo: real, hi: real)
    requires Monotone(es) && (es != [] ==> es[0].now > hi)
    ensures GrantsTo(bs, es, chat, lo, hi) == 0
    decreases |es|
  {
    if es != [] {
      NoneAfter(Attempted(bs, es[0].chat, es[0].now), es[1..], chat, lo, hi);
    }
  }

  /** Levels stay between 0 and the burst. */
  predicate Sane(bs: Buckets) {
    forall c :: c in bs ==> 0.0 <= bs[c].tokens <= BURST
  }

  /** No window of length T sees more than 3 + T grants to one chat, whatever the other senders do. */
  lemma {:induction false} RateBound(bs: Buckets, es: seq<Event>, chat: int, lo: real, hi: real)
    requires Monotone(es) && Started(bs, es) && Sane(bs) && lo <= hi
    ensures GrantsTo(bs, es, chat, lo, hi) as real <= 3.0 + (hi - lo)
    decreases |es|
  {
    if es != [] {
      var e := es[0];
      var bs' := Attempted(bs, e.chat, e.now);
      StartedStep(bs, es);
      if e.now < lo || e.chat != chat {
        assert Sane(bs');
        RateBound(bs', es[1..], chat, lo, hi);
      } else if e.now <= hi {
        GrantsFrom(bs', es[1..], chat, e.now, hi);
        SameWindow(bs', es[1..], chat, lo, e.now, hi);
      } else {
        NoneAfter(bs, es, chat, lo, hi);
      }
    }
  }

  /** The bound is met: three attempts at once and one more each second are all granted. */
  lemma RateBoundIsTight(chat: int)
    ensures GrantsTo(map[], [Event(chat, 0.0), Event(chat, 0.0), Event(chat, 0.0), Event(chat, 1.0)], chat, 0.0, 1.0) == 4
  {
    var e0, e1 := Event(chat, 0.0), Event(chat, 1.0);
    var b1 := Attempted(map[], chat, 0.0);
    var b2 := Attempted(b1, chat, 0.0);
    var b3 := Attempted(b2, chat, 0.0);
    var es := [e0, e0, e0, e1];
    assert es[1..] == [e0, e0, e1] && es[1..][1..] == [e0, e1] && [e0, e1][1..] == [e1] && [e1][1..] == [];
    assert b3[chat] == Bucket(0.0, 0.0) && Grants(b3[chat], 1.0);
    assert GrantsTo(b3, [e1], chat, 0.0, 1.0) == 1;
    assert GrantsTo(b2, [e0, e1], chat, 0.0, 1.0) == 2;
    assert GrantsTo(b1, [e0, e0, e1], chat, 0.0, 1.0) == 3;
  }

  /**
   A sender without rivals asks for at most one second of sleep, once, and gets its token on the
   next pass however far it overslept. It is refused exactly if the refusal test is read so late that
   the sleep would end behind the deadline, which takes more than four seconds.
   */
  lemma LoneWaiter(bs: Buckets, chat: int, start: real, passes: seq<Pass>)
    requires Sane(bs) && |passes| >= 2 && passes[0].rivals == []
    requires chat in bs ==> bs[chat].last <= passes[0].now
    requires passes[0].now <= passes[0].check
    requires passes[0].check + (1.0 - Level(BucketOf(bs, chat, passes[0].now), passes[0].now)) <= passes[1].now
    ensures var b, now, check := BucketOf(bs, chat, passes[0].now), passes[0].now, passes[0].check;
            var need := 1.0 - Level(b, now);
            && need <= 1.0
            && (Wait(bs, chat, passes, start + MAX_WAIT).1 == Granted
                <==> need <= 0.0 || check + need <= start + 5.0)
            && (check - start <= 4.0 ==> Wait(bs, chat, passes, start + MAX_WAIT).1 == Granted)
  {
    var now := passes[0].now;
    var b := BucketOf(bs, chat, now);
    if !Grants(b, now) {
      var bs' := Attempted(bs, chat, now);
      assert bs'[chat] == Bucket(Level(b, now), now) && AllAttempted(bs', chat, []) == bs';
      assert Grants(bs'[chat], passes[1].now);
      assert passes[1..][0] == passes[1];
    }
  }

  /**
   How a wait ends without a token: cancelled only when its passes run out, and then no refusal test
   was read behind the deadline; refused only at a test that would sleep beyond it.
   */
  lemma {:induction false} WaitEnds(bs: Buckets, chat: int, passes: seq<Pass>, deadline: real)
    ensures var r := Wait(bs, chat, passes, deadline).1;
            && (passes == [] ==> r == Cancelled)
            && (r == Cancelled ==> forall i :: 0 <= i < |passes| ==> passes[i].check < deadline)
            && (passes != [] ==> var b, p := BucketOf(bs, chat, passes[0].now), passes[0];
                                 var need := 1.0 - Level(b, p.now);
                                 && (need <= 0.0 ==> r == Granted)
                                 && (need > 0.0 && p.check + need > deadline ==> r == Limited))
    decreases |passes|
  {
    if passes != [] {
      var p := passes[0];
      WaitEnds(AllAttempted(Attempted(bs, chat, p.now), chat, p.rivals), chat, passes[1..], deadline);
      assert forall i :: 0 < i < |passes| ==> passes[i] == passes[1..][i - 1];
    }
  }
}
