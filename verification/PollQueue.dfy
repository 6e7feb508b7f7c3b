/**
 What a device sees when it keeps polling.

 Its pending updates come out one per poll, oldest campaign first, and once none is pending every
 further poll repeats the oldest offer and changes nothing.
 */
module PollQueue {
  import opened Basics
  import opened CampaignState
  import opened Tables
  import opened Queries
  import opened CampaignOps
  import ServiceLaws

  /** The device's pending campaigns, oldest first. */
  ghost predicate IsQueue(db: Db, p: Id, d: Id, q: seq<Id>) {
    && (forall i :: 0 <= i < |q| ==> q[i] in Candidates(db, p, d, {Pending}))
    && ToSet(q) == Candidates(db, p, d, {Pending})
    && forall i, j :: 0 <= i < j < |q| ==> Older(db, q[i], q[j])
  }

  /** Polls at the given times, nothing else in between: the replies, and the tables left behind. */
  ghost function Replies(db: Db, p: Id, d: Id, times: seq<Time>): (r: seq<Option<OfferRow>>)
    ensures |r| == |times|
    decreases |times|
  {
    if times == [] then []
    else
      var first := BuildPollOffer(db, p, d, times[0]);
      [first.offer] + Replies(first.db, p, d, times[1..])
  }

  ghost function Final(db: Db, p: Id, d: Id, times: seq<Time>): Db
    decreases |times|
  {
    if times == [] then db else Final(BuildPollOffer(db, p, d, times[0]).db, p, d, times[1..])
  }

  lemma HeadIsOldest(db: Db, p: Id, d: Id, q: seq<Id>)
    requires q != [] && IsQueue(db, p, d, q)
    ensures q[0] in Candidates(db, p, d, {Pending})
    ensures FindOffer(db, p, d) == Some(RowFor(db, q[0], d))
  {
    var pending := Candidates(db, p, d, {Pending});
    assert q[0] in ToSet(q);
    forall x | x in pending
      ensures x == q[0] || Older(db, q[0], x)
    {
      assert x in ToSet(q);
      var i :| 0 <= i < |q| && q[i] == x;
    }
    OldestIsUnique(db, pending, q[0]);
  }

  /** Offering c takes it off the queue and leaves the set of open offers as it was. */
  lemma OfferingDequeues(db: Db, p: Id, d: Id, c: Id)
    requires c in Candidates(db, p, d, {Pending})
    ensures var db' := Offer(db, c, d);
            && db'.campaigns == db.campaigns && db'.firmwares == db.firmwares
            && Candidates(db', p, d, {Pending}) == Candidates(db, p, d, {Pending}) - {c}
            && Candidates(db', p, d, {Pending, Offered}) == Candidates(db, p, d, {Pending, Offered})
  {
  }

  /** One poll on a non-empty queue. */
  lemma PollDequeues(db: Db, p: Id, d: Id, q: seq<Id>, now: Time)
    requires q != [] && IsQueue(db, p, d, q)
    ensures var r := BuildPollOffer(db, p, d, now);
            && q[0] in Candidates(db, p, d, {Pending})
            && r.offer == Some(RowFor(db, q[0], d)) && r.offer.value.status == Pending
            && r.db == Offer(db, q[0], d)
            && IsQueue(r.db, p, d, q[1..])
            && r.db.campaigns == db.campaigns
            && Candidates(r.db, p, d, {Pending, Offered}) == Candidates(db, p, d, {Pending, Offered})
  {
    HeadIsOldest(db, p, d, q);
    ServiceLaws.PollNeverCompletes(db, p, d, now);
    OfferingDequeues(db, p, d, q[0]);
    TailWithoutHead(db, q);
    forall i | 0 <= i < |q[1..]|
      ensures q[1..][i] in Candidates(Offer(db, q[0], d), p, d, {Pending})
    {
      assert q[1..][i] in ToSet(q[1..]);
    }
  }

  lemma TailWithoutHead(db: Db, q: seq<Id>)
    requires q != []
    requires forall x | x in q :: x in db.campaigns
    requires forall i, j :: 0 <= i < j < |q| ==> Older(db, q[i], q[j])
    ensures ToSet(q[1..]) == ToSet(q) - {q[0]}
  {
    forall x: Id
      ensures x in ToSet(q[1..]) <==> x in ToSet(q) - {q[0]}
    {
      if x in q[1..] {
        var i :| 0 <= i < |q| - 1 && q[1..][i] == x;
        assert Older(db, q[0], q[i + 1]);
      }
    }
  }

  /** A poll with nothing pending repeats itself. */
  lemma PollRepeats(db: Db, p: Id, d: Id, now: Time)
    requires Candidates(db, p, d, {Pending}) == {}
    ensures var r := BuildPollOffer(db, p, d, now); r.db == db && r.offer == FindOffer(db, p, d)
  {
    if FindOffer(db, p, d).Some? {
      ServiceLaws.PollNeverCompletes(db, p, d, now);
    }
  }

  lemma {:induction false} PollsRepeat(db: Db, p: Id, d: Id, times: seq<Time>)
    requires Candidates(db, p, d, {Pending}) == {}
    ensures Final(db, p, d, times) == db
    ensures forall i :: 0 <= i < |times| ==> Replies(db, p, d, times)[i] == FindOffer(db, p, d)
    decreases |times|
  {
    if times != [] {
      PollRepeats(db, p, d, times[0]);
      PollsRepeat(db, p, d, times[1..]);
    }
  }

  /** What a device with nothing pending is told, in terms of what it had open. */
  lemma StandingOffer(db: Db, p: Id, d: Id)
    requires Candidates(db, p, d, {Pending}) == {}
    ensures Candidates(db, p, d, {Offered}) == Candidates(db, p, d, {Pending, Offered})
  {
    forall c | c in Candidates(db, p, d, {Pending, Offered})
      ensures c in Candidates(db, p, d, {Offered})
    {
      assert c !in Candidates(db, p, d, {Pending});
    }
  }

  /** What the standing offer of the device is: none, or its oldest open campaign. */
  ghost predicate Repeats(db: Db, p: Id, d: Id, reply: Option<OfferRow>) {
    var open := Candidates(db, p, d, {Pending, Offered});
    if open == {} then reply == None
    else reply.Some? && reply.value.campaign == Oldest(db, open) && reply.value.status == Offered
  }

  lemma OldestIgnoresAssignments(a: Db, b: Db, s: set<Id>)
    requires a.campaigns == b.campaigns && s <= a.campaigns.Keys && s != {}
    ensures Oldest(a, s) == Oldest(b, s)
  {
    OldestIsUnique(b, s, Oldest(a, s));
  }

  lemma StandingReply(db: Db, later: Db, p: Id, d: Id)
    requires later.campaigns == db.campaigns
    requires Candidates(later, p, d, {Pending}) == {}
    requires Candidates(later, p, d, {Pending, Offered}) == Candidates(db, p, d, {Pending, Offered})
    ensures Repeats(db, p, d, FindOffer(later, p, d))
  {
    StandingOffer(later, p, d);
    var open := Candidates(db, p, d, {Pending, Offered});
    if open != {} {
      OldestIgnoresAssignments(db, later, open);
    }
  }

  /**
   Main result: m pending updates are the replies to the first m polls, in queue order; every later
   poll is answered with the device's oldest open offer.
   */
  lemma {:induction false} QueueLaw(db: Db, p: Id, d: Id, q: seq<Id>, times: seq<Time>, i: nat)
    requires IsQueue(db, p, d, q) && i < |times|
    ensures i < |q| ==> Replies(db, p, d, times)[i].Some?
                        && Replies(db, p, d, times)[i].value.campaign == q[i]
                        && Replies(db, p, d, times)[i].value.status == Pending
    ensures i >= |q| ==> Repeats(db, p, d, Replies(db, p, d, times)[i])
    decreases |times|
  {
    if q == [] {
      assert Candidates(db, p, d, {Pending}) == {} by { assert ToSet(q) == {}; }
      PollsRepeat(db, p, d, times);
      StandingReply(db, db, p, d);
    } else {
      PollDequeues(db, p, d, q, times[0]);
      var db' := BuildPollOffer(db, p, d, times[0]).db;
      if i > 0 {
        QueueLaw(db', p, d, q[1..], times[1..], i - 1);
        assert Replies(db, p, d, times)[i] == Replies(db', p, d, times[1..])[i - 1];
        var open := Candidates(db, p, d, {Pending, Offered});
        if open != {} {
          OldestIgnoresAssignments(db, db', open);
        }
      }
    }
  }

  /** The campaign of a was created before that of b, or at the same instant under the smaller id. */
  predicate CreatedBefore(db: Db, a: OfferRow, b: OfferRow) {
    && a.campaign in db.campaigns && b.campaign in db.campaigns
    && (db.campaigns[a.campaign].createdAt < db.campaigns[b.campaign].createdAt
        || (db.campaigns[a.campaign].createdAt == db.campaigns[b.campaign].createdAt && a.campaign < b.campaign))
  }

  /** Of two replies that each announce something new, the earlier one is about the earlier campaign. */
  lemma NewRepliesComeInOrder(db: Db, p: Id, d: Id, times: seq<Time>, i: nat, j: nat)
    requires i < j < |times|
    requires Replies(db, p, d, times)[j].Some? && Replies(db, p, d, times)[j].value.status == Pending
    ensures var first := Replies(db, p, d, times)[i];
            first.Some? && first.value.status == Pending && CreatedBefore(db, first.value, Replies(db, p, d, times)[j].value)
  {
    QueueExists(db, p, d);
    var q :| IsQueue(db, p, d, q);
    QueueLaw(db, p, d, q, times, i);
    QueueLaw(db, p, d, q, times, j);
    assert Older(db, q[i], q[j]);
  }

  /** Polling never changes a campaign, and after the queue is drained it changes nothing at all. */
  lemma {:induction false} DrainedPollsChangeNothing(db: Db, p: Id, d: Id, q: seq<Id>, times: seq<Time>, more: seq<Time>)
    requires IsQueue(db, p, d, q) && |times| >= |q|
    ensures Final(db, p, d, times).campaigns == db.campaigns
    ensures Final(Final(db, p, d, times), p, d, more) == Final(db, p, d, times)
    decreases |times|
  {
    if q == [] {
      assert Candidates(db, p, d, {Pending}) == {} by { assert ToSet(q) == {}; }
      PollsRepeat(db, p, d, times);
      PollsRepeat(db, p, d, more);
    } else {
      PollDequeues(db, p, d, q, times[0]);
      DrainedPollsChangeNothing(BuildPollOffer(db, p, d, times[0]).db, p, d, q[1..], times[1..], more);
    }
  }

  /** The queue of a device always exists, so the two laws speak of every state. */
  lemma QueueExists(db: Db, p: Id, d: Id)
    ensures exists q :: IsQueue(db, p, d, q)
  {
    var pending := Candidates(db, p, d, {Pending});
    var q := Enqueue(db, pending);
    forall i | 0 <= i < |q|
      ensures q[i] in pending
    {
      assert q[i] in ToSet(q);
    }
    assert IsQueue(db, p, d, q);
  }

  lemma {:induction false} Enqueue(db: Db, s: set<Id>) returns (q: seq<Id>)
    requires s <= db.campaigns.Keys
    ensures ToSet(q) == s && forall x | x in q :: x in db.campaigns
    ensures forall i, j :: 0 <= i < j < |q| ==> Older(db, q[i], q[j])
    decreases s
  {
    if s == {} {
      q := [];
    } else {
      var c := Oldest(db, s);
      var rest := Enqueue(db, s - {c});
      q := [c] + rest;
      forall j | 0 < j < |q|
        ensures Older(db, q[0], q[j])
      {
        assert q[j] in ToSet(rest);
      }
      assert ToSet(q) == {c} + ToSet(rest);
    }
  }
}
