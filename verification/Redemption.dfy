/**
 A download token is good for one download, however many race for it.

 The redeeming transaction reads the token, then the device, then sets consumed_at where it is
 still NULL. The three statements are separate steps here, so any number of downloads may all
 have read the token as unconsumed before the first of them writes.
 */
module Redemption {
  import opened Basics
  import opened Tables
  import opened Queries
  import opened Evolution
  import opened Machine
  import opened System
  import opened Provenance

  /** The token an operation has redeemed, if it has. */
  function Redeemed(pc: Pc): Option<Bytes> {
    if pc.DownloadFirmware? then Some(pc.hash)
    else if pc.Done? && (pc.outcome.Served? || pc.outcome.Burned?) then Some(pc.outcome.hash)
    else None
  }

  function RedeemedAt(pc: Pc): Time
    requires Redeemed(pc).Some?
  {
    if pc.DownloadFirmware? then pc.now else pc.outcome.at
  }

  /** A row read at time now, before its expiry. */
  ghost predicate ReadInTime(s: Sys, hash: Bytes, token: OtaToken, now: Time) {
    TokenSeen(s.db, hash, token) && now < token.expiresAt && now <= s.clock
  }

  /** What the tables show of a successful redemption. */
  ghost predicate Redeemable(s: Sys, hash: Bytes, at: Time) {
    hash in s.db.otaTokens && var t := s.db.otaTokens[hash];
    t.consumedAt == Some(at) && at < t.expiresAt && at <= s.clock
  }

  ghost predicate KnowsRedemption(s: Sys, pc: Pc) {
    && (pc.DownloadRow? ==> pc.now <= s.clock)
    && (pc.DownloadDevice? ==> ReadInTime(s, pc.hash, pc.token, pc.now))
    && (pc.DownloadConsume? ==> ReadInTime(s, pc.hash, pc.token, pc.now))
    && (Redeemed(pc).Some? ==> Redeemable(s, Redeemed(pc).value, RedeemedAt(pc)))
  }

  ghost predicate Exclusive(s: Sys) {
    forall a, b | a in s.ops && b in s.ops && a != b && Redeemed(s.ops[a]).Some? ::
      Redeemed(s.ops[a]) != Redeemed(s.ops[b])
  }

  ghost predicate Accounted(s: Sys) {
    forall h | h in s.db.otaTokens && s.db.otaTokens[h].consumedAt.Some? ::
      exists op :: op in s.ops && Redeemed(s.ops[op]) == Some(h)
  }

  ghost predicate Sound(s: Sys) {
    (forall op | op in s.ops :: KnowsRedemption(s, s.ops[op])) && Exclusive(s) && Accounted(s)
  }

  // ---------------------------------------------------------------------------
  // One step
  // ---------------------------------------------------------------------------

  /** A later state: tables evolved, clock not turned back. */
  ghost predicate LaterThan(s: Sys, s': Sys) {
    TokensEvolve(s.db, s'.db) && s.clock <= s'.clock
  }

  lemma RedeemableIsStable(s: Sys, s': Sys, hash: Bytes, at: Time)
    requires LaterThan(s, s') && Redeemable(s, hash, at)
    ensures Redeemable(s', hash, at)
  {
  }

  lemma KnowledgeIsStable(s: Sys, s': Sys, pc: Pc)
    requires LaterThan(s, s') && KnowsRedemption(s, pc)
    ensures KnowsRedemption(s', pc)
  {
    if Redeemed(pc).Some? {
      RedeemableIsStable(s, s', Redeemed(pc).value, RedeemedAt(pc));
    }
  }

  lemma StepIsLater(s: Sys, e: Event)
    requires Enabled(s, e)
    ensures LaterThan(s, Execute(s, e))
  {
    EveryStepGuarantees(s, e);
  }

  lemma OnlyConsumeConsumes(db: Db, w: Write, h: Bytes)
    requires h in Apply(db, w).otaTokens && Apply(db, w).otaTokens[h].consumedAt.Some?
    requires w.WToken? ==> w.token.consumedAt.None?
    ensures (h in db.otaTokens && db.otaTokens[h].consumedAt.Some?) || (w.WConsume? && w.hash == h)
  {
  }

  /** A download learns from its own reads and its own write. */
  lemma DownloadingLearns(s: Sys, op: nat)
    requires Enabled(s, Run(op)) && Downloading(s.ops[op])
    requires KnowsRedemption(s, s.ops[op])
    ensures KnowsRedemption(Execute(s, Run(op)), DownloadMove(s.db, s.ops[op]).pc)
  {
    if s.ops[op].DownloadFirmware? {
      RedeemableIsStable(s, Execute(s, Run(op)), s.ops[op].hash, s.ops[op].now);
    }
  }

  /** No other operation redeems, or pretends to. */
  ghost predicate LeavesTokensAlone(move: Move) {
    !move.write.WConsume? && !Downloading(move.pc) && Redeemed(move.pc).None?
    && (move.write.WToken? ==> move.write.token.consumedAt.None?)
  }

  lemma RolloutMovesDoNotRedeem(db: Db, clock: Time, pc: Pc)
    requires Polling(pc) || Completing(pc) || Reporting(pc)
    ensures LeavesTokensAlone(StepOf(db, clock, pc))
  {
  }

  lemma OthersDoNotRedeem(db: Db, clock: Time, pc: Pc)
    requires !pc.Done? && !Downloading(pc)
    ensures LeavesTokensAlone(StepOf(db, clock, pc))
  {
    if Polling(pc) || Completing(pc) || Reporting(pc) {
      RolloutMovesDoNotRedeem(db, clock, pc);
    }
  }

  lemma StepLearns(s: Sys, e: Event, op: nat)
    requires Enabled(s, e)
    requires forall o | o in s.ops :: KnowsRedemption(s, s.ops[o])
    requires op in Execute(s, e).ops
    ensures KnowsRedemption(Execute(s, e), Execute(s, e).ops[op])
  {
    StepIsLater(s, e);
    if e.Run? && e.op == op {
      if Downloading(s.ops[op]) {
        DownloadingLearns(s, op);
      } else {
        OthersDoNotRedeem(s.db, s.clock, s.ops[op]);
      }
    } else if op in s.ops {
      KnowledgeIsStable(s, Execute(s, e), s.ops[op]);
    }
  }

  /** An operation redeems by the compare-and-set alone, and never forgets that it did. */
  lemma RedeemingIsConsuming(db: Db, clock: Time, pc: Pc)
    requires !pc.Done?
    ensures var move := StepOf(db, clock, pc);
            && (Redeemed(pc).Some? ==> Redeemed(move.pc) == Redeemed(pc))
            && (Redeemed(pc).None? && Redeemed(move.pc).Some? ==>
                  Unconsumed(db, Redeemed(move.pc).value))
            && (move.write.WConsume? ==> Redeemed(move.pc) == Some(move.write.hash))
            && (move.write.WToken? ==> move.write.token.consumedAt.None?)
  {
    if !Downloading(pc) {
      OthersDoNotRedeem(db, clock, pc);
    }
  }

  lemma RedeemedIsConsumed(s: Sys)
    requires forall op | op in s.ops :: KnowsRedemption(s, s.ops[op])
    ensures forall o | o in s.ops && Redeemed(s.ops[o]).Some? :: !Unconsumed(s.db, Redeemed(s.ops[o]).value)
  {
    forall o | o in s.ops && Redeemed(s.ops[o]).Some?
      ensures !Unconsumed(s.db, Redeemed(s.ops[o]).value)
    {
      assert KnowsRedemption(s, s.ops[o]);
    }
  }

  lemma StepIsExclusive(s: Sys, e: Event)
    requires Enabled(s, e) && Exclusive(s)
    requires forall o | o in s.ops && Redeemed(s.ops[o]).Some? :: !Unconsumed(s.db, Redeemed(s.ops[o]).value)
    ensures Exclusive(Execute(s, e))
  {
    if e.Run? {
      RedeemingIsConsuming(s.db, s.clock, s.ops[e.op]);
    }
  }

  lemma StepIsAccounted(s: Sys, e: Event)
    requires Enabled(s, e) && Sound(s)
    ensures Accounted(Execute(s, e))
  {
    var s' := Execute(s, e);
    if e.Run? {
      RedeemingIsConsuming(s.db, s.clock, s.ops[e.op]);
    }
    forall h | h in s'.db.otaTokens && s'.db.otaTokens[h].consumedAt.Some?
      ensures exists op :: op in s'.ops && Redeemed(s'.ops[op]) == Some(h)
    {
      if e.Run? {
        OnlyConsumeConsumes(s.db, StepOf(s.db, s.clock, s.ops[e.op]).write, h);
      }
      if h in s.db.otaTokens && s.db.otaTokens[h].consumedAt.Some? {
        var op :| op in s.ops && Redeemed(s.ops[op]) == Some(h);
        assert Redeemed(s'.ops[op]) == Some(h);
      } else {
        assert Redeemed(s'.ops[e.op]) == Some(h);
      }
    }
  }

  // ---------------------------------------------------------------------------
  // Runs
  // ---------------------------------------------------------------------------

  lemma {:induction false} RunsAreSound(events: seq<Event>)
    requires IsRun(events)
    ensures Sound(EndOf(events))
  {
    if events != [] {
      var s, e := EndOf(events[..|events| - 1]), events[|events| - 1];
      RunsAreSound(events[..|events| - 1]);
      forall op | op in Execute(s, e).ops
        ensures KnowsRedemption(Execute(s, e), Execute(s, e).ops[op])
      {
        StepLearns(s, e, op);
      }
      RedeemedIsConsumed(s);
      StepIsExclusive(s, e);
      StepIsAccounted(s, e);
    }
  }

  /** Main result: a token is consumed if and only if exactly one operation of the run redeemed it. */
  lemma ConsumedExactlyOnce(events: seq<Event>, h: Bytes)
    requires IsRun(events) && h in EndOf(events).db.otaTokens
    ensures var s := EndOf(events);
            s.db.otaTokens[h].consumedAt.Some? <==>
            exists op :: op in s.ops && Redeemed(s.ops[op]) == Some(h)
                         && forall o | o in s.ops && Redeemed(s.ops[o]) == Some(h) :: o == op
  {
    RunsAreSound(events);
    var s := EndOf(events);
    if s.db.otaTokens[h].consumedAt.Some? {
      var op :| op in s.ops && Redeemed(s.ops[op]) == Some(h);
      forall o | o in s.ops && Redeemed(s.ops[o]) == Some(h)
        ensures o == op
      {
      }
    }
    forall op | op in s.ops && Redeemed(s.ops[op]) == Some(h)
      ensures s.db.otaTokens[h].consumedAt.Some?
    {
      assert KnowsRedemption(s, s.ops[op]);
    }
  }

  // ---------------------------------------------------------------------------
  // The history of one redemption
  // ---------------------------------------------------------------------------

  /** Where in the run a redemption began, read the token's row, read the device and wrote. */
  datatype Account = Account(begin: nat, row: nat, device: nat, write: nat, token: OtaToken)

  /** The operation redeemed hash, with the clock reading at of its own beginning, by its own four events. */
  ghost predicate Legitimate(events: seq<Event>, op: nat, hash: Bytes, at: Time, a: Account)
    requires IsRun(events)
  {
    && a.begin < a.row < a.device < a.write < |events|
    && events[a.begin] == Begin(op, DownloadRow(hash, at)) && StateAt(events, a.begin).clock == at
    && events[a.row] == Run(op) && Unconsumed(StateAt(events, a.row).db, hash)
    && a.token == StateAt(events, a.row).db.otaTokens[hash] && at < a.token.expiresAt
    && events[a.device] == Run(op) && MayDownload(StateAt(events, a.device).db, a.token.project, a.token.device)
    && events[a.write] == Run(op) && Unconsumed(StateAt(events, a.write).db, hash)
    && StateAt(events, a.write + 1).db == Consume(StateAt(events, a.write).db, hash, at)
  }

  ghost predicate At(events: seq<Event>, n: nat, op: nat, pc: Pc)
    requires IsRun(events) && n <= |events|
  {
    op in StateAt(events, n).ops && StateAt(events, n).ops[op] == pc
  }

  /** Which step leads to each counter of a download. */
  lemma DownloadOrigins(db: Db, clock: Time, pc: Pc)
    requires !pc.Done?
    ensures var next := StepOf(db, clock, pc).pc;
            && !next.DownloadRow?
            && (next.DownloadDevice? ==>
                  pc == DownloadRow(next.hash, next.now) && Unconsumed(db, next.hash)
                  && next.token == db.otaTokens[next.hash] && next.now < next.token.expiresAt)
            && (next.DownloadConsume? ==>
                  pc == DownloadDevice(next.hash, next.token, next.now) && MayDownload(db, next.token.project, next.token.device))
            && (next.DownloadFirmware? ==>
                  pc == DownloadConsume(next.hash, next.token, next.now) && Unconsumed(db, next.hash)
                  && StepOf(db, clock, pc).write == WConsume(next.hash, next.now))
            && (next.Done? && Redeemed(next).Some? ==>
                  pc.DownloadFirmware? && pc.hash == Redeemed(next).value && pc.now == RedeemedAt(next))
  {
    if !Downloading(pc) {
      OthersDoNotRedeem(db, clock, pc);
    }
  }

  lemma {:induction false} StepBack(events: seq<Event>, n: nat, op: nat, pc: Pc) returns (k: nat, before: Pc)
    requires IsRun(events) && n <= |events| && At(events, n, op, pc) && !IsStart(pc, StateAt(events, n).clock) && !pc.DownloadRow?
    requires Downloading(pc) || Redeemed(pc).Some?
    ensures k < n && events[k] == Run(op) && At(events, k, op, before) && !before.Done?
    ensures var s := StateAt(events, k); StepOf(s.db, s.clock, before).pc == pc
  {
    k := LastMove(events, n, op);
    StateAtSteps(events, k);
    before := StateAt(events, k).ops[op];
  }

  lemma {:induction false} BeginOf(events: seq<Event>, n: nat, op: nat, hash: Bytes, at: Time) returns (k: nat)
    requires IsRun(events) && n <= |events| && At(events, n, op, DownloadRow(hash, at))
    ensures k < n && events[k] == Begin(op, DownloadRow(hash, at)) && StateAt(events, k).clock == at
  {
    k := LastMove(events, n, op);
    StateAtSteps(events, k);
    var s := StateAt(events, k);
    if events[k].Run? {
      DownloadOrigins(s.db, s.clock, s.ops[op]);
    }
  }

  lemma {:induction false} RowReading(events: seq<Event>, n: nat, op: nat, hash: Bytes, token: OtaToken, at: Time) returns (k: nat)
    requires IsRun(events) && n <= |events| && At(events, n, op, DownloadDevice(hash, token, at))
    ensures k < n && events[k] == Run(op) && At(events, k, op, DownloadRow(hash, at))
    ensures var db := StateAt(events, k).db; Unconsumed(db, hash) && token == db.otaTokens[hash] && at < token.expiresAt
  {
    var before;
    k, before := StepBack(events, n, op, DownloadDevice(hash, token, at));
    DownloadOrigins(StateAt(events, k).db, StateAt(events, k).clock, before);
  }

  lemma {:induction false} DeviceReading(events: seq<Event>, n: nat, op: nat, hash: Bytes, token: OtaToken, at: Time) returns (k: nat)
    requires IsRun(events) && n <= |events| && At(events, n, op, DownloadConsume(hash, token, at))
    ensures k < n && events[k] == Run(op) && At(events, k, op, DownloadDevice(hash, token, at))
    ensures MayDownload(StateAt(events, k).db, token.project, token.device)
  {
    var before;
    k, before := StepBack(events, n, op, DownloadConsume(hash, token, at));
    DownloadOrigins(StateAt(events, k).db, StateAt(events, k).clock, before);
  }

  lemma {:induction false} Consumption(events: seq<Event>, n: nat, op: nat, hash: Bytes, token: OtaToken, at: Time) returns (k: nat)
    requires IsRun(events) && n <= |events| && At(events, n, op, DownloadFirmware(hash, token, at))
    ensures k < n && events[k] == Run(op) && At(events, k, op, DownloadConsume(hash, token, at))
    ensures Unconsumed(StateAt(events, k).db, hash)
    ensures StateAt(events, k + 1).db == Consume(StateAt(events, k).db, hash, at)
  {
    var before;
    k, before := StepBack(events, n, op, DownloadFirmware(hash, token, at));
    DownloadOrigins(StateAt(events, k).db, StateAt(events, k).clock, before);
    StateAtSteps(events, k);
  }

  lemma {:induction false} WriteHasAccount(events: seq<Event>, n: nat, op: nat, hash: Bytes, token: OtaToken, at: Time) returns (a: Account)
    requires IsRun(events) && n <= |events| && At(events, n, op, DownloadFirmware(hash, token, at))
    ensures Legitimate(events, op, hash, at, a)
  {
    var write := Consumption(events, n, op, hash, token, at);
    var device := DeviceReading(events, write, op, hash, token, at);
    var row := RowReading(events, device, op, hash, token, at);
    var begin := BeginOf(events, row, op, hash, at);
    a := Account(begin, row, device, write, token);
  }

  /**
   Main result: every redemption is made by one operation that, after its own beginning and in this
   order, read the token unconsumed and still in time, saw its device in the project and unblocked,
   and took the token from unconsumed to consumed.
   */
  lemma {:induction false} RedemptionWasLegitimate(events: seq<Event>, op: nat) returns (a: Account)
    requires IsRun(events) && op in EndOf(events).ops && Redeemed(EndOf(events).ops[op]).Some?
    ensures var pc := EndOf(events).ops[op];
            && Legitimate(events, op, Redeemed(pc).value, RedeemedAt(pc), a)
            && Redeemable(EndOf(events), Redeemed(pc).value, RedeemedAt(pc))
            && SameToken(a.token, EndOf(events).db.otaTokens[Redeemed(pc).value])
  {
    RunsAreSound(events);
    StateAtEnd(events);
    var pc := EndOf(events).ops[op];
    assert KnowsRedemption(EndOf(events), pc);
    if pc.DownloadFirmware? {
      a := WriteHasAccount(events, |events|, op, pc.hash, pc.token, pc.now);
    } else {
      var k, before := StepBack(events, |events|, op, pc);
      DownloadOrigins(StateAt(events, k).db, StateAt(events, k).clock, before);
      a := WriteHasAccount(events, k, op, before.hash, before.token, before.now);
    }
    StateAtEvolves(events, a.row, |events|);
  }

  /** A consumed token can never be redeemed again, at any later point of any continuation. */
  lemma ConsumedForever(events: seq<Event>, i: nat, j: nat, h: Bytes)
    requires IsRun(events) && i <= j < |EndOf(events).trace|
    requires var before := EndOf(events).trace[i]; h in before.otaTokens && before.otaTokens[h].consumedAt.Some?
    ensures var after := EndOf(events).trace[j];
            h in after.otaTokens && after.otaTokens[h].consumedAt == EndOf(events).trace[i].otaTokens[h].consumedAt
            && !Unconsumed(after, h)
  {
    RunsAreTraced(events);
    TraceEvolves(EndOf(events), i, j);
  }
}
