/**
 Where served firmware comes from.

 From the moment a campaign is created, through polls and token issue, to the redemption of a
 download token, every hand-over is made on reads that may be stale. Whatever the interleaving,
 the firmware a token serves is that of a campaign the device was offered, in the device's own
 project, and built for the device's type.
 */
module Provenance {
  import opened Basics
  import opened CampaignState
  import opened Tables
  import opened Queries
  import opened Evolution
  import opened Machine
  import opened System
  import opened AssignmentHistory

  /** Device d is a legitimate target of a campaign of project p that ships firmware f. */
  predicate Compatible(db: Db, p: Id, f: Id, d: Id) {
    f in db.firmwares && db.firmwares[f].project == p
    && DeviceIn(db, p, d) && db.devices[d].deviceType in db.firmwares[f].deviceTypes
  }

  ghost predicate AssignmentsCompatible(db: Db) {
    forall t | t in db.assignments ::
      t.campaign in db.campaigns
      && Compatible(db, db.campaigns[t.campaign].project, db.campaigns[t.campaign].firmware, t.device)
  }

  predicate Assignee(db: Db, p: Id, d: Id, c: Id, f: Id) {
    CampaignIn(db, p, c) && db.campaigns[c].firmware == f && Target(c, d) in db.assignments
  }

  /** The device has been offered firmware f by campaign c. */
  predicate OfferedTo(db: Db, p: Id, d: Id, c: Id, f: Id) {
    Assignee(db, p, d, c, f) && Rank(db.assignments[Target(c, d)].status) >= 1
  }

  ghost predicate TokensOffered(db: Db) {
    forall h | h in db.otaTokens ::
      var t := db.otaTokens[h]; OfferedTo(db, t.project, t.device, t.campaign, t.firmware)
  }

  predicate TokenSeen(db: Db, hash: Bytes, token: OtaToken) {
    hash in db.otaTokens && SameToken(token, db.otaTokens[hash])
  }

  predicate FirmwareOf(db: Db, input: CreateInput) {
    input.firmware in db.firmwares && db.firmwares[input.firmware].project == input.project
  }

  predicate TypesOf(db: Db, input: CreateInput, types: set<Id>) {
    FirmwareOf(db, input) && db.firmwares[input.firmware].deviceTypes == types
  }

  predicate KnowsNext(db: Db, p: Id, c: Id, next: Next) {
    next.AfterPoll? ==> next.row.campaign == c && OfferedTo(db, p, next.device, c, next.row.firmware)
  }

  /** What polls still know once they have read the offer. */
  ghost predicate KnowsOffer(db: Db, pc: Pc) {
    && (pc.PollOffer? ==> Assignee(db, pc.p, pc.d, pc.row.campaign, pc.row.firmware))
    && (pc.IssueCheck? ==> OfferedTo(db, pc.p, pc.d, pc.row.campaign, pc.row.firmware))
    && (pc.IssueInsert? ==> OfferedTo(db, pc.p, pc.d, pc.row.campaign, pc.row.firmware))
    && (Completing(pc) ==> KnowsNext(db, pc.p, pc.c, pc.next))
  }

  /** What a creation still knows about the firmware and the devices it read. */
  ghost predicate KnowsScope(db: Db, pc: Pc) {
    && (pc.CreateTypes? ==> FirmwareOf(db, pc.input))
    && (pc.CreateFromGroups? ==> TypesOf(db, pc.input, pc.types))
    && (pc.CreateFromExplicit? ==> TypesOf(db, pc.input, pc.types))
    && (pc.CreateFilter? ==> TypesOf(db, pc.input, pc.types))
    && (pc.CreateInsert? ==> DraftSound(db, pc.draft, pc.chosen))
  }

  /** What a download still knows about the token row it read. */
  ghost predicate KnowsToken(db: Db, pc: Pc) {
    && (pc.DownloadDevice? ==> TokenSeen(db, pc.hash, pc.token))
    && (pc.DownloadConsume? ==> TokenSeen(db, pc.hash, pc.token))
    && (pc.DownloadFirmware? ==> TokenSeen(db, pc.hash, pc.token))
    && (pc.Done? && pc.outcome.Served? ==> ServedFrom(db, pc.outcome.hash, pc.outcome.firmware))
  }

  ghost predicate Knows(db: Db, pc: Pc) {
    KnowsOffer(db, pc) && KnowsScope(db, pc) && KnowsToken(db, pc)
  }

  ghost predicate DraftSound(db: Db, draft: Campaign, chosen: seq<Id>) {
    forall d | d in chosen :: Compatible(db, draft.project, draft.firmware, d)
  }

  predicate ServedFrom(db: Db, hash: Bytes, f: Id) {
    hash in db.otaTokens && db.otaTokens[hash].firmware == f
  }

  ghost predicate Justified(db: Db, w: Write) {
    match w
    case WBundle(_, draft, _, _, chosen) => DraftSound(db, draft, chosen)
    case WToken(_, t) => OfferedTo(db, t.project, t.device, t.campaign, t.firmware)
    case _ => true
  }

  // ---------------------------------------------------------------------------
  // Stability
  // ---------------------------------------------------------------------------

  lemma CompatibleIsStable(a: Db, b: Db, p: Id, f: Id, d: Id)
    requires CatalogEvolves(a, b) && Compatible(a, p, f, d)
    ensures Compatible(b, p, f, d)
  {
  }

  lemma OfferedToIsStable(a: Db, b: Db, p: Id, d: Id, c: Id, f: Id)
    requires Evolves(a, b) && Assignee(a, p, d, c, f)
    ensures Assignee(b, p, d, c, f)
    ensures OfferedTo(a, p, d, c, f) ==> OfferedTo(b, p, d, c, f)
  {
    assert Rank(a.assignments[Target(c, d)].status) <= Rank(b.assignments[Target(c, d)].status);
  }

  lemma NextIsStable(a: Db, b: Db, p: Id, c: Id, next: Next)
    requires Evolves(a, b) && KnowsNext(a, p, c, next)
    ensures KnowsNext(b, p, c, next)
  {
    if next.AfterPoll? {
      OfferedToIsStable(a, b, p, next.device, c, next.row.firmware);
    }
  }

  lemma DraftIsStable(a: Db, b: Db, draft: Campaign, chosen: seq<Id>)
    requires CatalogEvolves(a, b) && DraftSound(a, draft, chosen)
    ensures DraftSound(b, draft, chosen)
  {
    forall d | d in chosen
      ensures Compatible(b, draft.project, draft.firmware, d)
    {
      CompatibleIsStable(a, b, draft.project, draft.firmware, d);
    }
  }

  lemma OfferKnowledgeIsStable(a: Db, b: Db, pc: Pc)
    requires Evolves(a, b) && KnowsOffer(a, pc)
    ensures KnowsOffer(b, pc)
  {
    if pc.PollOffer? || pc.IssueCheck? || pc.IssueInsert? {
      OfferedToIsStable(a, b, pc.p, pc.d, pc.row.campaign, pc.row.firmware);
    } else if Completing(pc) {
      NextIsStable(a, b, pc.p, pc.c, pc.next);
    }
  }

  lemma ScopeKnowledgeIsStable(a: Db, b: Db, pc: Pc)
    requires CatalogEvolves(a, b) && KnowsScope(a, pc)
    ensures KnowsScope(b, pc)
  {
    if pc.CreateInsert? {
      DraftIsStable(a, b, pc.draft, pc.chosen);
    }
  }

  lemma TokenKnowledgeIsStable(a: Db, b: Db, pc: Pc)
    requires TokensEvolve(a, b) && KnowsToken(a, pc)
    ensures KnowsToken(b, pc)
  {
  }

  lemma KnowledgeIsStable(a: Db, b: Db, pc: Pc)
    requires Evolves(a, b) && Knows(a, pc)
    ensures Knows(b, pc)
  {
    OfferKnowledgeIsStable(a, b, pc);
    ScopeKnowledgeIsStable(a, b, pc);
    TokenKnowledgeIsStable(a, b, pc);
  }

  // ---------------------------------------------------------------------------
  // Decisions
  // ---------------------------------------------------------------------------

  /** The offer query only returns the device's own assignment in a campaign of its project. */
  lemma FoundIsAssignee(db: Db, p: Id, d: Id)
    requires FindOffer(db, p, d).Some?
    ensures var row := FindOffer(db, p, d).value;
            Assignee(db, p, d, row.campaign, row.firmware) && row.status == db.assignments[Target(row.campaign, d)].status
  {
  }

  lemma FilterIsSound(db: Db, clock: Time, input: CreateInput, types: set<Id>, ids: set<Id>)
    requires TypesOf(db, input, types)
    ensures var chosen := ChosenFrom(input, CompatibleDevices(db, input.project, ids, types));
            DraftSound(db, NewCampaign(input, |chosen|, clock), chosen)
  {
    var compatible := CompatibleDevices(db, input.project, ids, types);
    ChosenFromIsSelection(input, compatible);
    forall d | d in ChosenFrom(input, compatible)
      ensures Compatible(db, input.project, input.firmware, d)
    {
      assert d in ToSet(ChosenFrom(input, compatible));
    }
  }

  lemma PollDecisions(db: Db, clock: Time, pc: Pc)
    requires Polling(pc)
    requires Knows(db, pc)
    ensures var move := PollMove(db, clock, pc);
            Justified(db, move.write) && Knows(Apply(db, move.write), move.pc)
  {
    if pc.PollFind? && FindOffer(db, pc.p, pc.d).Some? {
      FoundIsAssignee(db, pc.p, pc.d);
    }
  }

  lemma CompleteDecisions(db: Db, clock: Time, pc: Pc)
    requires Completing(pc)
    requires Knows(db, pc)
    ensures Justified(db, CompleteMove(db, clock, pc).write) && Knows(db, CompleteMove(db, clock, pc).pc)
  {
  }

  lemma CreateDecisions(db: Db, clock: Time, pc: Pc)
    requires Creating(pc)
    requires Knows(db, pc)
    ensures Justified(db, CreateMove(db, clock, pc).write) && Knows(db, CreateMove(db, clock, pc).pc)
  {
    if pc.CreateFilter? {
      FilterIsSound(db, clock, pc.input, pc.types, pc.ids);
    }
  }

  lemma DownloadDecisions(db: Db, pc: Pc)
    requires Downloading(pc)
    requires Knows(db, pc)
    ensures Justified(db, DownloadMove(db, pc).write) && Knows(db, DownloadMove(db, pc).pc)
  {
  }

  lemma ReportDecisions(db: Db, clock: Time, pc: Pc)
    requires Reporting(pc)
    ensures Justified(db, ReportMove(db, clock, pc).write) && Knows(db, ReportMove(db, clock, pc).pc)
  {
  }

  lemma HttpAndOperatorDecisions(db: Db, clock: Time, pc: Pc)
    requires HttpReporting(pc) || Operating(pc)
    ensures Justified(db, StepOf(db, clock, pc).write) && Knows(db, StepOf(db, clock, pc).pc)
  {
  }

  /** Every step but a poll's rests on what was known before its write. */
  lemma PlainDecisions(db: Db, clock: Time, pc: Pc)
    requires !pc.Done? && !Polling(pc) && !HttpReporting(pc) && !Operating(pc)
    requires Knows(db, pc)
    ensures Justified(db, StepOf(db, clock, pc).write) && Knows(db, StepOf(db, clock, pc).pc)
  {
    if Completing(pc) {
      CompleteDecisions(db, clock, pc);
    } else if Downloading(pc) {
      DownloadDecisions(db, pc);
    } else if Creating(pc) {
      CreateDecisions(db, clock, pc);
    } else {
      ReportDecisions(db, clock, pc);
    }
  }

  lemma DecisionsAreJustified(db: Db, clock: Time, pc: Pc)
    requires !pc.Done? && Knows(db, pc)
    ensures var move := StepOf(db, clock, pc);
            Justified(db, move.write) && Knows(Apply(db, move.write), move.pc)
  {
    if Polling(pc) {
      PollDecisions(db, clock, pc);
    } else {
      if HttpReporting(pc) || Operating(pc) {
        HttpAndOperatorDecisions(db, clock, pc);
      } else {
        PlainDecisions(db, clock, pc);
      }
      var move := StepOf(db, clock, pc);
      EveryWriteGuarantees(db, move.write);
      GuaranteesEvolves(db, Apply(db, move.write));
      KnowledgeIsStable(db, Apply(db, move.write), move.pc);
    }
  }

  // ---------------------------------------------------------------------------
  // Writes
  // ---------------------------------------------------------------------------

  /** Assignments are only ever added by a bundle, tokens only by an issue. */
  lemma NewRows(db: Db, w: Write)
    ensures forall t | t in Apply(db, w).assignments && t !in db.assignments ::
              w.WBundle? && t.campaign == w.c && t.device in w.chosen
              && w.c in Apply(db, w).campaigns && Apply(db, w).campaigns[w.c] == w.draft
    ensures forall h | h in Apply(db, w).otaTokens && h !in db.otaTokens ::
              w.WToken? && h == w.hash && Apply(db, w).otaTokens[h] == w.token
  {
  }

  lemma EvolutionKeepsProvenance(a: Db, b: Db)
    requires Evolves(a, b)
    requires AssignmentsCompatible(a) && TokensOffered(a)
    ensures forall t | t in b.assignments && t in a.assignments ::
              t.campaign in b.campaigns
              && Compatible(b, b.campaigns[t.campaign].project, b.campaigns[t.campaign].firmware, t.device)
    ensures forall h | h in b.otaTokens && h in a.otaTokens ::
              var t := b.otaTokens[h]; OfferedTo(b, t.project, t.device, t.campaign, t.firmware)
  {
    forall h | h in b.otaTokens && h in a.otaTokens
      ensures var t := b.otaTokens[h]; OfferedTo(b, t.project, t.device, t.campaign, t.firmware)
    {
      var t := a.otaTokens[h];
      OfferedToIsStable(a, b, t.project, t.device, t.campaign, t.firmware);
    }
  }

  lemma NewTokensAreOffered(db: Db, w: Write, h: Bytes)
    requires Justified(db, w) && Evolves(db, Apply(db, w))
    requires h in Apply(db, w).otaTokens && h !in db.otaTokens
    ensures var t := Apply(db, w).otaTokens[h]; OfferedTo(Apply(db, w), t.project, t.device, t.campaign, t.firmware)
  {
    NewRows(db, w);
    OfferedToIsStable(db, Apply(db, w), w.token.project, w.token.device, w.token.campaign, w.token.firmware);
  }

  lemma WritesKeepProvenance(db: Db, w: Write)
    requires AssignmentsCompatible(db) && TokensOffered(db) && Justified(db, w)
    ensures AssignmentsCompatible(Apply(db, w)) && TokensOffered(Apply(db, w))
  {
    var db' := Apply(db, w);
    EveryWriteGuarantees(db, w);
    GuaranteesEvolves(db, db');
    EvolutionKeepsProvenance(db, db');
    NewRows(db, w);
    forall h | h in db'.otaTokens && h !in db.otaTokens
      ensures var t := db'.otaTokens[h]; OfferedTo(db', t.project, t.device, t.campaign, t.firmware)
    {
      NewTokensAreOffered(db, w, h);
    }
  }

  // ---------------------------------------------------------------------------
  // Runs
  // ---------------------------------------------------------------------------

  ghost predicate Traceable(s: Sys) {
    AssignmentsCompatible(s.db) && TokensOffered(s.db) && forall op | op in s.ops :: Knows(s.db, s.ops[op])
  }

  lemma StepIsTraceable(s: Sys, e: Event)
    requires Enabled(s, e) && Traceable(s)
    ensures Traceable(Execute(s, e))
  {
    var s' := Execute(s, e);
    EveryStepGuarantees(s, e);
    if e.Run? {
      DecisionsAreJustified(s.db, s.clock, s.ops[e.op]);
      WritesKeepProvenance(s.db, StepOf(s.db, s.clock, s.ops[e.op]).write);
    } else {
      EvolutionKeepsProvenance(s.db, s'.db);
    }
    forall op | op in s'.ops
      ensures Knows(s'.db, s'.ops[op])
    {
      if op in s.ops && s'.ops[op] == s.ops[op] {
        KnowledgeIsStable(s.db, s'.db, s'.ops[op]);
      }
    }
  }

  lemma {:induction false} RunsAreTraceable(events: seq<Event>)
    requires IsRun(events)
    ensures Traceable(EndOf(events))
  {
    if events != [] {
      RunsAreTraceable(events[..|events| - 1]);
      StepIsTraceable(EndOf(events[..|events| - 1]), events[|events| - 1]);
    }
  }

  // ---------------------------------------------------------------------------
  // The offer behind every token
  // ---------------------------------------------------------------------------

  /** The assignment a poll has offered, on its way to issuing a token. */
  function OfferBehind(pc: Pc): Option<Target> {
    if pc.IssueCheck? || pc.IssueInsert? then Some(Target(pc.row.campaign, pc.d))
    else if Completing(pc) && pc.next.AfterPoll? then Some(Target(pc.next.row.campaign, pc.next.device))
    else None
  }

  ghost predicate OffersSeen(s: Sys) {
    && (forall h | h in s.db.otaTokens :: WasOffered(s, Target(s.db.otaTokens[h].campaign, s.db.otaTokens[h].device)))
    && (forall op | op in s.ops && OfferBehind(s.ops[op]).Some? :: WasOffered(s, OfferBehind(s.ops[op]).value))
  }

  /** A poll goes on only from an assignment it read or has just written as offered. */
  lemma OffersHaveSource(db: Db, clock: Time, pc: Pc)
    requires Polling(pc) && OfferBehind(PollMove(db, clock, pc).pc).Some?
    ensures var t := OfferBehind(PollMove(db, clock, pc).pc).value;
            OfferBehind(pc) == Some(t) || OfferedIn(db, t) || OfferedIn(Apply(db, PollMove(db, clock, pc).write), t)
  {
    if pc.PollFind? && FindOffer(db, pc.p, pc.d).Some? {
      FoundIsAssignee(db, pc.p, pc.d);
    }
  }

  lemma CompletionsKeepOffers(db: Db, clock: Time, pc: Pc)
    requires Completing(pc)
    ensures OfferBehind(CompleteMove(db, clock, pc).pc).None? || OfferBehind(CompleteMove(db, clock, pc).pc) == OfferBehind(pc)
  {
  }

  lemma OthersCarryNoOffers(db: Db, clock: Time, pc: Pc)
    requires !pc.Done? && !Polling(pc) && !Completing(pc)
    ensures OfferBehind(StepOf(db, clock, pc).pc).None?
  {
  }

  lemma TokensHaveSource(db: Db, clock: Time, pc: Pc)
    requires !pc.Done? && StepOf(db, clock, pc).write.WToken?
    ensures var token := StepOf(db, clock, pc).write.token; OfferBehind(pc) == Some(Target(token.campaign, token.device))
  {
  }

  lemma StepSeesOffers(s: Sys, e: Event)
    requires Enabled(s, e) && TraceOk(s) && OffersSeen(s) && e.Run?
    requires OfferBehind(Execute(s, e).ops[e.op]).Some?
    ensures WasOffered(Execute(s, e), OfferBehind(Execute(s, e).ops[e.op]).value)
  {
    var s', pc := Execute(s, e), s.ops[e.op];
    var t := OfferBehind(s'.ops[e.op]).value;
    if Polling(pc) {
      OffersHaveSource(s.db, s.clock, pc);
      assert OfferedIn(s'.db, t) ==> OfferedIn(s'.trace[|s'.trace| - 1], t);
      assert OfferedIn(s.db, t) ==> OfferedIn(s.trace[|s.trace| - 1], t);
    } else if Completing(pc) {
      CompletionsKeepOffers(s.db, s.clock, pc);
    } else {
      OthersCarryNoOffers(s.db, s.clock, pc);
    }
    if WasOffered(s, t) {
      WasOfferedIsStable(s, s', t);
    }
  }

  lemma TokensSeeOffers(s: Sys, e: Event, h: Bytes)
    requires Enabled(s, e) && TraceOk(s) && OffersSeen(s) && h in Execute(s, e).db.otaTokens
    ensures var t := Execute(s, e).db.otaTokens[h]; WasOffered(Execute(s, e), Target(t.campaign, t.device))
  {
    var s' := Execute(s, e);
    var t := s'.db.otaTokens[h];
    EveryStepGuarantees(s, e);
    if h !in s.db.otaTokens {
      NewRows(s.db, StepOf(s.db, s.clock, s.ops[e.op]).write);
      TokensHaveSource(s.db, s.clock, s.ops[e.op]);
    }
    WasOfferedIsStable(s, s', Target(t.campaign, t.device));
  }

  lemma {:induction false} RunsSeeOffers(events: seq<Event>)
    requires IsRun(events)
    ensures OffersSeen(EndOf(events))
  {
    if events != [] {
      var s, e := EndOf(events[..|events| - 1]), events[|events| - 1];
      RunsSeeOffers(events[..|events| - 1]);
      RunsAreTraced(events[..|events| - 1]);
      var s' := Execute(s, e);
      forall h | h in s'.db.otaTokens
        ensures WasOffered(s', Target(s'.db.otaTokens[h].campaign, s'.db.otaTokens[h].device))
      {
        TokensSeeOffers(s, e, h);
      }
      forall op | op in s'.ops && OfferBehind(s'.ops[op]).Some?
        ensures WasOffered(s', OfferBehind(s'.ops[op]).value)
      {
        if e.Run? && op == e.op {
          StepSeesOffers(s, e);
        } else if op in s.ops {
          WasOfferedIsStable(s, s', OfferBehind(s.ops[op]).value);
        }
      }
    }
  }

  /**
   Main result: an operation that served firmware f for a token did so for a device that the
   token's campaign offered f at an earlier point, in one project, with f built for the device's type.
   */
  lemma {:induction false} ServedFirmwareIsTheCampaigns(events: seq<Event>, op: nat, hash: Bytes, f: Id, at: Time)
    requires IsRun(events)
    requires op in EndOf(events).ops && EndOf(events).ops[op] == Done(Served(hash, f, at))
    ensures var db := EndOf(events).db;
            hash in db.otaTokens && var t := db.otaTokens[hash];
            t.firmware == f
            && t.campaign in db.campaigns && db.campaigns[t.campaign].firmware == f
            && db.campaigns[t.campaign].project == t.project
            && t.device in db.devices && db.devices[t.device].project == t.project
            && f in db.firmwares && db.firmwares[f].project == t.project
            && db.devices[t.device].deviceType in db.firmwares[f].deviceTypes
            && WasOffered(EndOf(events), Target(t.campaign, t.device))
  {
    RunsAreTraceable(events);
    RunsSeeOffers(events);
    var db := EndOf(events).db;
    assert Knows(db, EndOf(events).ops[op]);
    var t := db.otaTokens[hash];
    assert OfferedTo(db, t.project, t.device, t.campaign, t.firmware);
  }
}
