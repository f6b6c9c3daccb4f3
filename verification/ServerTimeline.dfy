// When things happened, by the server's clock: every request was filed, decided and answered with a token at instants
// of the run whose readings its fields are, and the window between filing and decision is ten minutes.
module ServerTimeline {
  import opened Attest
  import opened Basics
  import opened Consent
  import Runs = ConsentRuns
  import opened Crypto
  import Missions
  import opened Server
  import ServerGuarantees
  import opened ServerHistory
  import ServerIsolation
  import ServerProgress
  import opened ServerRuns
  import Tenancy
  import opened Tokens

  // ---------------------------------------------------------------- one step

  /** A request filed now: dated now, and open for six hundred seconds. */
  predicate DatedNow(s: System, t: Terms) {
    t.createdAt == s.store.now && t.expiresAt == s.store.now + 600_000_000_000
  }

  /** The consent store does nothing in this step, or one step of its own; what it files is dated now. */
  ghost predicate StoreMoved(cfg: Config, s: System, t: System, b: Option<Runs.Action>) {
    && t.store == (if b.None? then s.store else Runs.Step(cfg.consent, s.store, b.value))
    && (b.Some? && b.value.Create? ==> DatedNow(s, b.value.terms))
  }

  lemma BeginMovesStore(cfg: Config, s: System, thread: nat, call: Call) returns (b: Option<Runs.Action>)
    ensures StoreMoved(cfg, s, DoBegin(cfg, s, thread, call), b) && (b.Some? ==> b.value.Poll? || b.value.Start?)
  {
    b := if thread in s.points || thread in s.store.threads then None
         else
           match call
           case PollPending(_, id) => Some(Runs.Poll(id))
           case DenyCall(code) => Some(Runs.Start(thread, Runs.Deny(code)))
           case _ => None;
  }

  lemma TokenMovesStore(cfg: Config, s: System, thread: nat, p: Point, draw: Draw) returns (b: Option<Runs.Action>)
    requires p.TokenTenant? || p.TokenGranted? || p.TokenTiered?
    ensures StoreMoved(cfg, s, AdvanceToken(cfg, s, thread, p, draw), b) && (b.Some? ==> b.value.Create?)
  {
    if p.TokenTiered? && p.root in s.tenants.byRoot && draw.id !in s.store.byID && draw.code !in s.store.byCode {
      b := Some(Runs.Create(NewTerms(p.agent, p.grant, p.res, p.tier, s.store.now, draw)));
      RequestStep(cfg, s, thread, p, draw);
    } else {
      b := None;
    }
  }

  lemma ApprovalMovesStore(cfg: Config, s: System, thread: nat, p: Point) returns (b: Option<Runs.Action>)
    requires p.PageFound? || p.StepUpFound? || p.StepUpCall?
    ensures StoreMoved(cfg, s, AdvanceApproval(cfg, s, thread, p), b) && (b.Some? ==> b.value.Start?)
  {
    b := match p
      case PageFound(code, id) =>
        if id in s.store.byID && s.store.byID[id].terms.tier != Elevated
        then Some(Runs.Start(thread, Runs.ApproveRoutine(code))) else None
      case StepUpCall(code, root, sig) => Some(Runs.Start(thread, Runs.ApproveElevated(code, root, sig)))
      case _ => None;
  }

  lemma OthersLeaveStore(cfg: Config, s: System, thread: nat, draw: Draw)
    requires thread in s.points
    requires var p := s.points[thread];
      !(p.TokenTenant? || p.TokenGranted? || p.TokenTiered? || p.PageFound? || p.StepUpFound? || p.StepUpCall?)
    ensures DoAdvance(cfg, s, thread, draw).store == s.store
  {
  }

  lemma AdvanceMovesStore(cfg: Config, s: System, thread: nat, draw: Draw) returns (b: Option<Runs.Action>)
    ensures StoreMoved(cfg, s, DoAdvance(cfg, s, thread, draw), b) && (b.Some? ==> b.value.Create? || b.value.Start?)
  {
    b := None;
    if thread in s.points {
      var p := s.points[thread];
      if p.TokenTenant? || p.TokenGranted? || p.TokenTiered? {
        b := TokenMovesStore(cfg, s, thread, p, draw);
      } else if p.PageFound? || p.StepUpFound? || p.StepUpCall? {
        b := ApprovalMovesStore(cfg, s, thread, p);
        ApprovalAdvances(cfg, s, thread, p, draw);
      } else {
        OthersLeaveStore(cfg, s, thread, draw);
      }
    }
  }

  lemma StepMovesStore(cfg: Config, s: System, a: Action) returns (b: Option<Runs.Action>)
    ensures StoreMoved(cfg, s, Step(cfg, s, a), b)
  {
    match a
    case Tick(elapsed) => b := Some(Runs.Tick(elapsed));
    case Revoke(_, _) => b := None;
    case Begin(thread, call) => b := BeginMovesStore(cfg, s, thread, call);
    case Advance(thread, draw) => b := AdvanceMovesStore(cfg, s, thread, draw);
    case StoreAdvance(thread) => b := Some(Runs.Advance(thread));
  }

  /** A decision is taken by a step that finds the request pending and in time. */
  lemma StoreDecidesInTime(cfg: Runs.Config, s: Runs.Store, b: Runs.Action, id: string)
    requires id in s.byID && id in Runs.Step(cfg, s, b).byID
    requires Runs.Step(cfg, s, b).byID[id].state in {Approved, Denied} && s.byID[id].state !in {Approved, Denied}
    ensures s.byID[id].state == Pending && s.now <= s.byID[id].terms.expiresAt
  {
  }

  /** The step files the request, dated by its own clock. */
  ghost predicate Files(cfg: Config, s: System, t: System, id: string) {
    && id !in s.store.byID && id in t.store.byID
    && DatedNow(s, t.store.byID[id].terms) && t.store.byID[id].state == Pending
  }

  ghost predicate Decides(s: System, t: System, id: string) {
    && id in s.store.byID && id in t.store.byID
    && s.store.byID[id].state == Pending && t.store.byID[id].state in {Approved, Denied}
    && s.store.now <= s.store.byID[id].terms.expiresAt
  }

  /** The step hands out the k-th token, dated by its own clock, for a request that is approved by then. */
  ghost predicate Mints(s: System, t: System, k: nat) {
    && |s.issued| == k && k < |t.issued|
    && t.issued[k].at == s.store.now
    && t.issued[k].claims.iat * 1_000_000_000 <= s.store.now < (t.issued[k].claims.iat + 1) * 1_000_000_000
    && t.issued[k].terms.id in s.store.byID && s.store.byID[t.issued[k].terms.id].state == Approved
  }

  lemma NewIsFiled(cfg: Config, s: System, a: Action, id: string)
    requires id !in s.store.byID && id in Step(cfg, s, a).store.byID
    ensures Files(cfg, s, Step(cfg, s, a), id)
  {
    var b := StepMovesStore(cfg, s, a);
    StepFilesOneRequest(cfg.consent, s.store, b.value);
  }

  lemma DecidedIsDecided(cfg: Config, s: System, a: Action, id: string)
    requires id in s.store.byID && id in Step(cfg, s, a).store.byID
    requires Step(cfg, s, a).store.byID[id].state in {Approved, Denied} && s.store.byID[id].state !in {Approved, Denied}
    ensures Decides(s, Step(cfg, s, a), id)
  {
    var b := StepMovesStore(cfg, s, a);
    StoreDecidesInTime(cfg.consent, s.store, b.value, id);
  }

  lemma OnlyFinishIssues(cfg: Config, s: System, a: Action)
    ensures Step(cfg, s, a).issued != s.issued ==> a.Advance? && a.thread in s.points && s.points[a.thread].PollSigned?
  {
    match a
    case Begin(thread, call) => BeginIssuesNone(cfg, s, thread, call);
    case Advance(thread, draw) =>
      if thread in s.points && !s.points[thread].PollSigned? {
        OthersIssueNone(cfg, s, thread, draw);
      }
    case _ =>
  }

  lemma BeginIssuesNone(cfg: Config, s: System, thread: nat, call: Call)
    ensures DoBegin(cfg, s, thread, call).issued == s.issued
  {
  }

  lemma OthersIssueNone(cfg: Config, s: System, thread: nat, draw: Draw)
    requires thread in s.points && !s.points[thread].PollSigned?
    ensures DoAdvance(cfg, s, thread, draw).issued == s.issued
  {
  }

  lemma FinishMints(cfg: Config, s: System, thread: nat, p: Point, draw: Draw)
    requires p.PollSigned? && OwnApproved(s.store, p.agent, p.id) && s.store.byID[p.id].terms.id == p.id
    ensures var t := AdvanceFinish(cfg, s, thread, p, draw);
      t.issued == s.issued || (|t.issued| == |s.issued| + 1 && Mints(s, t, |s.issued|))
  {
    UnixIsFloor(s.store.now);
  }

  lemma FinishedIsApproved(cfg: Config, s: System, thread: nat)
    requires Inv(cfg, s) && thread in s.points && s.points[thread].PollSigned?
    ensures var p := s.points[thread];
      OwnApproved(s.store, p.agent, p.id) && s.store.byID[p.id].terms.id == p.id
  {
    OwnPoint(cfg, s, thread);
  }

  lemma NewIsMinted(cfg: Config, s: System, a: Action, k: nat)
    requires a.Advance? && a.thread in s.points && s.points[a.thread].PollSigned? ==>
      var p := s.points[a.thread]; OwnApproved(s.store, p.agent, p.id) && s.store.byID[p.id].terms.id == p.id
    requires |s.issued| <= k < |Step(cfg, s, a).issued|
    ensures Mints(s, Step(cfg, s, a), k)
  {
    OnlyFinishIssues(cfg, s, a);
    var p := s.points[a.thread];
    FinishAdvances(cfg, s, a.thread, p, a.draw);
    FinishMints(cfg, s, a.thread, p, a.draw);
  }

  lemma MintedByStep(cfg: Config, s: System, a: Action, k: nat)
    requires Inv(cfg, s) && |s.issued| <= k < |Step(cfg, s, a).issued|
    ensures Mints(s, Step(cfg, s, a), k)
  {
    if a.Advance? && a.thread in s.points && s.points[a.thread].PollSigned? {
      FinishedIsApproved(cfg, s, a.thread);
    }
    NewIsMinted(cfg, s, a, k);
  }

  // ---------------------------------------------------------------- over runs

  lemma ReachedByLast(cfg: Config, now: int, actions: seq<Action>)
    requires actions != []
    ensures var n := |actions| - 1;
      After(cfg, now, actions, |actions|) == Step(cfg, After(cfg, now, actions, n), actions[n])
  {
    var n := |actions| - 1;
    assert actions[..|actions|] == actions[..n] + [actions[n]];
    ServerProgress.RunsChain(cfg, Boot(now), actions[..n], [actions[n]]);
    assert [actions[n]][1..] == [];
    var s := After(cfg, now, actions, n);
    assert Run(cfg, Step(cfg, s, actions[n]), []) == Step(cfg, s, actions[n]);
  }

  lemma SamePast(cfg: Config, now: int, actions: seq<Action>, n: nat, i: nat)
    requires i <= n <= |actions|
    ensures After(cfg, now, actions[..n], i) == After(cfg, now, actions, i)
  {
    assert actions[..n][..i] == actions[..i];
  }

  lemma AfterAll(cfg: Config, now: int, actions: seq<Action>)
    ensures After(cfg, now, actions, |actions|) == ServerGuarantees.Reached(cfg, now, actions)
  {
    assert actions[..|actions|] == actions;
  }

  lemma LastStepIsLater(cfg: Config, now: int, actions: seq<Action>)
    requires Inverts(cfg.codec) && actions != []
    ensures var s, t := After(cfg, now, actions, |actions| - 1), After(cfg, now, actions, |actions|);
      Inv(cfg, s) && t == Step(cfg, s, actions[|actions| - 1]) && Later(s, t)
  {
    ReachedByLast(cfg, now, actions);
    ServerGuarantees.ReachedHoldsInv(cfg, now, actions[..|actions| - 1]);
    StepKeepsInv(cfg, After(cfg, now, actions, |actions| - 1), actions[|actions| - 1]);
  }

  lemma LastIsLater(cfg: Config, now: int, actions: seq<Action>)
    requires Inverts(cfg.codec) && actions != []
    ensures Later(After(cfg, now, actions, |actions| - 1), After(cfg, now, actions, |actions|))
  {
    LastStepIsLater(cfg, now, actions);
  }

  lemma LastFiles(cfg: Config, now: int, actions: seq<Action>, id: string)
    requires actions != [] && id !in After(cfg, now, actions, |actions| - 1).store.byID
    requires id in After(cfg, now, actions, |actions|).store.byID
    ensures Files(cfg, After(cfg, now, actions, |actions| - 1), After(cfg, now, actions, |actions|), id)
  {
    ReachedByLast(cfg, now, actions);
    NewIsFiled(cfg, After(cfg, now, actions, |actions| - 1), actions[|actions| - 1], id);
  }

  lemma LastDecides(cfg: Config, now: int, actions: seq<Action>, id: string)
    requires actions != [] && id in After(cfg, now, actions, |actions| - 1).store.byID
    requires id in After(cfg, now, actions, |actions|).store.byID
    requires After(cfg, now, actions, |actions| - 1).store.byID[id].state !in {Approved, Denied}
    requires After(cfg, now, actions, |actions|).store.byID[id].state in {Approved, Denied}
    ensures Decides(After(cfg, now, actions, |actions| - 1), After(cfg, now, actions, |actions|), id)
  {
    ReachedByLast(cfg, now, actions);
    DecidedIsDecided(cfg, After(cfg, now, actions, |actions| - 1), actions[|actions| - 1], id);
  }

  lemma LastMints(cfg: Config, now: int, actions: seq<Action>, k: nat)
    requires Inverts(cfg.codec) && actions != []
    requires |After(cfg, now, actions, |actions| - 1).issued| <= k < |After(cfg, now, actions, |actions|).issued|
    ensures Mints(After(cfg, now, actions, |actions| - 1), After(cfg, now, actions, |actions|), k)
  {
    LastStepIsLater(cfg, now, actions);
    MintedByStep(cfg, After(cfg, now, actions, |actions| - 1), actions[|actions| - 1], k);
  }

  /** The clock reading at which the i-th action took place. */
  function Clock(cfg: Config, now: int, actions: seq<Action>, i: nat): int
    requires i <= |actions|
  {
    After(cfg, now, actions, i).store.now
  }

  lemma ClockAdvances(cfg: Config, now: int, actions: seq<Action>, i: nat, j: nat)
    requires Inverts(cfg.codec) && i <= j <= |actions|
    ensures Clock(cfg, now, actions, i) <= Clock(cfg, now, actions, j)
  {
    var s := After(cfg, now, actions, i);
    assert actions[..j] == actions[..i] + actions[i..j];
    ServerProgress.RunsChain(cfg, Boot(now), actions[..i], actions[i..j]);
    ServerGuarantees.ReachedHoldsInv(cfg, now, actions[..i]);
    RunKeepsInv(cfg, s, actions[i..j]);
  }

  /** The i-th action files the request with these terms, dated by the clock. */
  ghost predicate FiledAt(cfg: Config, now: int, actions: seq<Action>, i: nat, id: string, t: Terms) {
    && i < |actions|
    && Files(cfg, After(cfg, now, actions, i), After(cfg, now, actions, i + 1), id)
    && After(cfg, now, actions, i + 1).store.byID[id].terms == t
  }

  /** The j-th action approves or denies it, in time. */
  ghost predicate DecidedAt(cfg: Config, now: int, actions: seq<Action>, j: nat, id: string, t: Terms) {
    && j < |actions|
    && Decides(After(cfg, now, actions, j), After(cfg, now, actions, j + 1), id)
    && After(cfg, now, actions, j).store.byID[id].terms == t
  }

  ghost predicate MintedAt(cfg: Config, now: int, actions: seq<Action>, m: nat, k: nat, i: Issue) {
    && m < |actions|
    && Mints(After(cfg, now, actions, m), After(cfg, now, actions, m + 1), k)
    && After(cfg, now, actions, m + 1).issued[k] == i
  }

  lemma FiledEarlier(cfg: Config, now: int, actions: seq<Action>, n: nat, i: nat, id: string, t: Terms)
    requires n <= |actions| && FiledAt(cfg, now, actions[..n], i, id, t)
    ensures FiledAt(cfg, now, actions, i, id, t)
  {
    SamePast(cfg, now, actions, n, i);
    SamePast(cfg, now, actions, n, i + 1);
  }

  lemma DecidedEarlier(cfg: Config, now: int, actions: seq<Action>, n: nat, j: nat, id: string, t: Terms)
    requires n <= |actions| && DecidedAt(cfg, now, actions[..n], j, id, t)
    ensures DecidedAt(cfg, now, actions, j, id, t)
  {
    SamePast(cfg, now, actions, n, j);
    SamePast(cfg, now, actions, n, j + 1);
  }

  lemma MintedEarlier(cfg: Config, now: int, actions: seq<Action>, n: nat, m: nat, k: nat, i: Issue)
    requires n <= |actions| && MintedAt(cfg, now, actions[..n], m, k, i)
    ensures MintedAt(cfg, now, actions, m, k, i)
  {
    SamePast(cfg, now, actions, n, m);
    SamePast(cfg, now, actions, n, m + 1);
  }

  /** Every stored request was filed by some action of the run, whose clock reading is its creation time. */
  lemma {:induction false} RequestWasFiled(cfg: Config, now: int, actions: seq<Action>, id: string) returns (i: nat)
    requires Inverts(cfg.codec) && id in After(cfg, now, actions, |actions|).store.byID
    ensures FiledAt(cfg, now, actions, i, id, After(cfg, now, actions, |actions|).store.byID[id].terms)
    decreases |actions|
  {
    LastIsLater(cfg, now, actions);
    var n := |actions| - 1;
    var s := After(cfg, now, actions, n);
    SamePast(cfg, now, actions, n, n);
    if id in s.store.byID {
      i := RequestWasFiled(cfg, now, actions[..n], id);
      FiledEarlier(cfg, now, actions, n, i, id, s.store.byID[id].terms);
    } else {
      LastFiles(cfg, now, actions, id);
      i := n;
    }
  }

  lemma {:induction false} RequestWasDecided(cfg: Config, now: int, actions: seq<Action>, id: string) returns (j: nat)
    requires Inverts(cfg.codec) && id in After(cfg, now, actions, |actions|).store.byID
    requires After(cfg, now, actions, |actions|).store.byID[id].state in {Approved, Denied}
    ensures DecidedAt(cfg, now, actions, j, id, After(cfg, now, actions, |actions|).store.byID[id].terms)
    decreases |actions|
  {
    LastIsLater(cfg, now, actions);
    var n := |actions| - 1;
    var s := After(cfg, now, actions, n);
    SamePast(cfg, now, actions, n, n);
    if id in s.store.byID && s.store.byID[id].state in {Approved, Denied} {
      j := RequestWasDecided(cfg, now, actions[..n], id);
      DecidedEarlier(cfg, now, actions, n, j, id, s.store.byID[id].terms);
    } else {
      if id !in s.store.byID {
        LastFiles(cfg, now, actions, id);
      }
      LastDecides(cfg, now, actions, id);
      j := n;
    }
  }

  lemma {:induction false} TokenWasMinted(cfg: Config, now: int, actions: seq<Action>, k: nat) returns (m: nat)
    requires Inverts(cfg.codec) && k < |After(cfg, now, actions, |actions|).issued|
    ensures MintedAt(cfg, now, actions, m, k, After(cfg, now, actions, |actions|).issued[k])
    decreases |actions|
  {
    LastIsLater(cfg, now, actions);
    var n := |actions| - 1;
    var s := After(cfg, now, actions, n);
    SamePast(cfg, now, actions, n, n);
    if k < |s.issued| {
      m := TokenWasMinted(cfg, now, actions[..n], k);
      MintedEarlier(cfg, now, actions, n, m, k, s.issued[k]);
    } else {
      LastMints(cfg, now, actions, k);
      m := n;
    }
  }

  /**
   * The consent window, by the clock: whatever is approved or denied in a run was filed by an earlier action, and at
   * most ten minutes lie between the two readings.
   */
  lemma DecidedWithinTenMinutes(cfg: Config, now: int, actions: seq<Action>, id: string) returns (i: nat, j: nat)
    requires Inverts(cfg.codec) && id in ServerGuarantees.Reached(cfg, now, actions).store.byID
    requires ServerGuarantees.Reached(cfg, now, actions).store.byID[id].state in {Approved, Denied}
    ensures var t := ServerGuarantees.Reached(cfg, now, actions).store.byID[id].terms;
      FiledAt(cfg, now, actions, i, id, t) && DecidedAt(cfg, now, actions, j, id, t) && i < j
    ensures 0 <= Clock(cfg, now, actions, j) - Clock(cfg, now, actions, i) <= 600_000_000_000
  {
    AfterAll(cfg, now, actions);
    var t := ServerGuarantees.Reached(cfg, now, actions).store.byID[id].terms;
    j := RequestWasDecided(cfg, now, actions, id);
    SamePast(cfg, now, actions, j, j);
    i := RequestWasFiled(cfg, now, actions[..j], id);
    FiledEarlier(cfg, now, actions, j, i, id, t);
    ClockAdvances(cfg, now, actions, i, j);
  }

  /**
   * The life of a token, by the clock: its request was filed, then approved within ten minutes of that, and only then
   * the token was minted, by three actions of the run; its iat is the second of the last.
   */
  lemma TokenTimeline(cfg: Config, now: int, actions: seq<Action>, k: nat) returns (i: nat, j: nat, m: nat)
    requires Inverts(cfg.codec) && k < |ServerGuarantees.Reached(cfg, now, actions).issued|
    ensures var issue := ServerGuarantees.Reached(cfg, now, actions).issued[k];
      && i < j < m && MintedAt(cfg, now, actions, m, k, issue)
      && FiledAt(cfg, now, actions, i, issue.terms.id, issue.terms)
      && DecidedAt(cfg, now, actions, j, issue.terms.id, issue.terms)
    ensures Clock(cfg, now, actions, i) <= Clock(cfg, now, actions, j) <= Clock(cfg, now, actions, m)
    ensures Clock(cfg, now, actions, j) <= Clock(cfg, now, actions, i) + 600_000_000_000
  {
    AfterAll(cfg, now, actions);
    var issue := ServerGuarantees.Reached(cfg, now, actions).issued[k];
    m := TokenWasMinted(cfg, now, actions, k);
    MintedForFiled(cfg, now, actions, m, k);
    i, j := DecidedWithinTenMinutes(cfg, now, actions[..m], issue.terms.id);
    FiledEarlier(cfg, now, actions, m, i, issue.terms.id, issue.terms);
    DecidedEarlier(cfg, now, actions, m, j, issue.terms.id, issue.terms);
    SamePast(cfg, now, actions, m, i);
    SamePast(cfg, now, actions, m, j);
    ClockAdvances(cfg, now, actions, j, m);
  }

  /** When a token is minted its request is stored, with the terms that the token is for. */
  lemma MintedForFiled(cfg: Config, now: int, actions: seq<Action>, m: nat, k: nat)
    requires Inverts(cfg.codec) && k < |ServerGuarantees.Reached(cfg, now, actions).issued|
    requires MintedAt(cfg, now, actions, m, k, ServerGuarantees.Reached(cfg, now, actions).issued[k])
    ensures var t := ServerGuarantees.Reached(cfg, now, actions).issued[k].terms;
      var s := ServerGuarantees.Reached(cfg, now, actions[..m]);
      t.id in s.store.byID && s.store.byID[t.id].terms == t && s.store.byID[t.id].state == Approved
  {
    var t := ServerGuarantees.Reached(cfg, now, actions).issued[k].terms;
    var s := ServerGuarantees.Reached(cfg, now, actions[..m]);
    SamePast(cfg, now, actions, m + 1, m);
    LastIsLater(cfg, now, actions[..m + 1]);
    AfterAll(cfg, now, actions[..m + 1]);
    ServerGuarantees.ReachedHoldsInv(cfg, now, actions[..m + 1]);
    ServerGuarantees.IssueAt(cfg, ServerGuarantees.Reached(cfg, now, actions[..m + 1]), k);
  }

  /**
   * What a stored request asks for was settled when it was filed and by the root: its mission is one the bound root
   * granted the agent, its tier is the one the PSA then held put the amount in, and an action of the run filed it, dated by
   * the clock of that moment and open for ten minutes from then.
   */
  lemma RequestsAreJudged(cfg: Config, now: int, actions: seq<Action>, id: string)
    requires Inverts(cfg.codec) && id in ServerGuarantees.Reached(cfg, now, actions).store.byID
    ensures var s := ServerGuarantees.Reached(cfg, now, actions);
      var t := s.store.byID[id].terms;
      && t.id == id && t.agentID in s.tenants.byAgent && ResourceKept(cfg, t)
      && MissionGranted(cfg, s.tenants, t.agentID, s.tenants.byAgent[t.agentID], t.missionS256)
      && TierWasRead(cfg, now, actions, s.tenants.byAgent[t.agentID], t.tier, t.amountWei)
      && exists i :: FiledAt(cfg, now, actions, i, id, t)
  {
    ServerGuarantees.ReachedHoldsInv(cfg, now, actions);
    ReachedIsJudged(cfg, now, actions);
    AfterAll(cfg, now, actions);
    var i := RequestWasFiled(cfg, now, actions, id);
    var s := ServerGuarantees.Reached(cfg, now, actions);
    assert RequestFiled(cfg, s.tenants, s.store.byID[id].terms);
    assert TermsJudged(PastOf(cfg, now, actions), s.tenants, s.store.byID[id].terms);
  }

  // ---------------------------------------------------------------- the log's dates

  /** Every logged entry has such a date. */
  ghost predicate EntriesDated(ts: Tenancy.Tenants, dated: string -> bool) {
    forall r, agent, e :: r in ts.byRoot && agent in ts.byRoot[r].log && e in ts.byRoot[r].log[agent] ==> dated(e.at)
  }

  ghost predicate Dated(s: System, dated: string -> bool) {
    && EntriesDated(s.tenants, dated)
    && AllPoints(s.points, (p: Point) => p.ToLog? ==> dated(p.entry.at))
  }

  lemma AppendKeepsDated(c: Primitives, ts: Tenancy.Tenants, root: string, agent: string, e: Missions.Entry,
                         dated: string -> bool)
    requires EntriesDated(ts, dated) && dated(e.at)
    ensures EntriesDated(Tenancy.AppendLog(c, ts, root, agent, e), dated)
  {
    var after := Tenancy.AppendLog(c, ts, root, agent, e);
    forall r, a, f | r in after.byRoot && a in after.byRoot[r].log && f in after.byRoot[r].log[a]
      ensures dated(f.at)
    {
      if r == root && a == agent {
        var chain := Missions.ChainOf(ts.byRoot[r].log, a);
        assert f in chain || f.at == e.at;
      }
    }
  }

  lemma TenancyKeepsDated(cfg: Config, s: System, thread: nat, p: Point, dated: string -> bool)
    requires EntriesDated(s.tenants, dated) && (p.ToLog? ==> dated(p.entry.at))
    requires p.OnboardVerified? || p.EnrollFound? || p.EnrollVerified? || p.ToLog?
    ensures EntriesDated(AdvanceTenancy(cfg, s, thread, p).tenants, dated)
  {
    match p
    case ToLog(agent, root, entry) => AppendKeepsDated(cfg.consent.c, s.tenants, root, agent, entry, dated);
    case EnrollVerified(agent, g) =>
      if g.root in s.tenants.byRoot && Tenancy.Enroll(cfg.consent.c, s.tenants, agent, g.root, g).Some? {
        EnrollKeepsDated(cfg.consent.c, s.tenants, agent, g, dated);
      }
    case _ =>
  }

  lemma EnrollKeepsDated(c: Primitives, ts: Tenancy.Tenants, agent: string, g: AgentGrant, dated: string -> bool)
    requires EntriesDated(ts, dated) && g.root in ts.byRoot && Tenancy.Enroll(c, ts, agent, g.root, g).Some?
    ensures EntriesDated(Tenancy.Enroll(c, ts, agent, g.root, g).value, dated)
  {
  }

  /** Only this thread moves, and what it is then newly about to log is dated now. */
  ghost predicate MovesOn(cfg: Config, s: System, t: System, thread: nat) {
    && t.points - {thread} == s.points - {thread}
    && (thread in t.points && t.points[thread].ToLog? ==>
          (thread in s.points && s.points[thread] == t.points[thread])
          || t.points[thread].entry.at == cfg.stamp(s.store.now))
  }

  lemma BeginMovesOn(cfg: Config, s: System, thread: nat, call: Call)
    ensures MovesOn(cfg, s, DoBegin(cfg, s, thread, call), thread) && DoBegin(cfg, s, thread, call).tenants == s.tenants
  {
    match call
    case Onboard(psa) => OnboardMovesOn(cfg, s, thread, psa);
    case _ => OthersMoveOn(cfg, s, thread, call);
  }

  lemma MoveMovesOn(cfg: Config, s: System, t: System, thread: nat, p: Point)
    requires t in {s, Move(s, thread, p)} && !p.ToLog?
    ensures MovesOn(cfg, s, t, thread) && t.tenants == s.tenants
  {
  }

  lemma OnboardMovesOn(cfg: Config, s: System, thread: nat, psa: PSA)
    ensures var t := DoBegin(cfg, s, thread, Onboard(psa));
      MovesOn(cfg, s, t, thread) && t.tenants == s.tenants
  {
    OnboardBegins(cfg, s, thread, psa);
    MoveMovesOn(cfg, s, DoBegin(cfg, s, thread, Onboard(psa)), thread, OnboardVerified(psa));
  }

  lemma OthersMoveOn(cfg: Config, s: System, thread: nat, call: Call)
    requires !call.Onboard?
    ensures MovesOn(cfg, s, DoBegin(cfg, s, thread, call), thread) && DoBegin(cfg, s, thread, call).tenants == s.tenants
  {
  }

  lemma TenancyMovesOn(cfg: Config, s: System, thread: nat, p: Point)
    requires p.OnboardVerified? || p.EnrollFound? || p.EnrollVerified? || p.ToLog?
    ensures MovesOn(cfg, s, AdvanceTenancy(cfg, s, thread, p), thread)
  {
  }

  lemma TokenMovesOn(cfg: Config, s: System, thread: nat, p: Point, draw: Draw)
    requires p.TokenTenant? || p.TokenGranted? || p.TokenTiered?
    ensures MovesOn(cfg, s, AdvanceToken(cfg, s, thread, p, draw), thread)
  {
  }

  lemma ApprovalMovesOn(cfg: Config, s: System, thread: nat, p: Point)
    requires p.PageFound? || p.StepUpFound? || p.StepUpCall?
    ensures MovesOn(cfg, s, AdvanceApproval(cfg, s, thread, p), thread)
  {
  }

  lemma PollMovesOn(cfg: Config, s: System, thread: nat, p: Point)
    requires p.PollFound? || p.PollApproved? || p.PollTenant?
    ensures MovesOn(cfg, s, AdvancePoll(cfg, s, thread, p), thread)
  {
  }

  lemma FinishMovesOn(cfg: Config, s: System, thread: nat, p: Point, draw: Draw)
    requires p.PollGranted? || p.PollSigned?
    ensures MovesOn(cfg, s, AdvanceFinish(cfg, s, thread, p, draw), thread)
  {
  }

  lemma AdvanceMovesOn(cfg: Config, s: System, thread: nat, draw: Draw)
    ensures MovesOn(cfg, s, DoAdvance(cfg, s, thread, draw), thread)
  {
    if thread in s.points {
      var p := s.points[thread];
      if p.OnboardVerified? || p.EnrollFound? || p.EnrollVerified? || p.ToLog? {
        TenancyMovesOn(cfg, s, thread, p);
      } else if p.TokenTenant? || p.TokenGranted? || p.TokenTiered? {
        TokenMovesOn(cfg, s, thread, p, draw);
      } else if p.PageFound? || p.StepUpFound? || p.StepUpCall? {
        ApprovalMovesOn(cfg, s, thread, p);
        ApprovalAdvances(cfg, s, thread, p, draw);
      } else if p.PollGranted? || p.PollSigned? {
        FinishMovesOn(cfg, s, thread, p, draw);
        FinishAdvances(cfg, s, thread, p, draw);
      } else {
        PollMovesOn(cfg, s, thread, p);
        PollAdvances(cfg, s, thread, p, draw);
      }
    }
  }

  lemma MovedIsDated(cfg: Config, s: System, t: System, thread: nat, dated: string -> bool)
    requires Dated(s, dated) && EntriesDated(t.tenants, dated) && dated(cfg.stamp(s.store.now))
    requires MovesOn(cfg, s, t, thread)
    ensures Dated(t, dated)
  {
    var ok := (p: Point) => p.ToLog? ==> dated(p.entry.at);
    forall n | n in t.points
      ensures ok(t.points[n])
    {
      assert n in s.points ==> ok(s.points[n]);
      assert n != thread ==> n in t.points - {thread} && (t.points - {thread})[n] == (s.points - {thread})[n];
    }
  }

  lemma AdvanceKeepsDated(cfg: Config, s: System, thread: nat, draw: Draw, dated: string -> bool)
    requires Dated(s, dated) && dated(cfg.stamp(s.store.now))
    ensures Dated(DoAdvance(cfg, s, thread, draw), dated)
  {
    AdvanceMovesOn(cfg, s, thread, draw);
    if thread in s.points {
      var p := s.points[thread];
      var ok := (q: Point) => q.ToLog? ==> dated(q.entry.at);
      assert ok(p);
      if p.OnboardVerified? || p.EnrollFound? || p.EnrollVerified? || p.ToLog? {
        TenancyKeepsDated(cfg, s, thread, p, dated);
      } else {
        ServerIsolation.OthersTouchNone(cfg, s, thread, draw);
      }
      MovedIsDated(cfg, s, DoAdvance(cfg, s, thread, draw), thread, dated);
    }
  }

  lemma StepKeepsDated(cfg: Config, s: System, a: Action, dated: string -> bool)
    requires Dated(s, dated) && dated(cfg.stamp(s.store.now))
    ensures Dated(Step(cfg, s, a), dated)
  {
    match a
    case Begin(thread, call) =>
      BeginMovesOn(cfg, s, thread, call);
      MovedIsDated(cfg, s, DoBegin(cfg, s, thread, call), thread, dated);
    case Advance(thread, draw) => AdvanceKeepsDated(cfg, s, thread, draw, dated);
    case _ =>
  }

  /** The dates of the instants at which actions of the run took place. */
  ghost function DatesOf(cfg: Config, now: int, actions: seq<Action>): string -> bool {
    at => exists i: nat :: i < |actions| && at == cfg.stamp(Clock(cfg, now, actions, i))
  }

  lemma EarlierDates(cfg: Config, now: int, actions: seq<Action>, n: nat)
    requires n <= |actions|
    ensures forall at :: DatesOf(cfg, now, actions[..n])(at) ==> DatesOf(cfg, now, actions)(at)
  {
    forall i: nat | i < n
      ensures Clock(cfg, now, actions[..n], i) == Clock(cfg, now, actions, i)
    {
      SamePast(cfg, now, actions, n, i);
    }
  }

  lemma MoreDates(s: System, dated: string -> bool, more: string -> bool)
    requires Dated(s, dated) && forall at :: dated(at) ==> more(at)
    ensures Dated(s, more)
  {
    var ok := (p: Point) => p.ToLog? ==> dated(p.entry.at);
    forall n | n in s.points
      ensures s.points[n].ToLog? ==> more(s.points[n].entry.at)
    {
      assert ok(s.points[n]);
    }
  }

  lemma {:induction false} RunIsDated(cfg: Config, now: int, actions: seq<Action>)
    ensures Dated(After(cfg, now, actions, |actions|), DatesOf(cfg, now, actions))
    decreases |actions|
  {
    if actions != [] {
      var n := |actions| - 1;
      RunIsDated(cfg, now, actions[..n]);
      SamePast(cfg, now, actions, n, n);
      EarlierDates(cfg, now, actions, n);
      MoreDates(After(cfg, now, actions, n), DatesOf(cfg, now, actions[..n]), DatesOf(cfg, now, actions));
      ReachedByLast(cfg, now, actions);
      assert DatesOf(cfg, now, actions)(cfg.stamp(Clock(cfg, now, actions, n)));
      StepKeepsDated(cfg, After(cfg, now, actions, n), actions[n], DatesOf(cfg, now, actions));
    }
  }

  /** Every entry in every log is dated by the server's clock as it stood at some action of the run. */
  lemma EntryIsDated(cfg: Config, now: int, actions: seq<Action>, root: string, agent: string, k: nat)
    requires var ts := ServerGuarantees.Reached(cfg, now, actions).tenants;
      root in ts.byRoot && agent in ts.byRoot[root].log && k < |ts.byRoot[root].log[agent]|
    ensures var entry := ServerGuarantees.Reached(cfg, now, actions).tenants.byRoot[root].log[agent][k];
      exists i: nat :: i < |actions| && entry.at == cfg.stamp(Clock(cfg, now, actions, i))
  {
    AfterAll(cfg, now, actions);
    RunIsDated(cfg, now, actions);
    var dated := DatesOf(cfg, now, actions);
    assert dated(ServerGuarantees.Reached(cfg, now, actions).tenants.byRoot[root].log[agent][k].at);
  }
}
