// The consent store under concurrency: any number of threads inside its operations, each operation cut at
// the places where it takes and releases the lock, and a clock that never runs backwards.
module ConsentRuns {
  import opened Basics
  import opened Consent
  import opened Crypto

  /** What every step needs to know and none changes. */
  datatype Config = Config(c: Primitives, chainID: int, registry: string)

  datatype Call =
    | ApproveRoutine(code: string)
    | ApproveElevated(code: string, root: string, sig: Bytes)
    | Deny(code: string)

  /** Where a thread stands between two locked sections, with the request pointer it holds (by id). */
  datatype Point =
    | ClickFound(id: string)
    | StepUpFound(id: string, root: string, sig: Bytes)
    | StepUpChecked(id: string, sig: Bytes)
    | StepUpWritten(id: string)
    | DenyFound(id: string)

  /** How one approve or deny call ended. */
  datatype Outcome =
    | Granted(id: string, to: State, at: int)
    | Refused(error: Error)

  datatype Store = Store(
    now: int,
    byID: map<string, Entry>,
    byCode: map<string, string>,
    threads: map<nat, Point>,
    outcomes: seq<(nat, Outcome)>
  )

  datatype Action =
    | Tick(elapsed: nat)
    | Create(terms: Terms)
    | Poll(id: string)
    | Start(thread: nat, call: Call)
    | Advance(thread: nat)

  function Empty(now: int): Store {
    Store(now, map[], map[], map[], [])
  }

  function Finish(s: Store, thread: nat, o: Outcome): Store {
    s.(threads := s.threads - {thread}, outcomes := s.outcomes + [(thread, o)])
  }

  /** Create files a fresh request: ids and codes are drawn at random and taken not to repeat. */
  function DoCreate(s: Store, t: Terms): Store {
    if t.id in s.byID || t.code in s.byCode then s
    else s.(byID := s.byID[t.id := Entry(t, Pending, [])], byCode := s.byCode[t.code := t.id])
  }

  function DoPoll(s: Store, id: string): Store {
    if id in s.byID then s.(byID := s.byID[id := Polled(s.byID[id], s.now)]) else s
  }

  /** The first locked section of each call: the lookup by code. */
  function DoStart(s: Store, thread: nat, call: Call): Store {
    if thread in s.threads then s
    else if call.code !in s.byCode then Finish(s, thread, Refused(UnknownCode))
    else
      var id := s.byCode[call.code];
      s.(threads := s.threads[thread :=
        match call
        case ApproveRoutine(_) => ClickFound(id)
        case ApproveElevated(_, root, sig) => StepUpFound(id, root, sig)
        case Deny(_) => DenyFound(id)])
  }

  /** A locked section that ends the call: it leaves the entry and reports. */
  function Conclude(s: Store, thread: nat, id: string, to: State, result: (Entry, Option<Error>)): Store {
    Finish(s.(byID := s.byID[id := result.0]), thread,
      match result.1
      case None => Granted(id, to, s.now)
      case Some(e) => Refused(e))
  }

  function DoAdvance(cfg: Config, s: Store, thread: nat): Store {
    if thread !in s.threads || s.threads[thread].id !in s.byID then s
    else
      var point := s.threads[thread];
      var id := point.id;
      var e := s.byID[id];
      match point
      case ClickFound(_) => Conclude(s, thread, id, Approved, Click(e, s.now))
      case DenyFound(_) => Conclude(s, thread, id, Denied, Transition(e, Denied, s.now))
      case StepUpFound(_, root, sig) => (
        match StepUpCheck(cfg.c, cfg.chainID, cfg.registry, e.terms, root, sig)
        case Some(error) => Finish(s, thread, Refused(error))
        case None => s.(threads := s.threads[thread := StepUpChecked(id, sig)]))
      case StepUpChecked(_, sig) =>
        s.(byID := s.byID[id := e.(stepUpSig := sig)], threads := s.threads[thread := StepUpWritten(id)])
      case StepUpWritten(_) => Conclude(s, thread, id, Approved, Transition(e, Approved, s.now))
  }

  function Step(cfg: Config, s: Store, a: Action): Store {
    match a
    case Tick(elapsed) => s.(now := s.now + elapsed)
    case Create(t) => DoCreate(s, t)
    case Poll(id) => DoPoll(s, id)
    case Start(thread, call) => DoStart(s, thread, call)
    case Advance(thread) => DoAdvance(cfg, s, thread)
  }

  function Run(cfg: Config, s: Store, actions: seq<Action>): Store
    decreases |actions|
  {
    if actions == [] then s else Run(cfg, Step(cfg, s, actions[0]), actions[1..])
  }

  // ---------------------------------------------------------------- what every step keeps

  /** Codes and threads point at stored requests filed under their own id and code. */
  ghost predicate Indexed(s: Store) {
    && (forall id :: id in s.byID ==> s.byID[id].terms.id == id)
    && (forall code :: code in s.byCode ==> s.byCode[code] in s.byID && s.byID[s.byCode[code]].terms.code == code)
    && (forall id :: id in s.byID ==> s.byID[id].terms.code in s.byCode && s.byCode[s.byID[id].terms.code] == id)
    && (forall thread :: thread in s.threads ==> s.threads[thread].id in s.byID)
  }

  lemma ConcludeFrame(s: Store, thread: nat, id: string, to: State, result: (Entry, Option<Error>))
    requires id in s.byID && result.0.terms == s.byID[id].terms
    ensures var t := Conclude(s, thread, id, to, result);
      && t.now == s.now && t.byCode == s.byCode && t.byID.Keys == s.byID.Keys
      && (forall i :: i in s.byID ==> t.byID[i].terms == s.byID[i].terms)
      && (forall n :: n in t.threads ==> n in s.threads && t.threads[n] == s.threads[n])
  {
  }

  /** Advance files nothing new: codes, request terms and the requests that threads hold stay as they are. */
  lemma AdvanceFrame(cfg: Config, s: Store, thread: nat)
    ensures var t := DoAdvance(cfg, s, thread);
      && t.now == s.now && t.byCode == s.byCode && t.byID.Keys == s.byID.Keys
      && (forall id :: id in s.byID ==> t.byID[id].terms == s.byID[id].terms)
      && (forall n :: n in t.threads ==> n in s.threads && t.threads[n].id == s.threads[n].id)
  {
    if thread in s.threads && s.threads[thread].id in s.byID {
      var id := s.threads[thread].id;
      var e := s.byID[id];
      match s.threads[thread]
      case ClickFound(_) => ConcludeFrame(s, thread, id, Approved, Click(e, s.now));
      case DenyFound(_) => ConcludeFrame(s, thread, id, Denied, Transition(e, Denied, s.now));
      case StepUpWritten(_) => ConcludeFrame(s, thread, id, Approved, Transition(e, Approved, s.now));
      case _ =>
    }
  }

  lemma StepKeepsIndex(cfg: Config, s: Store, a: Action)
    requires Indexed(s)
    ensures Indexed(Step(cfg, s, a))
  {
    match a
    case Advance(thread) => AdvanceFrame(cfg, s, thread);
    case _ =>
  }

  /** What no step takes away: requests stay filed with their terms, decided ones with their state. */
  ghost predicate Persists(s: Store, t: Store) {
    && s.now <= t.now
    && (forall code :: code in s.byCode ==> code in t.byCode && t.byCode[code] == s.byCode[code])
    && (forall id :: id in s.byID ==>
          && id in t.byID && t.byID[id].terms == s.byID[id].terms
          && (s.byID[id].state != Pending ==> t.byID[id].state == s.byID[id].state))
    && s.outcomes <= t.outcomes
  }

  lemma AdvancePersists(cfg: Config, s: Store, thread: nat)
    ensures Persists(s, DoAdvance(cfg, s, thread))
  {
  }

  lemma StepPersists(cfg: Config, s: Store, a: Action)
    ensures Persists(s, Step(cfg, s, a))
  {
    if a.Advance? {
      AdvancePersists(cfg, s, a.thread);
    }
  }

  // ---------------------------------------------------------------- at most one decision

  /** A granted call is the one decision its request ever gets, and it fell before the deadline. */
  ghost predicate Decided(s: Store) {
    && (forall i :: 0 <= i < |s.outcomes| ==> GrantStands(s, s.outcomes[i].1))
    && (forall i, j :: 0 <= i < j < |s.outcomes| ==> !SameRequest(s.outcomes[i].1, s.outcomes[j].1))
    && (forall id :: id in s.byID && s.byID[id].state in {Approved, Denied} ==> HasGrant(s.outcomes, id))
  }

  ghost predicate GrantStands(s: Store, o: Outcome) {
    o.Granted? ==>
      && o.to in {Approved, Denied}
      && o.id in s.byID && s.byID[o.id].state == o.to
      && o.at <= s.byID[o.id].terms.expiresAt && o.at <= s.now
  }

  ghost predicate SameRequest(o: Outcome, p: Outcome) {
    o.Granted? && p.Granted? && o.id == p.id
  }

  ghost predicate HasGrant(outcomes: seq<(nat, Outcome)>, id: string) {
    exists i :: 0 <= i < |outcomes| && outcomes[i].1.Granted? && outcomes[i].1.id == id
  }

  lemma GrantsGrow(outcomes: seq<(nat, Outcome)>, more: seq<(nat, Outcome)>, id: string)
    requires outcomes <= more && HasGrant(outcomes, id)
    ensures HasGrant(more, id)
  {
  }

  /** A step that appends no grant and moves no request into or out of a decision. */
  lemma DecidedFrame(s: Store, t: Store)
    requires Decided(s) && Persists(s, t)
    requires t.outcomes == s.outcomes || (|t.outcomes| == |s.outcomes| + 1 && t.outcomes[|s.outcomes|].1.Refused?)
    requires forall id :: id in t.byID && t.byID[id].state in {Approved, Denied} ==>
               id in s.byID && t.byID[id].state == s.byID[id].state
    ensures Decided(t)
  {
  }

  lemma ConcludeKeepsDecided(s: Store, thread: nat, id: string, to: State, result: (Entry, Option<Error>))
    requires Decided(s) && id in s.byID && to in {Approved, Denied}
    requires result == Transition(s.byID[id], to, s.now) || (result.0 == s.byID[id] && result.1.Some?)
    ensures Decided(Conclude(s, thread, id, to, result))
  {
    var t := Conclude(s, thread, id, to, result);
    if result.1.Some? {
      DecidedFrame(s, t);
    } else {
      forall i | 0 <= i < |t.outcomes|
        ensures GrantStands(t, t.outcomes[i].1)
        ensures i < |s.outcomes| ==> !SameRequest(t.outcomes[i].1, t.outcomes[|s.outcomes|].1)
      {
        if i < |s.outcomes| {
          assert GrantStands(s, s.outcomes[i].1);
        }
      }
      forall other | other in t.byID && t.byID[other].state in {Approved, Denied}
        ensures HasGrant(t.outcomes, other)
      {
        if other == id {
          assert t.outcomes[|s.outcomes|].1.id == id;
        } else {
          GrantsGrow(s.outcomes, t.outcomes, other);
        }
      }
    }
  }

  lemma AdvanceKeepsDecided(cfg: Config, s: Store, thread: nat)
    requires Decided(s)
    ensures Decided(DoAdvance(cfg, s, thread))
  {
    if thread in s.threads && s.threads[thread].id in s.byID {
      var id := s.threads[thread].id;
      var e := s.byID[id];
      match s.threads[thread]
      case ClickFound(_) => ConcludeKeepsDecided(s, thread, id, Approved, Click(e, s.now));
      case DenyFound(_) => ConcludeKeepsDecided(s, thread, id, Denied, Transition(e, Denied, s.now));
      case StepUpWritten(_) => ConcludeKeepsDecided(s, thread, id, Approved, Transition(e, Approved, s.now));
      case _ =>
        AdvancePersists(cfg, s, thread);
        DecidedFrame(s, DoAdvance(cfg, s, thread));
    }
  }

  lemma StepKeepsDecided(cfg: Config, s: Store, a: Action)
    requires Decided(s)
    ensures Decided(Step(cfg, s, a))
  {
    if a.Advance? {
      AdvanceKeepsDecided(cfg, s, a.thread);
    } else {
      StepPersists(cfg, s, a);
      DecidedFrame(s, Step(cfg, s, a));
    }
  }

  lemma {:induction false} RunKeepsDecided(cfg: Config, s: Store, actions: seq<Action>)
    requires Indexed(s) && Decided(s)
    ensures var t := Run(cfg, s, actions);
      Indexed(t) && Decided(t) && Persists(s, t)
    decreases |actions|
  {
    if actions != [] {
      var t := Step(cfg, s, actions[0]);
      StepKeepsIndex(cfg, s, actions[0]);
      StepKeepsDecided(cfg, s, actions[0]);
      StepPersists(cfg, s, actions[0]);
      RunKeepsDecided(cfg, t, actions[1..]);
    }
  }

  /**
   * Over every interleaving of every number of threads: two successful calls never concern one request, and
   * a request is approved or denied exactly when one call succeeded in doing so, not after the deadline.
   */
  lemma AtMostOneDecision(cfg: Config, start: int, actions: seq<Action>)
    ensures var s := Run(cfg, Empty(start), actions);
      && (forall i, j :: 0 <= i < j < |s.outcomes| && s.outcomes[i].1.Granted? && s.outcomes[j].1.Granted? ==>
            s.outcomes[i].1.id != s.outcomes[j].1.id)
      && (forall id :: id in s.byID ==>
            (s.byID[id].state in {Approved, Denied} <==>
              exists i :: 0 <= i < |s.outcomes| && s.outcomes[i].1.Granted? && s.outcomes[i].1.id == id))
      && (forall i :: 0 <= i < |s.outcomes| && s.outcomes[i].1.Granted? ==>
            var o := s.outcomes[i].1;
            o.id in s.byID && s.byID[o.id].state == o.to && o.at <= s.byID[o.id].terms.expiresAt)
  {
    RunKeepsDecided(cfg, Empty(start), actions);
    var s := Run(cfg, Empty(start), actions);
    forall i | 0 <= i < |s.outcomes|
      ensures GrantStands(s, s.outcomes[i].1)
    {
    }
    forall i, j | 0 <= i < j < |s.outcomes|
      ensures !SameRequest(s.outcomes[i].1, s.outcomes[j].1)
    {
    }
    forall id | id in s.byID && s.byID[id].state in {Approved, Denied}
      ensures HasGrant(s.outcomes, id)
    {
    }
  }

  /** Once a request is approved, denied or expired it stays so, whatever the threads do next. */
  lemma TerminalStatesStay(cfg: Config, start: int, before: seq<Action>, after: seq<Action>, id: string)
    requires id in Run(cfg, Empty(start), before).byID
    requires Run(cfg, Empty(start), before).byID[id].state != Pending
    ensures var s := Run(cfg, Empty(start), before);
      var t := Run(cfg, s, after);
      id in t.byID && t.byID[id].state == s.byID[id].state && t.byID[id].terms == s.byID[id].terms
  {
    RunKeepsDecided(cfg, Empty(start), before);
    RunKeepsDecided(cfg, Run(cfg, Empty(start), before), after);
  }

  // ---------------------------------------------------------------- a click is never a signature

  /** The signature a request carries is a step-up by the root its agent is bound to. */
  ghost predicate SignedByRoot(cfg: Config, bind: map<string, string>, t: Terms, sig: Bytes) {
    && t.tier == Elevated
    && t.agentID in bind
    && StepUpHolds(cfg.c, cfg.chainID, cfg.registry, t, bind[t.agentID], sig)
  }

  ghost predicate EntrySigned(cfg: Config, bind: map<string, string>, e: Entry) {
    && (e.stepUpSig != [] ==> SignedByRoot(cfg, bind, e.terms, e.stepUpSig))
    && (e.terms.tier == Elevated && e.state == Approved ==> e.stepUpSig != [])
  }

  ghost predicate PointSigned(cfg: Config, bind: map<string, string>, s: Store, p: Point) {
    p.id in s.byID &&
    match p
    case StepUpFound(id, root, _) => RootIsBound(bind, s.byID[id].terms.agentID, root)
    case StepUpChecked(id, sig) => SignedByRoot(cfg, bind, s.byID[id].terms, sig)
    case StepUpWritten(id) => s.byID[id].stepUpSig != []
    case _ => true
  }

  ghost predicate RootIsBound(bind: map<string, string>, agent: string, root: string) {
    agent in bind && bind[agent] == root
  }

  ghost predicate Signed(cfg: Config, bind: map<string, string>, s: Store) {
    && (forall id :: id in s.byID ==> EntrySigned(cfg, bind, s.byID[id]))
    && (forall thread :: thread in s.threads ==> PointSigned(cfg, bind, s, s.threads[thread]))
  }

  /** The caller's part: a step-up is called with the root that the request's agent is bound to. */
  ghost predicate CallsBoundRoot(bind: map<string, string>, s: Store, a: Action) {
    a.Start? && a.call.ApproveElevated? && a.call.code in s.byCode && s.byCode[a.call.code] in s.byID ==>
      RootIsBound(bind, s.byID[s.byCode[a.call.code]].terms.agentID, a.call.root)
  }

  /** A thread that holds what it held before, or something that is in order itself. */
  ghost predicate HoldsOn(cfg: Config, bind: map<string, string>, s: Store, t: Store, n: nat)
    requires n in t.threads
  {
    (n in s.threads && t.threads[n] == s.threads[n]) || PointSigned(cfg, bind, t, t.threads[n])
  }

  lemma SameEntriesSigned(cfg: Config, bind: map<string, string>, s: Store, t: Store)
    requires Signed(cfg, bind, s) && t.byID == s.byID && forall n :: n in t.threads ==> HoldsOn(cfg, bind, s, t, n)
    ensures Signed(cfg, bind, t)
  {
    forall n | n in t.threads
      ensures PointSigned(cfg, bind, t, t.threads[n])
    {
      assert HoldsOn(cfg, bind, s, t, n);
      if n in s.threads && t.threads[n] == s.threads[n] {
        assert PointSigned(cfg, bind, s, s.threads[n]);
      }
    }
  }

  lemma PointStaysSigned(cfg: Config, bind: map<string, string>, s: Store, t: Store, id: string, e: Entry, p: Point)
    requires PointSigned(cfg, bind, s, p) && id in s.byID && t.byID == s.byID[id := e] && e.terms == s.byID[id].terms
    requires s.byID[id].stepUpSig != [] ==> e.stepUpSig != []
    ensures PointSigned(cfg, bind, t, p)
  {
  }

  /** Replacing one entry keeps every other entry and every thread's claim. */
  lemma SignedFrame(cfg: Config, bind: map<string, string>, s: Store, t: Store, id: string, e: Entry)
    requires Signed(cfg, bind, s) && id in s.byID
    requires t.byID == s.byID[id := e]
    requires e.terms == s.byID[id].terms && EntrySigned(cfg, bind, e)
    requires s.byID[id].stepUpSig != [] ==> e.stepUpSig != []
    requires forall n :: n in t.threads ==> HoldsOn(cfg, bind, s, t, n)
    ensures Signed(cfg, bind, t)
  {
    forall n | n in t.threads
      ensures PointSigned(cfg, bind, t, t.threads[n])
    {
      assert HoldsOn(cfg, bind, s, t, n);
      if n in s.threads && t.threads[n] == s.threads[n] {
        PointStaysSigned(cfg, bind, s, t, id, e, s.threads[n]);
      }
    }
  }

  lemma ConcludeKeepsSigned(cfg: Config, bind: map<string, string>, s: Store, thread: nat,
                            id: string, to: State, result: (Entry, Option<Error>))
    requires Signed(cfg, bind, s) && id in s.byID
    requires result.0.terms == s.byID[id].terms && result.0.stepUpSig == s.byID[id].stepUpSig
    requires EntrySigned(cfg, bind, result.0)
    ensures Signed(cfg, bind, Conclude(s, thread, id, to, result))
  {
    SignedFrame(cfg, bind, s, Conclude(s, thread, id, to, result), id, result.0);
  }

  lemma CheckKeepsSigned(cfg: Config, bind: map<string, string>, s: Store, thread: nat)
    requires Signed(cfg, bind, s) && thread in s.threads && s.threads[thread].StepUpFound?
    ensures Signed(cfg, bind, DoAdvance(cfg, s, thread))
  {
    var point := s.threads[thread];
    assert PointSigned(cfg, bind, s, point);
    SameEntriesSigned(cfg, bind, s, DoAdvance(cfg, s, thread));
  }

  lemma WriteKeepsSigned(cfg: Config, bind: map<string, string>, s: Store, thread: nat)
    requires Signed(cfg, bind, s) && thread in s.threads && s.threads[thread].StepUpChecked?
    ensures Signed(cfg, bind, DoAdvance(cfg, s, thread))
  {
    var point := s.threads[thread];
    assert PointSigned(cfg, bind, s, point);
    var e := s.byID[point.id].(stepUpSig := point.sig);
    assert e.stepUpSig != [];
    var t := s.(byID := s.byID[point.id := e], threads := s.threads[thread := StepUpWritten(point.id)]);
    SignedFrame(cfg, bind, s, t, point.id, e);
  }

  /** A decision keeps terms and signature, and approves an elevated entry only if it is signed. */
  lemma DecisionKeepsSigned(cfg: Config, bind: map<string, string>, e: Entry, to: State, now: int)
    requires EntrySigned(cfg, bind, e) && (to == Approved && e.terms.tier == Elevated ==> e.stepUpSig != [])
    ensures var r := Transition(e, to, now).0;
      r.terms == e.terms && r.stepUpSig == e.stepUpSig && EntrySigned(cfg, bind, r)
  {
  }

  lemma ClickKeepsSigned(cfg: Config, bind: map<string, string>, s: Store, thread: nat)
    requires Signed(cfg, bind, s) && thread in s.threads && s.threads[thread].ClickFound? && s.threads[thread].id in s.byID
    ensures Signed(cfg, bind, DoAdvance(cfg, s, thread))
  {
    var id := s.threads[thread].id;
    var e := s.byID[id];
    assert EntrySigned(cfg, bind, e);
    if e.terms.tier == Routine {
      DecisionKeepsSigned(cfg, bind, e, Approved, s.now);
    }
    ConcludeKeepsSigned(cfg, bind, s, thread, id, Approved, Click(e, s.now));
  }

  lemma LastSectionKeepsSigned(cfg: Config, bind: map<string, string>, s: Store, thread: nat)
    requires Signed(cfg, bind, s) && thread in s.threads
    requires var p := s.threads[thread]; p.ClickFound? || p.DenyFound? || p.StepUpWritten?
    ensures Signed(cfg, bind, DoAdvance(cfg, s, thread))
  {
    var point := s.threads[thread];
    assert PointSigned(cfg, bind, s, point);
    if point.ClickFound? {
      ClickKeepsSigned(cfg, bind, s, thread);
    } else {
      var e, to := s.byID[point.id], if point.DenyFound? then Denied else Approved;
      assert EntrySigned(cfg, bind, e);
      DecisionKeepsSigned(cfg, bind, e, to, s.now);
      ConcludeKeepsSigned(cfg, bind, s, thread, point.id, to, Transition(e, to, s.now));
    }
  }

  lemma AdvanceKeepsSigned(cfg: Config, bind: map<string, string>, s: Store, thread: nat)
    requires Signed(cfg, bind, s)
    ensures Signed(cfg, bind, DoAdvance(cfg, s, thread))
  {
    if thread in s.threads {
      match s.threads[thread]
      case StepUpFound(_, _, _) => CheckKeepsSigned(cfg, bind, s, thread);
      case StepUpChecked(_, _) => WriteKeepsSigned(cfg, bind, s, thread);
      case _ => LastSectionKeepsSigned(cfg, bind, s, thread);
    }
  }

  lemma StartKeepsSigned(cfg: Config, bind: map<string, string>, s: Store, thread: nat, call: Call)
    requires Indexed(s) && Signed(cfg, bind, s) && CallsBoundRoot(bind, s, Start(thread, call))
    ensures Signed(cfg, bind, DoStart(s, thread, call))
  {
    SameEntriesSigned(cfg, bind, s, DoStart(s, thread, call));
  }

  lemma PollKeepsSigned(cfg: Config, bind: map<string, string>, s: Store, id: string)
    requires Signed(cfg, bind, s)
    ensures Signed(cfg, bind, DoPoll(s, id))
  {
    if id in s.byID {
      assert EntrySigned(cfg, bind, s.byID[id]);
      SignedFrame(cfg, bind, s, DoPoll(s, id), id, Polled(s.byID[id], s.now));
    }
  }

  lemma CreateKeepsSigned(cfg: Config, bind: map<string, string>, s: Store, terms: Terms)
    requires Signed(cfg, bind, s)
    ensures Signed(cfg, bind, DoCreate(s, terms))
  {
  }

  lemma StepKeepsSigned(cfg: Config, bind: map<string, string>, s: Store, a: Action)
    requires Indexed(s) && Signed(cfg, bind, s) && CallsBoundRoot(bind, s, a)
    ensures Signed(cfg, bind, Step(cfg, s, a))
  {
    match a
    case Advance(thread) => AdvanceKeepsSigned(cfg, bind, s, thread);
    case Start(thread, call) => StartKeepsSigned(cfg, bind, s, thread, call);
    case Create(terms) => CreateKeepsSigned(cfg, bind, s, terms);
    case Poll(id) => PollKeepsSigned(cfg, bind, s, id);
    case Tick(elapsed) => SameEntriesSigned(cfg, bind, s, s.(now := s.now + elapsed));
  }

  /** Bindings only grow, and what is signed under some stays signed under more. */
  lemma SignedUnderMore(cfg: Config, bind: map<string, string>, more: map<string, string>, s: Store)
    requires Signed(cfg, bind, s)
    requires forall agent :: agent in bind ==> agent in more && more[agent] == bind[agent]
    ensures Signed(cfg, more, s)
  {
  }

  // ---------------------------------------------------------------- polling has no influence

  function WithoutPolls(actions: seq<Action>): seq<Action> {
    if actions == [] then []
    else (if actions[0].Poll? then [] else [actions[0]]) + WithoutPolls(actions[1..])
  }

  /** The same entry, save that a poll may already have marked a late pending request as expired. */
  ghost predicate SameEntry(e: Entry, f: Entry, now: int) {
    && e.terms == f.terms && e.stepUpSig == f.stepUpSig
    && (e.state == f.state || (e.state == Expired && f.state == Pending && Late(f, now)))
  }

  /** The same success or failure; a refused late call may name the expiry it found instead of the one it caused. */
  ghost predicate SameOutcome(o: Outcome, p: Outcome) {
    o == p || (o == Refused(Already(Expired)) && p == Refused(WindowClosed))
  }

  ghost predicate SameRun(s: Store, t: Store) {
    && s.now == t.now && s.byCode == t.byCode && s.threads == t.threads && s.byID.Keys == t.byID.Keys
    && (forall id :: id in s.byID ==> SameEntry(s.byID[id], t.byID[id], s.now))
    && |s.outcomes| == |t.outcomes|
    && (forall i :: 0 <= i < |s.outcomes| ==>
          s.outcomes[i].0 == t.outcomes[i].0 && SameOutcome(s.outcomes[i].1, t.outcomes[i].1))
  }

  lemma PollKeepsSame(s: Store, t: Store, id: string)
    requires SameRun(s, t)
    ensures SameRun(DoPoll(s, id), t)
  {
  }

  lemma ConcludeKeepsSame(s: Store, t: Store, thread: nat, id: string, to: State,
                          r: (Entry, Option<Error>), q: (Entry, Option<Error>))
    requires SameRun(s, t) && id in s.byID
    requires SameEntry(r.0, q.0, s.now)
    requires r.1 == q.1 || (r.1 == Some(Already(Expired)) && q.1 == Some(WindowClosed))
    ensures SameRun(Conclude(s, thread, id, to, r), Conclude(t, thread, id, to, q))
  {
  }

  lemma AdvanceKeepsSame(cfg: Config, s: Store, t: Store, thread: nat)
    requires SameRun(s, t)
    ensures SameRun(DoAdvance(cfg, s, thread), DoAdvance(cfg, t, thread))
  {
    if thread in s.threads && s.threads[thread].id in s.byID {
      var id := s.threads[thread].id;
      var e, f := s.byID[id], t.byID[id];
      assert SameEntry(e, f, s.now);
      match s.threads[thread]
      case ClickFound(_) =>
        ConcludeKeepsSame(s, t, thread, id, Approved, Click(e, s.now), Click(f, s.now));
      case DenyFound(_) =>
        ConcludeKeepsSame(s, t, thread, id, Denied, Transition(e, Denied, s.now), Transition(f, Denied, s.now));
      case StepUpWritten(_) =>
        ConcludeKeepsSame(s, t, thread, id, Approved, Transition(e, Approved, s.now), Transition(f, Approved, s.now));
      case _ =>
    }
  }

  lemma StepKeepsSame(cfg: Config, s: Store, t: Store, a: Action)
    requires SameRun(s, t) && !a.Poll?
    ensures SameRun(Step(cfg, s, a), Step(cfg, t, a))
  {
    if a.Advance? {
      AdvanceKeepsSame(cfg, s, t, a.thread);
    }
  }

  lemma {:induction false} RunsStaySame(cfg: Config, s: Store, t: Store, actions: seq<Action>)
    requires SameRun(s, t)
    ensures SameRun(Run(cfg, s, actions), Run(cfg, t, WithoutPolls(actions)))
    decreases |actions|
  {
    if actions != [] {
      var a, rest := actions[0], WithoutPolls(actions[1..]);
      if a.Poll? {
        PollKeepsSame(s, t, a.id);
        RunsStaySame(cfg, Step(cfg, s, a), t, actions[1..]);
        assert WithoutPolls(actions) == rest;
      } else {
        StepKeepsSame(cfg, s, t, a);
        RunsStaySame(cfg, Step(cfg, s, a), Step(cfg, t, a), actions[1..]);
        assert WithoutPolls(actions) == [a] + rest;
        assert ([a] + rest)[1..] == rest;
      }
    }
  }

  /**
   * Polling cannot influence outcomes: leaving every poll out of a run changes neither the success of any
   * approve or deny call nor the state any request is effectively in.
   */
  lemma PollingHasNoInfluence(cfg: Config, start: int, actions: seq<Action>)
    ensures var s, t := Run(cfg, Empty(start), actions), Run(cfg, Empty(start), WithoutPolls(actions));
      && s.now == t.now
      && |s.outcomes| == |t.outcomes|
      && (forall i :: 0 <= i < |s.outcomes| ==>
            && s.outcomes[i].0 == t.outcomes[i].0
            && (s.outcomes[i].1.Granted? || t.outcomes[i].1.Granted? ==> s.outcomes[i] == t.outcomes[i]))
      && s.byID.Keys == t.byID.Keys
      && (forall id :: id in s.byID ==>
            && s.byID[id].terms == t.byID[id].terms && s.byID[id].stepUpSig == t.byID[id].stepUpSig
            && EffectiveState(s.byID[id], s.now) == EffectiveState(t.byID[id], t.now))
  {
    RunsStaySame(cfg, Empty(start), Empty(start), actions);
    var s, t := Run(cfg, Empty(start), actions), Run(cfg, Empty(start), WithoutPolls(actions));
    forall i | 0 <= i < |s.outcomes|
      ensures SameOutcome(s.outcomes[i].1, t.outcomes[i].1)
    {
    }
    forall id | id in s.byID
      ensures SameEntry(s.byID[id], t.byID[id], s.now)
    {
    }
  }
}
