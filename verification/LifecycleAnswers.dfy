/**
 What the answer of a reconnect says, over whole runs: which steps of the run a call must have taken to be
 answered as it is, and that those steps always earn that answer.
 */
module LifecycleAnswers {
  import opened Wrappers
  import opened Lifecycle
  import opened LifecycleSafety
  import opened LifecycleShutdown
  import opened LifecycleHolder
  import opened AutoReconnect

  /** What can happen to a reconnect call on its way to an answer. */
  datatype Milestone =
    | FoundAlive
    | AddedGeneration
    | PostedConnected
    | Returned
    | HandshakeFailed
    | FoundShutdown
    | LostWriter

  /** The step from `s` to `t` is one of call `k`, which holds the lock, and has this effect or outcome. */
  predicate Reaches(m: Milestone, k: nat, s: State, a: Action, t: State) {
    && s.core.holder.Some? && s.core.holder.value.call == k && a.StepReconnect?
    && var pc := s.core.holder.value.pc;
       match m
       case FoundAlive => pc.CheckAlive? && s.core.alive
       case AddedGeneration => |t.core.gens| == |s.core.gens| + 1
       case PostedConnected => t.version == s.version + 1 && t.connection == Connected
       case Returned => pc.EmitReconnected?
       case HandshakeFailed => pc.Connecting? && !a.ok
       case FoundShutdown => (pc.CheckShutdown? || pc.Rechecking?) && s.core.shuttingDown
       case LostWriter => (pc.SendConnect? || (pc.SendTransport? && a.ok)) && !WriterListens(s.core)
  }

  /** The run takes call `k` past these milestones, in this order. */
  predicate Passes(k: nat, s: State, acts: seq<Action>, ms: seq<Milestone>)
    decreases |acts|
  {
    || ms == []
    || (&& acts != [] && Step(s, acts[0]).Some?
        && var t := Step(s, acts[0]).value;
           || (Reaches(ms[0], k, s, acts[0], t) && Passes(k, t, acts[1..], ms[1..]))
           || Passes(k, t, acts[1..], ms))
  }

  /** The way of a call that connects. */
  const CONNECTING := [AddedGeneration, PostedConnected, Returned]

  // ── Answers are given once ───────────────────────────────────

  lemma OnlyHolderAnswers(s: State, a: Action, t: State)
    requires Step(s, a) == Some(t)
    ensures t.results == s.results || (a.StepReconnect? && HolderShape(s, a.ok, t) && Answers(s.core, a.ok))
  {
    if a.StepReconnect? {
      ReconnectKeepsShape(s, a.ok, t);
    } else if a.StepShutdown? {
      ShutdownKeepsShape(s, t);
    } else if a.StepDisconnect? {
      DisconnectKeepsShape(s, a.id, a.ok, t);
    } else if a.StepAuto? {
      AutoKeepsShape(s, a.ok, a.call, t);
    } else if a.OfTask() {
      TaskKeepsShape(s, a, t);
    } else {
      CallKeepsShape(s, a, t);
    }
  }

  /** Once given, an answer stands. */
  lemma {:induction false} AnswerStands(s: State, acts: seq<Action>, t: State, k: nat)
    requires AutoInv(s) && Run(s, acts) == Some(t) && k in s.results
    ensures k in t.results && t.results[k] == s.results[k]
    decreases |acts|
  {
    if acts != [] {
      var u := RunSplits(s, acts);
      OnlyHolderAnswers(s, acts[0], u);
      StepKeepsAutoInv(s, acts[0], u);
      AnswerStands(u, acts[1..], t, k);
    }
  }

  // ── Every answer has its milestones ──────────────────────────

  /** What call `k`, as yet unanswered, still has ahead on its way to success. */
  function Ahead(c: Core, k: nat): seq<Milestone> {
    if c.holder.None? || c.holder.value.call != k || c.Rank() < 9 then CONNECTING
    else if c.Rank() < 21 then [PostedConnected, Returned]
    else [Returned]
  }

  /** The run takes `k` past milestones that explain answer `r`. */
  predicate Explained(k: nat, s: State, acts: seq<Action>, r: CallResult) {
    match r
    case Ok(_) => Passes(k, s, acts, [FoundAlive]) || Passes(k, s, acts, Ahead(s.core, k))
    case Err(ConnectError) => Passes(k, s, acts, [HandshakeFailed])
    case Err(DisconnectedError) => Passes(k, s, acts, [FoundShutdown]) || Passes(k, s, acts, [LostWriter])
  }

  /** The milestone of a step at which the call is answered. */
  function Outcome(pc: HolderPc): Milestone {
    if pc.CheckAlive? then FoundAlive
    else if pc.EmitReconnected? then Returned
    else if pc.Connecting? then HandshakeFailed
    else if pc.CheckShutdown? || pc.Rechecking? then FoundShutdown
    else LostWriter
  }

  lemma AnsweringReaches(s: State, a: Action, t: State, k: nat)
    requires a.StepReconnect? && HolderShape(s, a.ok, t) && Answers(s.core, a.ok) && s.core.holder.value.call == k
    ensures
      var pc := s.core.holder.value.pc;
      Reaches(Outcome(pc), k, s, a, t) && k in t.results && t.results[k] == AnswerAt(pc)
  {
  }

  lemma PassesFirst(k: nat, s: State, acts: seq<Action>, t: State, m: Milestone)
    requires acts != [] && Step(s, acts[0]) == Some(t) && Reaches(m, k, s, acts[0], t)
    ensures Passes(k, s, acts, [m])
  {
    assert Passes(k, t, acts[1..], [m][1..]);
  }

  lemma PassesLater(k: nat, s: State, acts: seq<Action>, t: State, ms: seq<Milestone>)
    requires acts != [] && Step(s, acts[0]) == Some(t) && Passes(k, t, acts[1..], ms)
    ensures Passes(k, s, acts, ms)
  {
  }

  lemma PassesFrom(k: nat, s: State, acts: seq<Action>, t: State, ms: seq<Milestone>)
    requires acts != [] && ms != [] && Step(s, acts[0]) == Some(t)
    requires Reaches(ms[0], k, s, acts[0], t) && Passes(k, t, acts[1..], ms[1..])
    ensures Passes(k, s, acts, ms)
  {
  }

  lemma HolderShrinksAhead(s: State, ok: bool, t: State, k: nat)
    requires ReconnectStep(s, ok) == Some(t) && k !in t.results
    ensures
      var ms := Ahead(s.core, k);
      || Ahead(t.core, k) == ms
      || (Ahead(t.core, k) == ms[1..] && Reaches(ms[0], k, s, StepReconnect(ok), t))
  {
    ReconnectKeepsShape(s, ok, t);
  }

  lemma ShutdownKeepsAhead(s: State, t: State, k: nat)
    requires Inv(s.core) && ShutdownStep(s) == Some(t)
    ensures Ahead(t.core, k) == Ahead(s.core, k)
  {
    ShutdownKeepsShape(s, t);
  }

  lemma CallKeepsAhead(s: State, a: Action, t: State, k: nat)
    requires CallStep(s, a) == Some(t)
    ensures Ahead(t.core, k) == Ahead(s.core, k)
  {
    CallKeepsShape(s, a, t);
  }

  /** No step of another actor moves an unanswered call on, or back. */
  lemma OthersKeepAhead(s: State, a: Action, t: State, k: nat)
    requires Inv(s.core) && Step(s, a) == Some(t) && !a.StepReconnect?
    ensures Ahead(t.core, k) == Ahead(s.core, k)
  {
    if a.StepShutdown? {
      ShutdownKeepsAhead(s, t, k);
    } else if a.StepDisconnect? {
      DisconnectKeepsShape(s, a.id, a.ok, t);
    } else if a.StepAuto? {
      AutoKeepsShape(s, a.ok, a.call, t);
    } else if a.OfTask() {
      TaskOnlyCalms(s, a, t);
    } else {
      CallKeepsAhead(s, a, t, k);
    }
  }

  lemma AheadIsPassed(s: State, acts: seq<Action>, t: State, k: nat)
    requires Inv(s.core) && acts != [] && Step(s, acts[0]) == Some(t) && k !in t.results
    requires Passes(k, t, acts[1..], Ahead(t.core, k))
    ensures Passes(k, s, acts, Ahead(s.core, k))
  {
    if acts[0].StepReconnect? {
      HolderShrinksAhead(s, acts[0].ok, t, k);
    } else {
      OthersKeepAhead(s, acts[0], t, k);
    }
  }

  lemma AnsweredNow(s: State, acts: seq<Action>, t: State, k: nat)
    requires acts != [] && Step(s, acts[0]) == Some(t) && k !in s.results && k in t.results
    ensures Explained(k, s, acts, t.results[k])
  {
    OnlyHolderAnswers(s, acts[0], t);
    AnsweringReaches(s, acts[0], t, k);
    PassesFirst(k, s, acts, t, Outcome(s.core.holder.value.pc));
  }

  lemma ExplainedLater(s: State, acts: seq<Action>, t: State, k: nat, r: CallResult)
    requires Inv(s.core) && acts != [] && Step(s, acts[0]) == Some(t) && k !in t.results
    requires Explained(k, t, acts[1..], r)
    ensures Explained(k, s, acts, r)
  {
    if r.Ok? && Passes(k, t, acts[1..], Ahead(t.core, k)) {
      AheadIsPassed(s, acts, t, k);
    }
  }

  lemma {:induction false} AnswerIsExplained(s: State, acts: seq<Action>, t: State, k: nat)
    requires Inv(s.core) && AutoInv(s) && Run(s, acts) == Some(t) && k !in s.results && k in t.results
    ensures Explained(k, s, acts, t.results[k])
    decreases |acts|
  {
    var u := RunSplits(s, acts);
    StepKeepsInv(s, acts[0], u);
    StepKeepsAutoInv(s, acts[0], u);
    if k in u.results {
      AnswerStands(u, acts[1..], t, k);
      AnsweredNow(s, acts, u, k);
    } else {
      AnswerIsExplained(u, acts[1..], t, k);
      ExplainedLater(s, acts, u, k, t.results[k]);
    }
  }

  // ── Every milestone has its answer ───────────────────────────

  /** The milestones that answer, and how. */
  function Verdict(m: Milestone): Option<CallResult> {
    match m
    case FoundAlive => Some(Ok(()))
    case Returned => Some(Ok(()))
    case HandshakeFailed => Some(Err(ConnectError))
    case FoundShutdown => Some(Err(DisconnectedError))
    case LostWriter => Some(Err(DisconnectedError))
    case AddedGeneration => None
    case PostedConnected => None
  }

  lemma ReachingAnswers(m: Milestone, k: nat, s: State, a: Action, t: State)
    requires Step(s, a) == Some(t) && Reaches(m, k, s, a, t) && Verdict(m).Some?
    ensures k in t.results && t.results[k] == Verdict(m).value
  {
    ReconnectKeepsShape(s, a.ok, t);
  }

  lemma {:induction false} PassingAnswers(k: nat, s: State, acts: seq<Action>, t: State, m: Milestone)
    requires AutoInv(s) && Run(s, acts) == Some(t) && Verdict(m).Some? && Passes(k, s, acts, [m])
    ensures k in t.results && t.results[k] == Verdict(m).value
    decreases |acts|
  {
    var u := RunSplits(s, acts);
    StepKeepsAutoInv(s, acts[0], u);
    if Reaches(m, k, s, acts[0], u) {
      ReachingAnswers(m, k, s, acts[0], u);
      AnswerStands(u, acts[1..], t, k);
    } else {
      PassingAnswers(k, u, acts[1..], t, m);
    }
  }

  lemma {:induction false} PassesTail(k: nat, s: State, acts: seq<Action>, ms: seq<Milestone>)
    requires ms != [] && Passes(k, s, acts, ms)
    ensures Passes(k, s, acts, ms[1..])
    decreases |acts|
  {
    var t := Step(s, acts[0]).value;
    if !Passes(k, t, acts[1..], ms[1..]) {
      PassesTail(k, t, acts[1..], ms);
    }
    if ms[1..] != [] {
      PassesLater(k, s, acts, t, ms[1..]);
    }
  }

  lemma ConnectingReturns(k: nat, s: State, acts: seq<Action>)
    requires Passes(k, s, acts, CONNECTING)
    ensures Passes(k, s, acts, [Returned])
  {
    PassesTail(k, s, acts, CONNECTING);
    PassesTail(k, s, acts, CONNECTING[1..]);
    assert CONNECTING[1..][1..] == [Returned];
  }

  /** In every run a reconnect called from `s` on is answered `Ok` exactly when it found `alive` set, or has itself
      added a generation, then posted `Connected` and returned; `ConnectError` exactly when its TLS handshake
      failed; and `Disconnected` exactly when one of its two checks found `shutting_down` set, or one of its two
      sends found the writer gone. */
  lemma AnswersExactly(s: State, acts: seq<Action>, t: State, k: nat)
    requires Reached(s) && FreshCall(s, k) && Run(s, acts) == Some(t)
    ensures
      k in t.results && t.results[k] == Ok(())
      <==> Passes(k, s, acts, [FoundAlive]) || Passes(k, s, acts, [AddedGeneration, PostedConnected, Returned])
    ensures k in t.results && t.results[k] == Err(ConnectError) <==> Passes(k, s, acts, [HandshakeFailed])
    ensures
      k in t.results && t.results[k] == Err(DisconnectedError)
      <==> Passes(k, s, acts, [FoundShutdown]) || Passes(k, s, acts, [LostWriter])
  {
    ReachedIsSound(s);
    ReachedIsBounded(s);
    if k in t.results {
      AnswerIsExplained(s, acts, t, k);
    }
    if Passes(k, s, acts, CONNECTING) {
      ConnectingReturns(k, s, acts);
    }
    forall m: Milestone | Verdict(m).Some? && Passes(k, s, acts, [m])
      ensures k in t.results && t.results[k] == Verdict(m).value
    {
      PassingAnswers(k, s, acts, t, m);
    }
  }
}
