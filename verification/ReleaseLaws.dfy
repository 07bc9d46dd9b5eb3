// What every part of a release run keeps, whatever its commands meet.

module ReleaseLaws {
  import opened Text
  import opened ReleaseHost
  import opened ReleaseEngine

  // ---- what a log tells ---------------------------------------------------------------------

  function Acts(log: seq<Entry>): (acts: seq<Act>)
    ensures |acts| == |log|
  {
    if log == [] then [] else Acts(log[..|log| - 1]) + [log[|log| - 1].Act()]
  }

  function LastHost(h: Host, log: seq<Entry>): Host {
    if log == [] then h else log[|log| - 1].after
  }

  /** The host right after the run took its lock. */
  function StartOf(log: seq<Entry>): Option<Host> {
    if log == [] then None
    else
      var before, e := StartOf(log[..|log| - 1]), log[|log| - 1];
      if before.Some? then before else if e.Act() == LockMade then Some(e.after) else None
  }

  /** The host after the last command the run made under its lock, or took it with. */
  function LastOwn(log: seq<Entry>): Option<Host> {
    if log == [] then None
    else
      var e := log[|log| - 1];
      if e.held || e.Act() == LockMade then Some(e.after) else LastOwn(log[..|log| - 1])
  }

  predicate Published(h: Host, t: Tree) {
    t.Release? && t in h.trees
  }

  /** Whenever another operator could act, `current` was left on a published release. */
  predicate SoundTurns(log: seq<Entry>) {
    forall k :: 0 <= k < |log| ==> Sound(log[k].turn.elsewhere)
  }

  predicate Proper(e: Entry) {
    e.command.LinkNext? ==> Published(e.before, e.command.tree)
  }

  /** One command as the engine runs it: on its own host while it holds the lock, on what others left otherwise. */
  predicate LawfulEntry(last: Host, stage: Option<Stage>, e: Entry) {
    && e.held == (stage == Some(Holding))
    && e.before == (if e.held then last else Meanwhile(last, e.turn.elsewhere))
    && (e.after, e.ok) == Perform(e.before, e.command, e.turn.fate)
    && NextStage(stage, e.Act()).Some?
  }

  /**
   * A log of commands run in turn from host `h`: each lawful, the lock taken at most once and everything written under
   * it, and only published releases linked as long as the others leave sound hosts.
   */
  predicate Lawful(h: Host, log: seq<Entry>) {
    log != [] ==>
      var init, e := log[..|log| - 1], log[|log| - 1];
      && Lawful(h, init)
      && LawfulEntry(LastHost(h, init), StageAfter(Acts(init)), e)
      && (SoundTurns(log) ==> Proper(e))
  }

  lemma SnocLog(log: seq<Entry>, e: Entry)
    ensures Acts(log + [e]) == Acts(log) + [e.Act()]
    ensures StageAfter(Acts(log + [e])) == NextStage(StageAfter(Acts(log)), e.Act())
    ensures StartOf(log + [e])
            == if StartOf(log).Some? then StartOf(log) else if e.Act() == LockMade then Some(e.after) else None
    ensures LastOwn(log + [e]) == if e.held || e.Act() == LockMade then Some(e.after) else LastOwn(log)
    ensures SoundTurns(log + [e]) <==> SoundTurns(log) && Sound(e.turn.elsewhere)
  {
    assert (log + [e])[..|log|] == log;
    assert (Acts(log) + [e.Act()])[..|log|] == Acts(log);
    hide ActOf, NextStage, Sound;
  }

  lemma SnocLawful(h: Host, log: seq<Entry>, e: Entry)
    ensures Lawful(h, log + [e]) <==>
            Lawful(h, log) && LawfulEntry(LastHost(h, log), StageAfter(Acts(log)), e)
            && (SoundTurns(log + [e]) ==> Proper(e))
  {
    assert (log + [e])[..|log|] == log;
  }

  lemma SoundMeanwhile(h: Host, elsewhere: Host)
    requires Sound(elsewhere)
    ensures Sound(Meanwhile(h, elsewhere))
  {
  }

  /** As long as the others leave sound hosts, so does a lawful log. */
  lemma {:induction false} LawfulKeepsSound(h: Host, log: seq<Entry>)
    requires Lawful(h, log) && Sound(h) && SoundTurns(log)
    ensures Sound(LastHost(h, log))
  {
    if log != [] {
      var init, e := log[..|log| - 1], log[|log| - 1];
      LawfulKeepsSound(h, init);
      SoundMeanwhile(LastHost(h, init), e.turn.elsewhere);
      PerformKeepsSound(e.before, e.command, e.turn.fate);
      hide Sound, Perform;
    }
  }

  // ---- a run in good order -----------------------------------------------------------------------

  /** A run from host `h`: its log is lawful, and it knows where it stands. */
  predicate Good(h: Host, m: Machine) {
    && Lawful(h, m.log) && m.host == LastHost(h, m.log)
    && (m.mine <==> StageAfter(Acts(m.log)) == Some(Holding))
    && (m.mine ==> m.host.lock && LastOwn(m.log) == Some(m.host))
    && (StartOf(m.log).None? <==> StageAfter(Acts(m.log)) == Some(Before))
  }

  /** Published, as long as the others leave sound hosts. */
  predicate Pub(m: Machine, t: Tree) {
    SoundTurns(m.log) ==> Published(m.host, t)
  }

  /** What the source does only under its lock, the model asks for. */
  predicate Allowed(m: Machine, c: Command) {
    && (Writes(c) || c.SwapNext? || c.RemoveLock? ==> m.mine)
    && (c.MakeLock? ==> StageAfter(Acts(m.log)) == Some(Before))
    && (c.LinkNext? ==> Pub(m, c.tree))
  }

  /** `n` came later: nothing of the log is lost. */
  predicate Since(m: Machine, n: Machine) {
    && m.log <= n.log && m.now <= n.now
    && (StartOf(m.log).Some? ==> StartOf(n.log) == StartOf(m.log))
  }

  /** Nothing was switched or restarted in between. */
  predicate Quiet(m: Machine, n: Machine) {
    |m.log| <= |n.log|
    && forall j :: |m.log| <= j < |n.log| ==> !n.log[j].command.SwapNext? && !n.log[j].command.Restart?
  }

  predicate ReleasesStay(g: Host, h: Host) {
    forall t :: t in g.trees && t.Release? ==> t in h.trees
  }

  /** The entry of a command. */
  function EntryOf(m: Machine, c: Command): Entry
    requires m.turns != []
  {
    var t := m.turns[0];
    var b := if m.mine then m.host else Meanwhile(m.host, t.elsewhere);
    Entry(c, t, m.mine, b, Perform(b, c, t.fate).0, Perform(b, c, t.fate).1)
  }

  lemma DidIs(m: Machine, c: Command)
    ensures var a := Did(m, c);
            if m.turns == [] then a == Reply(m, Gone, "")
            else
              var e := EntryOf(m, c);
              && a.m == Machine(e.after, m.turns[1..], m.now + e.turn.took,
                                (m.mine || e.Act() == LockMade) && e.Act() != LockRemoved, m.log + [e])
              && a.said == e.turn.says && a.status == if e.ok then Ok else Failed
  {
  }

  predicate Reads(c: Command) {
    c.Look? || c.TestAbsent? || c.TestPresent?
  }

  /** What everyone may rely on about one command. */
  predicate Kept(m: Machine, c: Command, a: Reply) {
    && ReleasesStay(m.host, a.m.host)
    && (a.status.Gone? <==> m.turns == []) && (a.status.Gone? ==> a.m == m)
    && (m.mine && !c.RemoveLock? ==> a.m.mine)
    && (!m.mine && Reads(c) ==>
        !a.m.mine && StageAfter(Acts(a.m.log)) == StageAfter(Acts(m.log)) && LastOwn(a.m.log) == LastOwn(m.log))
    && (m.mine && !a.status.Gone? ==> (a.m.host, a.status.Ok?) == Perform(m.host, c, m.turns[0].fate))
    && (a.status.Ok? && c.MakeLock? ==> a.m.mine)
    && (a.status.Ok? && c.RemoveLock? && m.mine ==> !a.m.mine)
    && (!c.SwapNext? && !c.Restart? ==> Quiet(m, a.m))
    && (!a.status.Gone? ==>
        a.m.turns == m.turns[1..] && a.m.log == m.log + [EntryOf(m, c)] && a.said == m.turns[0].says)
    && (!a.status.Gone? ==> a.m.log[|m.log|] == EntryOf(m, c) && a.status.Ok? == EntryOf(m, c).ok)
  }

  lemma LockActs(h: Host, c: Command, fate: Fate)
    ensures Perform(h, c, fate).1 && c.MakeLock? ==> ActOf(h, c, fate) == LockMade
    ensures Perform(h, c, fate).1 && c.RemoveLock? ==> ActOf(h, c, fate) == LockRemoved
    ensures !c.RemoveLock? ==> ActOf(h, c, fate) != LockRemoved
    ensures Reads(c) ==> ActOf(h, c, fate) == Other
    ensures ReleasesStay(h, Perform(h, c, fate).0)
  {
  }

  lemma ReleasesStayOn(g: Host, elsewhere: Host, after: Host)
    requires ReleasesStay(Meanwhile(g, elsewhere), after)
    ensures ReleasesStay(g, after)
  {
  }

  lemma DidIsKept(m: Machine, c: Command)
    ensures Kept(m, c, Did(m, c))
  {
    DidIs(m, c);
    if m.turns != [] {
      var e := EntryOf(m, c);
      SnocLog(m.log, e);
      LockActs(e.before, c, e.turn.fate);
      hide Did, Perform, ActOf, Sound, Acts, StartOf, LastOwn, StageAfter, SoundTurns, ReleasesStay, Meanwhile;
      if !m.mine {
        ReleasesStayOn(m.host, m.turns[0].elsewhere, e.after);
      }
    } else {
      hide *;
      NothingDone(m, c);
    }
  }

  lemma NothingDone(m: Machine, c: Command)
    requires m.turns == []
    ensures Kept(m, c, Reply(m, Gone, ""))
  {
    hide Acts, StageAfter, LastOwn, Perform;
  }

  lemma LawfulStage(h: Host, log: seq<Entry>)
    requires Lawful(h, log)
    ensures StageAfter(Acts(log)).Some?
  {
    hide *;
    if log == [] {
      NothingIsBefore();
    } else {
      var init, e := log[..|log| - 1], log[|log| - 1];
      assert log == init + [e];
      SnocLog(init, e);
      SnocLawful(h, init, e);
      EntryKeepsStage(LastHost(h, init), StageAfter(Acts(init)), e);
    }
  }

  lemma NothingIsBefore()
    ensures StageAfter(Acts([])) == Some(Before)
  {
  }

  lemma EntryKeepsStage(last: Host, stage: Option<Stage>, e: Entry)
    requires LawfulEntry(last, stage, e)
    ensures NextStage(stage, e.Act()).Some?
  {
  }

  lemma SameIsSince(m: Machine)
    ensures Since(m, m)
  {
  }

  lemma DidGood(h: Host, m: Machine, c: Command)
    requires Good(h, m) && Allowed(m, c) && m.turns != []
    ensures Good(h, Did(m, c).m) && Since(m, Did(m, c).m)
  {
    var e := EntryOf(m, c);
    DidIs(m, c);
    ActTellsTheChange(e.before, c, e.turn.fate);
    SnocLog(m.log, e);
    SnocLawful(h, m.log, e);
    LawfulStage(h, m.log);
    ActIsAllowed(m, c, e.before, e.turn.fate);
    hide Did, Perform, ActOf, Sound, Lawful, Acts, StartOf, LastOwn, StageAfter, SoundTurns, Published;
    assert SoundTurns(m.log + [e]) ==> Proper(e);
  }

  lemma DidKeeps(h: Host, m: Machine, c: Command)
    requires Good(h, m) && Allowed(m, c)
    ensures Good(h, Did(m, c).m) && Since(m, Did(m, c).m) && Kept(m, c, Did(m, c))
  {
    DidIsKept(m, c);
    hide Good, Kept, Allowed, Since;
    if m.turns != [] {
      DidGood(h, m, c);
    } else {
      SameIsSince(m);
    }
  }

  lemma ActIsAllowed(m: Machine, c: Command, before: Host, fate: Fate)
    requires Allowed(m, c) && (m.mine <==> StageAfter(Acts(m.log)) == Some(Holding))
    requires StageAfter(Acts(m.log)).Some?
    ensures NextStage(StageAfter(Acts(m.log)), ActOf(before, c, fate)).Some?
  {
    hide Acts, StageAfter;
  }

  // ---- looking ---------------------------------------------------------------------------------

  /** From `m` to `n` the run only read: it holds what it held, and under its lock nothing changed. */
  predicate Looked(h: Host, m: Machine, n: Machine) {
    && Good(h, n) && Since(m, n) && Quiet(m, n) && ReleasesStay(m.host, n.host)
    && n.mine == m.mine && (m.mine ==> n.host == m.host)
    && (!m.mine ==> StageAfter(Acts(n.log)) == StageAfter(Acts(m.log)) && LastOwn(n.log) == LastOwn(m.log))
  }

  /** The connection is lost only when no turn is left. */
  predicate Dry(m: Machine, status: Status) {
    status.Gone? ==> m.turns == []
  }

  /** The log shows the question, whether it was answered, and what was said. */
  predicate Heard(m: Machine, a: Reply, q: Question) {
    && |a.m.log| == |m.log| + 1 && m.log <= a.m.log
    && var e := a.m.log[|m.log|];
       e.command == Look(q) && e.ok == a.status.Ok? && e.turn.says == a.said
  }

  lemma SinceTransitive(l: Machine, m: Machine, n: Machine)
    requires Since(l, m) && Since(m, n)
    ensures Since(l, n)
    ensures Quiet(l, m) && Quiet(m, n) ==> Quiet(l, n)
  {
  }

  lemma LookedTransitive(h: Host, l: Machine, m: Machine, n: Machine)
    requires Looked(h, l, m) && Looked(h, m, n)
    ensures Looked(h, l, n)
  {
    SinceTransitive(l, m, n);
    hide Good, Since, Quiet, StageAfter, Acts, LastOwn;
  }

  lemma LookedAtNothing(h: Host, m: Machine)
    requires Good(h, m)
    ensures Looked(h, m, m)
  {
    SameIsSince(m);
    hide Good, Since, StageAfter, Acts, LastOwn;
  }

  lemma AskedKeeps(h: Host, m: Machine, q: Question)
    requires Good(h, m)
    ensures var a := Asked(m, q);
            && Looked(h, m, a.m) && Dry(a.m, a.status)
            && (!a.status.Gone? ==> Heard(m, a, q) && |a.m.turns| < |m.turns|)
            && (a.status.Gone? ==> a.m == m)
  {
    DidKeeps(h, m, Look(q));
    hide Good, Since, StageAfter, Acts, LastOwn, Did, Quiet, ReleasesStay;
  }

  lemma {:induction false} GatingKeeps(h: Host, m: Machine, codes: seq<nat>)
    requires Good(h, m)
    ensures var g := Gating(m, codes);
            && Looked(h, m, g.m) && Dry(g.m, g.status)
            && (g.status.Failed? ==> g.code in codes)
    decreases |codes|
  {
    hide Good, Looked, Dry, Asked, Heard;
    if codes == [] {
      LookedAtNothing(h, m);
      assert Dry(m, Ok) by { OkIsDry(m); }
    } else {
      var a := Asked(m, Gate(codes[0]));
      AskedKeeps(h, m, Gate(codes[0]));
      if a.status.Ok? {
        LookedIsGood(h, m, a.m);
        GatingKeeps(h, a.m, codes[1..]);
        LookedTransitive(h, m, a.m, Gating(m, codes).m);
      }
    }
  }

  lemma OkIsDry(m: Machine)
    ensures Dry(m, Ok) && Dry(m, Failed)
  {
  }

  lemma LookedIsGood(h: Host, m: Machine, n: Machine)
    requires Looked(h, m, n)
    ensures Good(h, n) && n.mine == m.mine && (m.mine ==> n.host == m.host) && m.log <= n.log && m.now <= n.now
            && Quiet(m, n) && Since(m, n)
  {
  }

  // ---- readiness ---------------------------------------------------------------------------------

  /**
   * Four answers in a row at `i`: the service says it is active, its result is known, and both checks of the release
   * pass; and since then nothing was switched or restarted.
   */
  predicate ReadyAt(log: seq<Entry>, i: nat, tree: Tree) {
    && i + 4 <= |log|
    && (forall j :: i <= j < i + 4 ==> log[j].ok)
    && log[i].command == Look(ActiveState) && log[i].turn.says == "active"
    && log[i + 1].command == Look(ServiceResult)
    && log[i + 2].command == Look(Health(tree)) && log[i + 3].command == Look(DatabaseReady(tree))
    && forall j :: i <= j < |log| ==> !log[j].command.SwapNext? && !log[j].command.Restart?
  }

  ghost predicate FoundReady(log: seq<Entry>, tree: Tree) {
    exists i: nat :: ReadyAt(log, i, tree)
  }

  lemma ReadyLasts(m: Machine, n: Machine, tree: Tree)
    requires FoundReady(m.log, tree) && m.log <= n.log && Quiet(m, n)
    ensures FoundReady(n.log, tree)
  {
    var i: nat :| ReadyAt(m.log, i, tree);
    assert ReadyAt(n.log, i, tree);
  }

  /** How often the service was asked whether it is active. */
  function Polls(log: seq<Entry>): nat {
    if log == [] then 0 else Polls(log[..|log| - 1]) + if log[|log| - 1].command == Look(ActiveState) then 1 else 0
  }

  lemma {:induction false} PollsOfMore(log: seq<Entry>, more: seq<Entry>, q: Question)
    requires |more| == |log| + 1 && log <= more && more[|log|].command == Look(q)
    ensures Polls(more) == Polls(log) + if q.ActiveState? then 1 else 0
  {
    assert more[..|log|] == log;
  }

  lemma HealthyKeeps(h: Host, m: Machine, target: Tree, active: bool)
    requires Good(h, m)
    ensures var a := Healthy(m, target, active);
            && Looked(h, m, a.m) && Dry(a.m, a.status) && Polls(a.m.log) == Polls(m.log) && |a.m.turns| <= |m.turns|
            && (a.status.Ok? ==> active && |a.m.log| == |m.log| + 2 && m.log <= a.m.log
                                 && a.m.log[|m.log|].command == Look(Health(target))
                                 && a.m.log[|m.log| + 1].command == Look(DatabaseReady(target))
                                 && a.m.log[|m.log|].ok && a.m.log[|m.log| + 1].ok)
  {
    if !active {
      LookedAtNothing(h, m);
    } else {
      var a := Asked(m, Health(target));
      AskedKeeps(h, m, Health(target));
      hide Good, Looked, Asked, Polls;
      if !a.status.Gone? {
        PollsOfMore(m.log, a.m.log, Health(target));
      }
      if a.status.Ok? {
        LookedIsGood(h, m, a.m);
        AskedKeeps(h, a.m, DatabaseReady(target));
        var b := Asked(a.m, DatabaseReady(target));
        LookedTransitive(h, m, a.m, b.m);
        if !b.status.Gone? {
          PollsOfMore(a.m.log, b.m.log, DatabaseReady(target));
        }
      }
    }
  }

  /** The two questions a round of polling begins with. */
  lemma TwoQuestions(h: Host, m: Machine)
    requires Good(h, m)
    ensures var a := Asked(m, ActiveState); var r := Asked(a.m, ServiceResult);
            && Looked(h, m, a.m) && Dry(a.m, a.status) && Polls(a.m.log) <= Polls(m.log) + 1
            && (!a.status.Gone? ==> Heard(m, a, ActiveState))
            && Looked(h, m, r.m) && Dry(r.m, r.status) && Polls(r.m.log) <= Polls(m.log) + 1
            && (!r.status.Gone? ==> Heard(a.m, r, ServiceResult) && |r.m.turns| < |m.turns|)
            && m.now <= r.m.now
  {
    hide Good, Looked, Asked, Polls;
    var a := Asked(m, ActiveState);
    var r := Asked(a.m, ServiceResult);
    AskedKeeps(h, m, ActiveState);
    LookedIsGood(h, m, a.m);
    AskedKeeps(h, a.m, ServiceResult);
    LookedTransitive(h, m, a.m, r.m);
    LookedIsGood(h, m, r.m);
    if !a.status.Gone? {
      PollsOfMore(m.log, a.m.log, ActiveState);
    }
    if !r.status.Gone? {
      PollsOfMore(a.m.log, r.m.log, ServiceResult);
    }
  }

  /** One round of polling: what the log shows when all four answers are good. */
  lemma RoundIsEvidence(h: Host, m: Machine, a: Reply, r: Reply, d: Reply, target: Tree)
    requires Heard(m, a, ActiveState) && a.status.Ok? && a.said == "active" && Heard(a.m, r, ServiceResult)
             && r.status.Ok?
    requires |d.m.log| == |r.m.log| + 2 && r.m.log <= d.m.log
    requires d.m.log[|r.m.log|].command == Look(Health(target))
             && d.m.log[|r.m.log| + 1].command == Look(DatabaseReady(target))
    requires d.m.log[|r.m.log|].ok && d.m.log[|r.m.log| + 1].ok
    ensures FoundReady(d.m.log, target)
  {
    var i := |m.log|;
    assert d.m.log[i] == a.m.log[i] == r.m.log[i] && d.m.log[i + 1] == r.m.log[i + 1];
    assert ReadyAt(d.m.log, i, target);
  }

  /**
   * The wait ends well only on evidence, in failure only for a terminal state, a lost answer, or once the deadline has
   * passed; and it asks no more than once a second.
   */
  lemma {:induction false} WaitingKeeps(h: Host, m: Machine, target: Tree, deadline: nat)
    requires Good(h, m) && m.mine
    ensures var w := Waiting(m, target, deadline);
            && Looked(h, m, w.m) && Dry(w.m, w.status)
            && (w.status.Ok? ==> FoundReady(w.m.log, target))
            && (w.status.Failed? ==>
                w.code == EXIT_SERVICE_TERMINAL || w.code == EXIT_READINESS_TIMEOUT || w.code == EXIT_TRANSPORT)
            && (w.status.Failed? && w.code == EXIT_READINESS_TIMEOUT ==> deadline <= w.m.now)
            && Polls(w.m.log) <= Polls(m.log) + Rounds(m.now, deadline)
    decreases |m.turns|
  {
    hide Good, Looked, Asked, Healthy, FoundReady, Polls, Terminal, Heard, Rounds, Slept;
    if deadline <= m.now {
      LookedAtNothing(h, m);
    } else {
      var a := Asked(m, ActiveState);
      var r := Asked(a.m, ServiceResult);
      TwoQuestions(h, m);
      SleepKeeps(h, m, deadline);
      if a.status.Ok? && r.status.Ok? && !Terminal(a.said, r.said) {
        var d := Healthy(r.m, target, a.said == "active");
        LookedIsGood(h, m, r.m);
        HealthyKeeps(h, r.m, target, a.said == "active");
        LookedTransitive(h, m, r.m, d.m);
        LookedIsGood(h, m, d.m);
        if d.status.Ok? {
          RoundIsEvidence(h, m, a, r, d, target);
        } else if d.status.Failed? && d.m.now < deadline {
          SleepKeeps(h, d.m, deadline);
          var n := Slept(d.m, deadline);
          LookedIsGood(h, d.m, n);
          WaitingKeeps(h, n, target, deadline);
          LookedTransitive(h, m, d.m, n);
          LookedTransitive(h, m, n, Waiting(n, target, deadline).m);
        }
      }
    }
  }

  /** How many rounds of a second fit before the deadline, the last one begun included. */
  function Rounds(now: nat, deadline: nat): nat {
    if deadline <= now then 0 else (deadline - now + READINESS_POLL_INTERVAL_MS - 1) / READINESS_POLL_INTERVAL_MS
  }

  lemma SleepKeeps(h: Host, m: Machine, deadline: nat)
    requires Good(h, m) && m.now < deadline
    ensures Looked(h, m, Slept(m, deadline)) && Slept(m, deadline).mine == m.mine
            && Polls(Slept(m, deadline).log) == Polls(m.log)
    ensures |Slept(m, deadline).turns| == |m.turns| && Rounds(m.now, deadline) >= 1
    ensures forall now: nat :: now <= m.now ==> Rounds(Slept(m, deadline).now, deadline) + 1 <= Rounds(now, deadline)
  {
    LookedAtNothing(h, m);
    hide StageAfter, Acts, LastOwn, Lawful, StartOf;
  }

  // ---- the parts of a run ------------------------------------------------------------------------

  /** A run under its lock. */
  predicate Holds(h: Host, m: Machine) {
    Good(h, m) && m.mine
  }

  /** `current` names the release, the service was restarted on it, and it was found ready since. */
  ghost predicate Serves(host: Host, log: seq<Entry>, tree: Tree) {
    host.current == tree && host.service == Some(tree) && FoundReady(log, tree)
  }

  /** An exit code that stands for an ordinary failure. */
  predicate Plain(code: nat) {
    code != EXIT_OK && code != EXIT_ROLLBACK
  }

  /** `current` after a switch that works: a leftover link to a directory is what gets moved into place. */
  function LandsOn(h: Host, target: Tree): Tree {
    if h.next.Some? then h.next.value else target
  }

  /** Later under the same lock, with the same published trees at least. */
  predicate Worked(h: Host, m: Machine, n: Machine) {
    Holds(h, n) && Since(m, n) && n.host.lock == m.host.lock && n.host.trees == m.host.trees
    && n.host.schema == m.host.schema
  }

  lemma WorkedTransitive(h: Host, l: Machine, m: Machine, n: Machine)
    requires Worked(h, l, m) && Worked(h, m, n)
    ensures Worked(h, l, n)
  {
    SinceTransitive(l, m, n);
    hide Good, Since;
  }

  lemma LookedIsWorked(h: Host, m: Machine, n: Machine)
    requires Looked(h, m, n) && m.mine
    ensures Worked(h, m, n)
  {
    hide Good, Since;
  }

  lemma PubLasts(h: Host, m: Machine, n: Machine, t: Tree)
    requires Pub(m, t) && Worked(h, m, n)
    ensures Pub(n, t)
  {
    assert SoundTurns(n.log) ==> SoundTurns(m.log);
    hide Good, Sound;
  }

  /** What each command of a locked run touches, and what it has done when it works. */
  predicate Touches(g: Host, c: Command, n: Host, ok: bool) {
    match c
    case LinkNext(t) => n == g.(next := n.next) && (ok ==> n.next == Some(LandsOn(g, t)))
    case SwapNext => n == g.(current := n.current, next := n.next) && (ok ==> g.next == Some(n.current) && n.next.None?)
    case Restart => n == g.(service := n.service) && (ok ==> n.service == Some(g.current))
    case SavePrevious => n == g.(previous := n.previous) && (ok ==> n.previous == Some(g.current))
    case PrepareStaging(_) => n == g.(trees := n.trees)
    case Publish(sha) => n == g.(trees := n.trees) && (ok ==> Release(sha) in n.trees)
    case ForgetPrevious => n == g.(previous := n.previous) && (ok ==> n.previous.None?)
    case RemoveLock => n == g.(lock := n.lock)
    case _ => c.MakeLock? || n == g
  }

  lemma PerformTouches(g: Host, c: Command, fate: Fate)
    ensures Touches(g, c, Perform(g, c, fate).0, Perform(g, c, fate).1)
  {
  }

  /** The commands that leave lock, trees and schema alone. */
  predicate Local(c: Command) {
    c.LinkNext? || c.SwapNext? || c.Restart? || c.SavePrevious? || c.TestAbsent? || c.TestPresent?
  }

  lemma DidUnderLock(h: Host, m: Machine, c: Command)
    requires Holds(h, m) && Allowed(m, c) && Local(c)
    ensures var a := Did(m, c);
            && Worked(h, m, a.m) && Dry(a.m, a.status)
            && (a.status.Gone? ==> a.m == m)
            && (!a.status.Gone? ==> Touches(m.host, c, a.m.host, a.status.Ok?))
            && (!c.SwapNext? && !c.Restart? ==> Quiet(m, a.m))
  {
    DidKeeps(h, m, c);
    if m.turns != [] {
      PerformTouches(m.host, c, m.turns[0].fate);
    }
    hide Good, Since, Quiet, Did, Acts, StageAfter, LastOwn, Allowed, ReleasesStay, Perform, EntryOf;
  }

  lemma MayLink(h: Host, m: Machine, target: Tree)
    requires Holds(h, m)
    ensures Pub(m, target) ==> Allowed(m, LinkNext(target))
    ensures Allowed(m, SwapNext) && Allowed(m, Restart) && Allowed(m, SavePrevious)
    ensures Allowed(m, TestAbsent(target)) && Allowed(m, TestPresent(target))
  {
  }

  /** A switch that works lands on the target, or on the release of a leftover link. */
  lemma SwitchLands(h: Host, m: Machine, target: Tree)
    requires Holds(h, m) && Pub(m, target)
    ensures var s := Switching(m, target);
            && Worked(h, m, s.m) && Dry(s.m, s.status)
            && s.m.host == m.host.(current := s.m.host.current, next := s.m.host.next)
            && (s.status.Ok? ==> s.m.host.current == LandsOn(m.host, target) && s.m.host.next.None?)
  {
    hide Did, Worked, Allowed, Holds, Pub, Quiet;
    MayLink(h, m, target);
    DidUnderLock(h, m, LinkNext(target));
    var a := Did(m, LinkNext(target));
    if a.status.Ok? {
      WorkedHolds(h, m, a.m);
      MayLink(h, a.m, target);
      DidUnderLock(h, a.m, SwapNext);
      WorkedTransitive(h, m, a.m, Did(a.m, SwapNext).m);
    }
  }

  lemma WorkedHolds(h: Host, m: Machine, n: Machine)
    requires Worked(h, m, n)
    ensures Holds(h, n) && Good(h, n) && n.mine
  {
  }

  /** Verification passes only with `current` on the target and the target found ready. */
  lemma VerifyingKeeps(h: Host, m: Machine, target: Tree)
    requires Holds(h, m)
    ensures var v := Verifying(m, target);
            && Looked(h, m, v.m) && Dry(v.m, v.status)
            && (v.status.Ok? ==> v.m.host.current == target && FoundReady(v.m.log, target))
            && (v.status.Failed? ==> Plain(v.code))
  {
    hide Good, Looked, Asked, Waiting, Sanitized, FoundReady, Heard, Rounds, Polls, Quiet;
    var a := Asked(m, ReadLink);
    AskedKeeps(h, m, ReadLink);
    LookedIsGood(h, m, a.m);
    var d := Asked(a.m, WorkingDirectory);
    AskedKeeps(h, a.m, WorkingDirectory);
    LookedTransitive(h, m, a.m, d.m);
    LookedIsGood(h, m, d.m);
    var deadline := d.m.now + READINESS_DEADLINE_MS;
    var w := Waiting(d.m, target, deadline);
    WaitingKeeps(h, d.m, target, deadline);
    LookedTransitive(h, m, d.m, w.m);
    LookedIsGood(h, m, w.m);
    var j := Asked(w.m, Journal);
    AskedKeeps(h, w.m, Journal);
    LookedTransitive(h, m, w.m, j.m);
    LookedIsGood(h, w.m, j.m);
    LookedIsGood(h, m, j.m);
    if FoundReady(w.m.log, target) {
      ReadyLasts(w.m, j.m, target);
    }
  }

  /** From the restart on: the release is served if it passes verification. */
  lemma RestartServes(h: Host, m: Machine, target: Tree)
    requires Holds(h, m)
    ensures var r := Did(m, Restart);
            && Worked(h, m, r.m) && Dry(r.m, r.status) && r.m.host == m.host.(service := r.m.host.service)
            && (r.status.Ok? ==>
                  var v := Verifying(r.m, target);
                  && Worked(h, m, v.m) && Dry(v.m, v.status) && v.m.host == r.m.host
                  && (v.status.Ok? ==> Serves(v.m.host, v.m.log, target))
                  && (v.status.Failed? ==> Plain(v.code)))
  {
    hide Did, Good, Holds, Worked, Looked, Verifying, FoundReady, Quiet, Allowed;
    MayLink(h, m, target);
    DidUnderLock(h, m, Restart);
    var r := Did(m, Restart);
    if r.status.Ok? {
      WorkedHolds(h, m, r.m);
      VerifyingKeeps(h, r.m, target);
      var v := Verifying(r.m, target);
      LookedIsWorked(h, r.m, v.m);
      LookedIsGood(h, r.m, v.m);
      WorkedTransitive(h, m, r.m, v.m);
    }
  }

  /** The cutover block ends well only with the target in service and verified ready. */
  lemma CuttingOverKeeps(h: Host, m: Machine, target: Tree, refused: nat)
    requires Holds(h, m) && Pub(m, target) && Plain(refused)
    ensures var c := CuttingOver(m, target, refused);
            && Worked(h, m, c.m) && Dry(c.m, c.status) && c.m.host.previous == m.host.previous
            && (c.status.Ok? ==> Serves(c.m.host, c.m.log, target))
            && (c.status.Failed? ==> Plain(c.code))
  {
    hide Did, Asked, Good, Holds, Worked, Looked, Verifying, FoundReady, Quiet, Heard, Switching, Pub, Serves;
    var a := Asked(m, DatabaseReady(target));
    assert Good(h, m) && m.mine by { HoldsIs(h, m); }
    AskedKeeps(h, m, DatabaseReady(target));
    LookedIsWorked(h, m, a.m);
    LookedIsGood(h, m, a.m);
    PubLasts(h, m, a.m, target);
    WorkedHolds(h, m, a.m);
    var s := Switching(a.m, target);
    SwitchLands(h, a.m, target);
    WorkedTransitive(h, m, a.m, s.m);
    WorkedHolds(h, m, s.m);
    RestartServes(h, s.m, target);
    var r := Did(s.m, Restart);
    WorkedTransitive(h, m, s.m, r.m);
    if r.status.Ok? {
      WorkedTransitive(h, m, s.m, Verifying(r.m, target).m);
    }
  }

  lemma HoldsIs(h: Host, m: Machine)
    requires Holds(h, m)
    ensures Good(h, m) && m.mine
  {
  }

  /** The remembered release, if any, is published. */
  predicate Remembers(m: Machine) {
    m.host.previous.Some? ==> Pub(m, m.host.previous.value)
  }

  /** A rollback that succeeds has the remembered release in service and verified ready. */
  lemma RollingBackKeeps(h: Host, m: Machine)
    requires Holds(h, m) && Remembers(m)
    ensures var b := RollingBack(m);
            && Worked(h, m, b.m) && Dry(b.m, b.status) && b.m.host.previous == m.host.previous
            && b.code == EXIT_ROLLBACK
            && (b.status.Ok? ==> m.host.previous.Some? && Serves(b.m.host, b.m.log, m.host.previous.value))
  {
    hide Did, Asked, Good, Holds, Worked, Looked, Verifying, FoundReady, Quiet, Heard, Switching, Pub, Serves;
    var a := Asked(m, ReadPrevious);
    assert Good(h, m) && m.mine by { HoldsIs(h, m); }
    AskedKeeps(h, m, ReadPrevious);
    LookedIsWorked(h, m, a.m);
    LookedIsGood(h, m, a.m);
    if a.status.Ok? && a.m.host.previous.Some? {
      var previous := a.m.host.previous.value;
      PubLasts(h, m, a.m, previous);
      WorkedHolds(h, m, a.m);
      RollingOn(h, m, a.m, previous);
    }
  }

  lemma RollingOn(h: Host, l: Machine, m: Machine, previous: Tree)
    requires Worked(h, l, m) && Holds(h, m) && Pub(m, previous)
    ensures var s := Switching(m, previous);
            && Worked(h, l, s.m) && Dry(s.m, s.status) && s.m.host.previous == m.host.previous
            && (s.status.Ok? ==>
                  var d := Asked(s.m, DatabaseReady(previous));
                  && Worked(h, l, d.m) && Dry(d.m, d.status) && d.m.host.previous == m.host.previous
                  && (d.status.Ok? ==>
                        var r := Did(d.m, Restart);
                        && Worked(h, l, r.m) && Dry(r.m, r.status) && r.m.host.previous == m.host.previous
                        && (r.status.Ok? ==>
                              var v := Verifying(r.m, previous);
                              && Worked(h, l, v.m) && Dry(v.m, v.status) && v.m.host.previous == m.host.previous
                              && (v.status.Ok? ==> Serves(v.m.host, v.m.log, previous)))))
  {
    hide Did, Asked, Good, Holds, Worked, Looked, Verifying, FoundReady, Quiet, Heard, Switching, Pub, Serves;
    var s := Switching(m, previous);
    SwitchLands(h, m, previous);
    WorkedTransitive(h, l, m, s.m);
    WorkedHolds(h, l, s.m);
    var d := Asked(s.m, DatabaseReady(previous));
    AskedKeeps(h, s.m, DatabaseReady(previous));
    LookedIsWorked(h, s.m, d.m);
    LookedIsGood(h, s.m, d.m);
    WorkedTransitive(h, l, s.m, d.m);
    WorkedHolds(h, l, d.m);
    RestartServes(h, d.m, previous);
    var r := Did(d.m, Restart);
    WorkedTransitive(h, l, d.m, r.m);
    if r.status.Ok? {
      WorkedTransitive(h, l, d.m, Verifying(r.m, previous).m);
    }
  }

  // ---- before and after the cutover ----------------------------------------------------------------

  /** Later, with nothing switched or restarted, and the last word on the host still the run's own. */
  predicate Tended(h: Host, m: Machine, n: Machine) {
    Good(h, n) && Since(m, n) && Quiet(m, n) && ReleasesStay(m.host, n.host) && LastOwn(n.log) == Some(n.host)
  }

  lemma TendedTransitive(h: Host, l: Machine, m: Machine, n: Machine)
    requires Tended(h, l, m) && Tended(h, m, n)
    ensures Tended(h, l, n)
  {
    SinceTransitive(l, m, n);
    hide Good, Since, Quiet;
  }

  lemma LookedIsTended(h: Host, m: Machine, n: Machine)
    requires Looked(h, m, n) && m.mine
    ensures Tended(h, m, n) && Holds(h, n) && n.host == m.host
  {
    hide Since, Quiet;
  }

  lemma NothingTended(h: Host, m: Machine)
    requires Holds(h, m)
    ensures Tended(h, m, m)
  {
    SameIsSince(m);
    hide Since;
  }

  /** Commands under the lock that switch and restart nothing. */
  lemma DidTend(h: Host, m: Machine, c: Command)
    requires Holds(h, m) && !c.LinkNext? && !c.MakeLock? && !c.SwapNext? && !c.Restart?
    ensures var a := Did(m, c);
            && Tended(h, m, a.m) && Dry(a.m, a.status)
            && (a.status.Gone? ==> a.m == m)
            && (!a.status.Gone? ==> Touches(m.host, c, a.m.host, a.status.Ok?))
            && (!c.RemoveLock? ==> Holds(h, a.m))
            && (c.RemoveLock? && a.status.Ok? ==> !a.m.mine)
  {
    assert Allowed(m, c);
    DidKeeps(h, m, c);
    if m.turns == [] {
      NothingTended(h, m);
    } else {
      PerformTouches(m.host, c, m.turns[0].fate);
      SnocLog(m.log, EntryOf(m, c));
    }
    hide Since, Quiet, Did, Acts, StageAfter, LastOwn, Allowed, ReleasesStay, Perform, Lawful, StartOf, SoundTurns,
         Touches;
  }

  lemma TendedHolds(h: Host, m: Machine, n: Machine)
    requires Tended(h, m, n)
    ensures Good(h, n) && Since(m, n) && Quiet(m, n) && m.log <= n.log && ReleasesStay(m.host, n.host)
            && LastOwn(n.log) == Some(n.host)
  {
  }

  predicate AllPlain(codes: seq<nat>) {
    forall i :: 0 <= i < |codes| ==> Plain(codes[i])
  }

  lemma GatingTends(h: Host, m: Machine, codes: seq<nat>)
    requires Holds(h, m)
    ensures var g := Gating(m, codes);
            && Tended(h, m, g.m) && Holds(h, g.m) && g.m.host == m.host && Dry(g.m, g.status)
            && (g.status.Failed? && AllPlain(codes) ==> Plain(g.code))
  {
    HoldsIs(h, m);
    GatingKeeps(h, m, codes);
    LookedIsTended(h, m, Gating(m, codes).m);
    hide Holds, Tended, Looked, Gating;
  }

  /** Publication changes the trees only, and a success has the release among them. */
  lemma PublishingKeeps(h: Host, m: Machine, sha: string, tooling: seq<nat>, preparation: seq<nat>)
    requires Holds(h, m) && AllPlain(tooling) && AllPlain(preparation)
    ensures var p := Publishing(m, sha, tooling, preparation);
            && Tended(h, m, p.m) && Holds(h, p.m) && Dry(p.m, p.status) && p.m.host == m.host.(trees := p.m.host.trees)
            && (p.status.Ok? ==> Release(sha) in p.m.host.trees)
            && (p.status.Failed? ==> Plain(p.code))
  {
    hide Did, Gating, Holds, Tended, AllPlain, Dry;
    var a := Did(m, TestAbsent(Release(sha)));
    DidTend(h, m, TestAbsent(Release(sha)));
    var b := Did(a.m, TestAbsent(Staging(sha)));
    DidTend(h, a.m, TestAbsent(Staging(sha)));
    TendedTransitive(h, m, a.m, b.m);
    var t := Gating(b.m, tooling);
    GatingTends(h, b.m, tooling);
    TendedTransitive(h, m, b.m, t.m);
    var s := Did(t.m, PrepareStaging(sha));
    DidTend(h, t.m, PrepareStaging(sha));
    TendedTransitive(h, m, t.m, s.m);
    var g := Gating(s.m, preparation);
    GatingTends(h, s.m, preparation);
    TendedTransitive(h, m, s.m, g.m);
    DidTend(h, g.m, Publish(sha));
    TendedTransitive(h, m, g.m, Did(g.m, Publish(sha)).m);
  }

  /** The checkpoint remembers where `current` points, and passes only at the packaged schema. */
  lemma CheckpointingKeeps(h: Host, m: Machine, head: string)
    requires Holds(h, m)
    ensures var k := Checkpointing(m, head);
            && Tended(h, m, k.m) && Holds(h, k.m) && Dry(k.m, k.status)
            && k.m.host == m.host.(previous := k.m.host.previous)
            && (k.status.Ok? ==> head == k.m.host.schema && k.m.host.previous == Some(k.m.host.current))
            && (k.status.Failed? ==> Plain(k.code))
  {
    hide Did, Holds, Tended;
    var a := Asked(m, ReadSchema);
    DidTend(h, m, Look(ReadSchema));
    var c := Asked(a.m, CheckpointState);
    DidTend(h, a.m, Look(CheckpointState));
    TendedTransitive(h, m, a.m, c.m);
    DidTend(h, c.m, SavePrevious);
    TendedTransitive(h, m, c.m, Did(c.m, SavePrevious).m);
  }

  /** Unlocking touches the memory and the lock only; a success gives the lock up. */
  lemma UnlockingKeeps(h: Host, m: Machine)
    requires Holds(h, m)
    ensures var u := Unlocking(m);
            && Tended(h, m, u.m) && Dry(u.m, u.status)
            && u.m.host == m.host.(previous := u.m.host.previous, lock := u.m.host.lock)
            && (u.status.Ok? ==> !u.m.mine && u.m.host.previous.None?)
  {
    hide Did, Holds, Tended;
    var f := Did(m, ForgetPrevious);
    DidTend(h, m, ForgetPrevious);
    DidTend(h, f.m, RemoveLock);
    TendedTransitive(h, m, f.m, Did(f.m, RemoveLock).m);
  }

  lemma CleaningUpKeeps(h: Host, m: Machine)
    requires Holds(h, m)
    ensures var u := CleaningUp(m);
            && Tended(h, m, u.m) && Dry(u.m, u.status)
            && u.m.host == m.host.(previous := u.m.host.previous, lock := u.m.host.lock)
            && (u.status.Ok? ==> !u.m.mine && u.m.host.previous.None?)
  {
    hide Gating, Unlocking, Holds, Tended;
    var g := Gating(m, OWN_FILES);
    GatingTends(h, m, OWN_FILES);
    UnlockingKeeps(h, g.m);
    TendedTransitive(h, m, g.m, Unlocking(g.m).m);
  }
}
