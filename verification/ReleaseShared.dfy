// Any number of deploys and rollbacks at once, their commands interleaved on one host.

module ReleaseShared {
  import opened Text
  import opened ReleaseHost
  import opened ReleaseEngine
  import opened ReleaseLaws
  import opened ReleaseTheorems

  // ---- one host, many runs ---------------------------------------------------------------------

  /** One command of one run, in the order the host got them. */
  datatype Issue = Issue(run: nat, command: Command, fate: Fate)

  function SharedHost(h: Host, issues: seq<Issue>): Host {
    if issues == [] then h
    else
      var i := issues[|issues| - 1];
      Perform(SharedHost(h, issues[..|issues| - 1]), i.command, i.fate).0
  }

  /** What the commands did to the lock and the rest, each on the host it found. */
  function Moves(h: Host, issues: seq<Issue>): (moves: seq<Move>)
    ensures |moves| == |issues|
  {
    if issues == [] then []
    else
      var init, i := issues[..|issues| - 1], issues[|issues| - 1];
      Moves(h, init) + [Move(i.run, ActOf(SharedHost(h, init), i.command, i.fate))]
  }

  /** How many commands of a run there have been. */
  function Count(issues: seq<Issue>, run: nat): nat {
    if issues == [] then 0
    else Count(issues[..|issues| - 1], run) + if issues[|issues| - 1].run == run then 1 else 0
  }

  function LogOf(logs: seq<seq<Entry>>, run: nat): seq<Entry> {
    if run < |logs| then logs[run] else []
  }

  /** `i` is the next command of its run, and the host others have left for that run is the shared one. */
  predicate IsNext(h: Host, issues: seq<Issue>, logs: seq<seq<Entry>>, i: Issue) {
    var log, k := LogOf(logs, i.run), Count(issues, i.run);
    && k < |log|
    && log[k].command == i.command && log[k].turn.fate == i.fate && log[k].turn.elsewhere == SharedHost(h, issues)
  }

  /** The issues are the runs' own commands, run by run in order, and interleaved in any way. */
  predicate Interleaves(h: Host, issues: seq<Issue>, logs: seq<seq<Entry>>) {
    issues != [] ==>
      && Interleaves(h, issues[..|issues| - 1], logs)
      && IsNext(h, issues[..|issues| - 1], logs, issues[|issues| - 1])
  }

  ghost predicate AllLawful(h: Host, logs: seq<seq<Entry>>) {
    forall run: nat :: Lawful(h, LogOf(logs, run))
  }

  // ---- what stays in tune --------------------------------------------------------------------------

  /** What a run has done so far. */
  function Past(issues: seq<Issue>, logs: seq<seq<Entry>>, run: nat): seq<Entry> {
    var log, k := LogOf(logs, run), Count(issues, run);
    if k <= |log| then log[..k] else log
  }

  predicate Holding(past: seq<Entry>) {
    StageAfter(Acts(past)) == Some(Stage.Holding)
  }

  /** A run's own log agrees with the shared host, and while it holds the lock the host is as it left it. */
  predicate View(h: Host, issues: seq<Issue>, logs: seq<seq<Entry>>, run: nat) {
    var past, now := Past(issues, logs, run), SharedHost(h, issues);
    && Count(issues, run) <= |LogOf(logs, run)|
    && ActsOf(Moves(h, issues), run) == Acts(past)
    && SoundTurns(past) && ReleasesStay(LastHost(h, past), now)
    && (Holding(past) ==> now == LastHost(h, past))
  }

  ghost predicate AllViews(h: Host, issues: seq<Issue>, logs: seq<seq<Entry>>) {
    forall run: nat :: View(h, issues, logs, run)
  }

  /** The lock directory is there exactly while some run holds the lock, and the host is sound. */
  ghost predicate InTune(h: Host, issues: seq<Issue>, logs: seq<seq<Entry>>) {
    && Sound(SharedHost(h, issues))
    && LocksExclude(Moves(h, issues)) && (LockAfter(Moves(h, issues)).Some? <==> SharedHost(h, issues).lock)
    && AllViews(h, issues, logs)
  }

  lemma {:induction false} LawfulPrefix(h: Host, log: seq<Entry>, k: nat)
    requires Lawful(h, log) && k <= |log|
    ensures Lawful(h, log[..k])
  {
    if k == |log| {
      assert log[..k] == log;
    } else {
      LawfulPrefix(h, log[..|log| - 1], k);
      assert log[..|log| - 1][..k] == log[..k];
    }
  }

  lemma SnocIssue(h: Host, issues: seq<Issue>, logs: seq<seq<Entry>>, i: Issue)
    ensures SharedHost(h, issues + [i]) == Perform(SharedHost(h, issues), i.command, i.fate).0
    ensures Moves(h, issues + [i]) == Moves(h, issues) + [Move(i.run, ActOf(SharedHost(h, issues), i.command, i.fate))]
    ensures forall run :: Count(issues + [i], run) == Count(issues, run) + if i.run == run then 1 else 0
    ensures Interleaves(h, issues + [i], logs) <==> Interleaves(h, issues, logs) && IsNext(h, issues, logs, i)
  {
    assert (issues + [i])[..|issues|] == issues;
    hide Perform, ActOf, IsNext;
  }

  lemma SnocMove(moves: seq<Move>, m: Move)
    ensures forall run ::
              ActsOf(moves + [m], run) == if m.run == run then ActsOf(moves, run) + [m.act] else ActsOf(moves, run)
    ensures LockAfter(moves + [m])
            == match m.act case LockMade => Some(m.run) case LockRemoved => None case _ => LockAfter(moves)
    ensures LocksExclude(moves) && (m.act == LockMade ==> LockAfter(moves).None?) ==> LocksExclude(moves + [m])
  {
    assert (moves + [m])[..|moves|] == moves;
    forall i | 0 <= i < |moves|
      ensures (moves + [m])[..i] == moves[..i] && (moves + [m])[i] == moves[i]
    {
    }
  }

  lemma TunedAtFirst(h: Host, logs: seq<seq<Entry>>)
    requires Sound(h) && !h.lock
    ensures InTune(h, [], logs)
  {
    forall run: nat
      ensures View(h, [], logs, run)
    {
      assert Past([], logs, run) == [];
    }
  }

  lemma PastIsLawful(h: Host, issues: seq<Issue>, logs: seq<seq<Entry>>, run: nat)
    requires AllLawful(h, logs) && View(h, issues, logs, run)
    ensures Lawful(h, Past(issues, logs, run)) && Disciplined(ActsOf(Moves(h, issues), run))
  {
    var log := LogOf(logs, run);
    assert Lawful(h, log);
    LawfulPrefix(h, log, Count(issues, run));
    LawfulStage(h, Past(issues, logs, run));
    hide Lawful, Acts, StageAfter, SoundTurns, ReleasesStay, LastHost;
  }

  /** The lock belongs to the run that holds it by its own log. */
  lemma LockIsHeld(h: Host, issues: seq<Issue>, logs: seq<seq<Entry>>, run: nat)
    requires AllLawful(h, logs) && InTune(h, issues, logs)
    ensures LockAfter(Moves(h, issues)) == Some(run) <==> Holding(Past(issues, logs, run))
  {
    assert View(h, issues, logs, run);
    forall r: nat
      ensures Disciplined(ActsOf(Moves(h, issues), r))
    {
      assert View(h, issues, logs, r);
      hide View;
      PastIsLawful(h, issues, logs, r);
    }
    hide Sound, LocksExclude, Moves, Disciplined;
    HolderIsHolding(Moves(h, issues), run);
  }

  /** The next command of a run finds the shared host, and leaves it as its own log says. */
  lemma NextSeesTheHost(h: Host, issues: seq<Issue>, logs: seq<seq<Entry>>, i: Issue)
    requires AllLawful(h, logs) && InTune(h, issues, logs) && IsNext(h, issues, logs, i)
    ensures var past, e := Past(issues, logs, i.run), LogOf(logs, i.run)[Count(issues, i.run)];
            var now := SharedHost(h, issues);
            && e.before == now && (e.after, e.ok) == Perform(now, i.command, i.fate)
            && e.Act() == ActOf(now, i.command, i.fate)
            && e.turn.elsewhere == now
            && e.held == Holding(past) && NextStage(StageAfter(Acts(past)), e.Act()).Some? && Proper(e)
  {
    var log, k, now := LogOf(logs, i.run), Count(issues, i.run), SharedHost(h, issues);
    var past, e := Past(issues, logs, i.run), log[k];
    assert View(h, issues, logs, i.run) && Lawful(h, log) && Sound(now);
    hide Lawful, Acts, StageAfter, Sound, Perform, ActOf, LastHost, Moves, SharedHost, SoundTurns, Meanwhile, AllLawful,
         AllViews, ReleasesStay, Proper, LocksExclude, Count;
    EntryIsLawful(h, log, k);
    SeesTheSame(h, LastHost(h, past), now, StageAfter(Acts(past)), e);
  }

  lemma EntryIsLawful(h: Host, log: seq<Entry>, k: nat)
    requires Lawful(h, log) && k < |log|
    ensures LawfulEntry(LastHost(h, log[..k]), StageAfter(Acts(log[..k])), log[k])
    ensures SoundTurns(log[..k]) && Sound(log[k].turn.elsewhere) ==> Proper(log[k])
  {
    hide *;
    LawfulPrefix(h, log, k + 1);
    assert log[..k + 1] == log[..k] + [log[k]];
    SnocLawful(h, log[..k], log[k]);
    SnocLog(log[..k], log[k]);
  }

  lemma SeesTheSame(h: Host, last: Host, now: Host, stage: Option<Stage>, e: Entry)
    requires e.turn.elsewhere == now && ReleasesStay(last, now) && (stage == Some(Stage.Holding) ==> now == last)
    ensures LawfulEntry(last, stage, e) ==> e.before == now
  {
    assert Meanwhile(last, now) == now;
  }

  /** While a run holds the lock, no command of another run changes anything. */
  lemma OthersOnlyLook(h: Host, issues: seq<Issue>, logs: seq<seq<Entry>>, i: Issue, holder: nat)
    requires AllLawful(h, logs) && InTune(h, issues, logs) && IsNext(h, issues, logs, i)
    requires holder != i.run && Holding(Past(issues, logs, holder))
    ensures ActOf(SharedHost(h, issues), i.command, i.fate) == Other
    ensures Perform(SharedHost(h, issues), i.command, i.fate).0 == SharedHost(h, issues)
  {
    LockIsHeld(h, issues, logs, holder);
    LockIsHeld(h, issues, logs, i.run);
    NextSeesTheHost(h, issues, logs, i);
    ActTellsTheChange(SharedHost(h, issues), i.command, i.fate);
    hide Perform, ActOf, SharedHost, Moves, Past, Sound, View, Acts, StageAfter;
  }

  lemma NextKeepsOthers(h: Host, issues: seq<Issue>, logs: seq<seq<Entry>>, i: Issue, run: nat)
    requires AllLawful(h, logs) && InTune(h, issues, logs) && IsNext(h, issues, logs, i) && run != i.run
    ensures View(h, issues + [i], logs, run)
  {
    assert View(h, issues, logs, run);
    SnocIssue(h, issues, logs, i);
    var now := SharedHost(h, issues);
    SnocMove(Moves(h, issues), Move(i.run, ActOf(now, i.command, i.fate)));
    ActTellsTheChange(now, i.command, i.fate);
    if Holding(Past(issues, logs, run)) {
      OthersOnlyLook(h, issues, logs, i, run);
    }
    hide Perform, ActOf, SharedHost, Moves, Sound, Acts, StageAfter, SoundTurns, LastHost, AllViews, LocksExclude,
         IsNext;
  }

  lemma NextKeepsOwn(h: Host, issues: seq<Issue>, logs: seq<seq<Entry>>, i: Issue)
    requires AllLawful(h, logs) && InTune(h, issues, logs) && IsNext(h, issues, logs, i)
    ensures View(h, issues + [i], logs, i.run)
  {
    var log, k, now := LogOf(logs, i.run), Count(issues, i.run), SharedHost(h, issues);
    var past, e := Past(issues, logs, i.run), log[k];
    assert View(h, issues, logs, i.run);
    NextSeesTheHost(h, issues, logs, i);
    SnocIssue(h, issues, logs, i);
    SnocMove(Moves(h, issues), Move(i.run, ActOf(now, i.command, i.fate)));
    SnocLog(past, e);
    assert log[..k + 1] == past + [e];
    assert Past(issues + [i], logs, i.run) == past + [e];
    assert LastHost(h, past + [e]) == e.after;
    assert Sound(now);
    hide Perform, ActOf, SharedHost, Moves, Sound, Acts, StageAfter, SoundTurns, LastHost, AllViews, LocksExclude,
         IsNext, Count, Lawful;
  }

  lemma NextKeepsLock(h: Host, issues: seq<Issue>, logs: seq<seq<Entry>>, i: Issue)
    requires AllLawful(h, logs) && InTune(h, issues, logs) && IsNext(h, issues, logs, i)
    ensures var more := issues + [i];
            && Sound(SharedHost(h, more)) && LocksExclude(Moves(h, more))
            && (LockAfter(Moves(h, more)).Some? <==> SharedHost(h, more).lock)
  {
    var now := SharedHost(h, issues);
    NextSeesTheHost(h, issues, logs, i);
    PerformKeepsSound(now, i.command, i.fate);
    SnocIssue(h, issues, logs, i);
    SnocMove(Moves(h, issues), Move(i.run, ActOf(now, i.command, i.fate)));
    ActTellsTheChange(now, i.command, i.fate);
    hide Perform, ActOf, SharedHost, Moves, Sound, Acts, StageAfter, AllViews, LocksExclude, Past, Count, Lawful;
  }

  lemma NextKeepsTune(h: Host, issues: seq<Issue>, logs: seq<seq<Entry>>, i: Issue)
    requires AllLawful(h, logs) && InTune(h, issues, logs) && IsNext(h, issues, logs, i)
    ensures InTune(h, issues + [i], logs)
  {
    NextKeepsLock(h, issues, logs, i);
    forall run: nat
      ensures View(h, issues + [i], logs, run)
    {
      hide InTune, AllLawful, IsNext, View;
      if run == i.run {
        NextKeepsOwn(h, issues, logs, i);
      } else {
        NextKeepsOthers(h, issues, logs, i, run);
      }
    }
    hide Sound, LocksExclude, Moves, SharedHost, View;
  }

  lemma {:induction false} StaysInTune(h: Host, issues: seq<Issue>, logs: seq<seq<Entry>>)
    requires Sound(h) && !h.lock && AllLawful(h, logs) && Interleaves(h, issues, logs)
    ensures InTune(h, issues, logs)
  {
    hide InTune, AllLawful, IsNext, Sound;
    if issues == [] {
      TunedAtFirst(h, logs);
    } else {
      var init, i := issues[..|issues| - 1], issues[|issues| - 1];
      StaysInTune(h, init, logs);
      NextKeepsTune(h, init, logs, i);
      assert issues == init + [i];
    }
  }

  lemma {:induction false} InterleavesPrefix(h: Host, issues: seq<Issue>, logs: seq<seq<Entry>>, n: nat)
    requires Interleaves(h, issues, logs) && n <= |issues|
    ensures Interleaves(h, issues[..n], logs)
    ensures n < |issues| ==> IsNext(h, issues[..n], logs, issues[n])
  {
    hide IsNext;
    var m := |issues| - 1;
    if n == |issues| {
      assert issues[..n] == issues;
    } else if n < m {
      InterleavesPrefix(h, issues[..m], logs, n);
      assert issues[..m][..n] == issues[..n];
    }
  }

  // ---- the theorems ------------------------------------------------------------------------------

  /**
   * However the runs interleave, each command of a run finds the shared host and leaves it as the run's own log says:
   * what a run takes for granted while it holds the lock is true.
   */
  lemma EachRunSeesTheHost(h: Host, issues: seq<Issue>, logs: seq<seq<Entry>>, n: nat)
    requires Sound(h) && !h.lock && AllLawful(h, logs) && Interleaves(h, issues, logs) && n < |issues|
    ensures var k, log := Count(issues[..n], issues[n].run), LogOf(logs, issues[n].run);
            k < |log| && log[k].before == SharedHost(h, issues[..n]) && log[k].after == SharedHost(h, issues[..n + 1])
    ensures Sound(SharedHost(h, issues[..n + 1]))
  {
    hide *;
    InterleavesPrefix(h, issues, logs, n);
    InterleavesPrefix(h, issues, logs, n + 1);
    StaysInTune(h, issues[..n], logs);
    StaysInTune(h, issues[..n + 1], logs);
    TunedIsSound(h, issues[..n + 1], logs);
    OneStep(h, issues[..n], logs, issues[n]);
    assert issues[..n + 1] == issues[..n] + [issues[n]];
  }

  lemma TunedIsSound(h: Host, issues: seq<Issue>, logs: seq<seq<Entry>>)
    requires InTune(h, issues, logs)
    ensures Sound(SharedHost(h, issues))
  {
  }

  lemma OneStep(h: Host, issues: seq<Issue>, logs: seq<seq<Entry>>, i: Issue)
    requires AllLawful(h, logs) && InTune(h, issues, logs) && IsNext(h, issues, logs, i)
    ensures var k, log := Count(issues, i.run), LogOf(logs, i.run);
            k < |log| && log[k].before == SharedHost(h, issues) && log[k].after == SharedHost(h, issues + [i])
  {
    NextSeesTheHost(h, issues, logs, i);
    SnocIssue(h, issues, logs, i);
    hide AllLawful, InTune, SharedHost, Perform, Past, Moves, Count, ActOf, Acts, StageAfter, Proper;
  }

  /** Nothing ever changes but by the run that holds the lock, or takes it. */
  lemma OnlyTheHolderChanges(h: Host, issues: seq<Issue>, logs: seq<seq<Entry>>, n: nat)
    requires Sound(h) && !h.lock && AllLawful(h, logs) && Interleaves(h, issues, logs) && n < |issues|
    ensures var before, after, run := SharedHost(h, issues[..n]), SharedHost(h, issues[..n + 1]), issues[n].run;
            after != before ==>
              || Holding(Past(issues[..n], logs, run))
              || (after == before.(lock := true) && !before.lock && Holding(Past(issues[..n + 1], logs, run)))
  {
    hide Interleaves, AllLawful, Sound, InTune, Past, Holding, IsNext, SharedHost;
    InterleavesPrefix(h, issues, logs, n);
    InterleavesPrefix(h, issues, logs, n + 1);
    StaysInTune(h, issues[..n], logs);
    StaysInTune(h, issues[..n + 1], logs);
    assert issues[..n + 1] == issues[..n] + [issues[n]];
    ChangeNeedsLock(h, issues[..n], logs, issues[n]);
  }

  /**
   * While one run holds the lock, `current` and everything beside it
   * stay as that run left them, whatever the others do.
   */
  lemma NobodyDisturbs(h: Host, issues: seq<Issue>, logs: seq<seq<Entry>>, n: nat, holder: nat)
    requires Sound(h) && !h.lock && AllLawful(h, logs) && Interleaves(h, issues, logs) && n < |issues|
    requires Holding(Past(issues[..n], logs, holder)) && holder != issues[n].run
    ensures SharedHost(h, issues[..n + 1]) == SharedHost(h, issues[..n])
    ensures Holding(Past(issues[..n + 1], logs, holder))
  {
    hide *;
    InterleavesPrefix(h, issues, logs, n);
    StaysInTune(h, issues[..n], logs);
    OthersOnlyLook(h, issues[..n], logs, issues[n], holder);
    SnocIssue(h, issues[..n], logs, issues[n]);
    PastStays(issues[..n], logs, issues[n], holder);
    assert issues[..n + 1] == issues[..n] + [issues[n]];
  }

  lemma PastStays(issues: seq<Issue>, logs: seq<seq<Entry>>, i: Issue, run: nat)
    requires run != i.run
    ensures Past(issues + [i], logs, run) == Past(issues, logs, run)
  {
    assert (issues + [i])[..|issues|] == issues;
  }

  /** The lock directory is there exactly while some run holds the lock, and no two runs hold it at once. */
  lemma OneHolder(h: Host, issues: seq<Issue>, logs: seq<seq<Entry>>)
    requires Sound(h) && !h.lock && AllLawful(h, logs) && Interleaves(h, issues, logs)
    ensures SharedHost(h, issues).lock <==> exists holder: nat :: Holding(Past(issues, logs, holder))
    ensures forall p: nat, q: nat :: Holding(Past(issues, logs, p)) && Holding(Past(issues, logs, q)) ==> p == q
  {
    StaysInTune(h, issues, logs);
    hide Interleaves, AllLawful, Sound, Past, Holding, SharedHost, Moves, LocksExclude, AllViews;
    forall run: nat
      ensures LockAfter(Moves(h, issues)) == Some(run) <==> Holding(Past(issues, logs, run))
    {
      LockIsHeld(h, issues, logs, run);
    }
    if SharedHost(h, issues).lock {
      assert Holding(Past(issues, logs, LockAfter(Moves(h, issues)).value));
    }
  }

  lemma ChangeNeedsLock(h: Host, issues: seq<Issue>, logs: seq<seq<Entry>>, i: Issue)
    requires AllLawful(h, logs) && InTune(h, issues, logs) && IsNext(h, issues, logs, i)
             && InTune(h, issues + [i], logs)
    ensures var before, after := SharedHost(h, issues), SharedHost(h, issues + [i]);
            after != before ==>
              || Holding(Past(issues, logs, i.run))
              || (after == before.(lock := true) && !before.lock && Holding(Past(issues + [i], logs, i.run)))
  {
    NextSeesTheHost(h, issues, logs, i);
    SnocIssue(h, issues, logs, i);
    var now := SharedHost(h, issues);
    SnocMove(Moves(h, issues), Move(i.run, ActOf(now, i.command, i.fate)));
    ActTellsTheChange(now, i.command, i.fate);
    LockIsHeld(h, issues + [i], logs, i.run);
    hide Perform, ActOf, SharedHost, Moves, Sound, Acts, StageAfter, AllViews, LocksExclude, Past, Count, Lawful,
         AllLawful, IsNext;
  }

  // ---- whole programs --------------------------------------------------------------------------------

  datatype Program = Deploys(job: Job) | RollsBack(sha: string)

  /** What a program comes to, given what each of its commands meets. */
  function EndOfProgram(p: Program, h: Host, turns: seq<Turn>): Result {
    match p
    case Deploys(job) => Deploying(Fresh(h, turns), job)
    case RollsBack(sha) => RollingBackTo(Fresh(h, turns), sha)
  }

  lemma ProgramsAreLawful(h: Host, programs: seq<Program>, turns: seq<seq<Turn>>, logs: seq<seq<Entry>>)
    requires Sound(h) && |programs| == |turns| == |logs|
    requires forall r :: 0 <= r < |programs| ==> logs[r] == EndOfProgram(programs[r], h, turns[r]).m.log
    requires forall r :: 0 <= r < |programs| && programs[r].Deploys? ==> Reasonable(programs[r].job)
    ensures AllLawful(h, logs)
  {
    hide Sound, Lawful, Deploying, RollingBackTo, Reasonable, Fresh;
    forall run: nat
      ensures Lawful(h, LogOf(logs, run))
    {
      if run < |logs| {
        match programs[run]
        case Deploys(job) => DeployIsSafe(h, turns[run], job);
        case RollsBack(sha) => RollbackIsSafe(h, turns[run], sha);
      } else {
        NothingIsLawful(h);
      }
    }
  }

  lemma NothingIsLawful(h: Host)
    ensures Lawful(h, [])
  {
  }

  /**
   * When a program among many has run its last command, the host it thinks it leaves is the shared host: every
   * guarantee of a single deploy or rollback holds of the host all of them share.
   */
  lemma ProgramEndsOnTheHost(h: Host, programs: seq<Program>, turns: seq<seq<Turn>>, logs: seq<seq<Entry>>,
                             issues: seq<Issue>, n: nat)
    requires Sound(h) && !h.lock && |programs| == |turns| == |logs|
    requires forall r :: 0 <= r < |programs| ==> logs[r] == EndOfProgram(programs[r], h, turns[r]).m.log
    requires forall r :: 0 <= r < |programs| && programs[r].Deploys? ==> Reasonable(programs[r].job)
    requires Interleaves(h, issues, logs) && n < |issues|
    requires Count(issues[..n + 1], issues[n].run) == |LogOf(logs, issues[n].run)|
    ensures var run := issues[n].run;
            run < |programs| && EndOfProgram(programs[run], h, turns[run]).m.host == SharedHost(h, issues[..n + 1])
  {
    hide *;
    var run := issues[n].run;
    assert issues[..n + 1] == issues[..n] + [issues[n]];
    SnocIssue(h, issues[..n], logs, issues[n]);
    ProgramsAreLawful(h, programs, turns, logs);
    EachRunSeesTheHost(h, issues, logs, n);
    LogIsOfARun(logs, run);
    EndsWhereItLastWas(h, programs[run], turns[run]);
    LastHostIs(h, logs[run]);
  }

  lemma LogIsOfARun(logs: seq<seq<Entry>>, run: nat)
    requires LogOf(logs, run) != []
    ensures run < |logs| && LogOf(logs, run) == logs[run]
  {
  }

  lemma LastHostIs(h: Host, log: seq<Entry>)
    requires log != []
    ensures LastHost(h, log) == log[|log| - 1].after
  {
  }

  lemma EndsWhereItLastWas(h: Host, p: Program, turns: seq<Turn>)
    requires Sound(h) && (p.Deploys? ==> Reasonable(p.job))
    ensures EndOfProgram(p, h, turns).m.host == LastHost(h, EndOfProgram(p, h, turns).m.log)
  {
    hide Sound, Deploying, RollingBackTo, Reasonable, Fresh;
    match p
    case Deploys(job) => DeployIsSafe(h, turns, job);
    case RollsBack(sha) => RollbackIsSafe(h, turns, sha);
  }
}
