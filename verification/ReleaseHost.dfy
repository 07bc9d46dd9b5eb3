// The production host as the release engine sees it, and what each remote command does to it.

module ReleaseHost {
  import opened Text

  /** A directory under /opt/framenest/releases: a published release, or one still being staged. */
  datatype Tree = Release(sha: string) | Staging(sha: string)

  /**
   * `current` and `next` are the symbolic links /opt/framenest/current and current.next, `previous` the file
   * that remembers where `current` pointed, `service` the release the running service was started from.
   */
  datatype Host = Host(
    lock: bool, trees: set<Tree>, current: Tree, next: Option<Tree>, previous: Option<Tree>, service: Option<Tree>,
    schema: string)

  /** What a command that only reads asks; `Gate` is any other check, by the exit code its failure ends the run with. */
  datatype Question =
    | ActiveState | ServiceResult | Health(tree: Tree) | DatabaseReady(tree: Tree)
    | ReadLink | WorkingDirectory | Journal | ReadPrevious | ReadSchema | CheckpointState | CapturePointer
    | Gate(code: nat)

  datatype Command =
    | Look(question: Question)
    | MakeLock
    | RemoveLock
    | TestAbsent(tree: Tree)
    | TestPresent(tree: Tree)
    | PrepareStaging(sha: string)
    | Publish(sha: string)
    | SavePrevious
    | ForgetPrevious
    | LinkNext(tree: Tree)
    | SwapNext
    | Restart

  datatype Extent = Untouched | Damaged | Done

  datatype Fate = Works | Fails(extent: Extent)

  predicate Can(h: Host, c: Command) {
    match c
    case MakeLock => !h.lock
    case RemoveLock => h.lock
    case TestAbsent(t) => t !in h.trees
    case TestPresent(t) => t in h.trees
    case Publish(sha) => Staging(sha) in h.trees
    // `ln -s` refuses an existing name, unless that name is a link to a directory
    case LinkNext(_) => h.next.None? || h.next.value in h.trees
    case SwapNext => h.next.Some?
    case _ => true
  }

  function Effect(h: Host, c: Command): Host
    requires Can(h, c)
  {
    match c
    case MakeLock => h.(lock := true)
    case RemoveLock => h.(lock := false)
    case PrepareStaging(sha) => h.(trees := h.trees + {Staging(sha)})
    case Publish(sha) => h.(trees := h.trees - {Staging(sha)} + {Release(sha)})
    case SavePrevious => h.(previous := Some(h.current))
    case ForgetPrevious => h.(previous := None)
    // over a link to a directory, `ln -s` puts the new link inside that directory and succeeds
    case LinkNext(t) => if h.next.None? then h.(next := Some(t)) else h
    case SwapNext => h.(current := h.next.value, next := None)
    case Restart => h.(service := Some(h.current))
    case _ => h
  }

  /** Half-way: a torn previous-release file, a stopped service. Everything else is atomic. */
  function Partial(h: Host, c: Command): Host {
    match c
    case SavePrevious => h.(previous := None)
    case Restart => h.(service := None)
    case _ => h
  }

  function Perform(h: Host, c: Command, fate: Fate): (Host, bool) {
    if !Can(h, c) then (h, false)
    else if fate.Works? then (Effect(h, c), true)
    else (if fate.extent.Done? then Effect(h, c) else if fate.extent.Damaged? then Partial(h, c) else h, false)
  }

  /** `current` always names a published release, and so does a leftover `current.next`. */
  predicate Sound(h: Host) {
    && h.current.Release? && h.current in h.trees
    && (h.next.Some? ==> h.next.value.Release? && h.next.value in h.trees)
  }

  /** The only command that could break soundness is a link to something unpublished. */
  lemma PerformKeepsSound(h: Host, c: Command, fate: Fate)
    requires Sound(h) && (c.LinkNext? ==> c.tree.Release? && c.tree in h.trees)
    ensures Sound(Perform(h, c, fate).0)
  {
  }

  // ---- what a run does to the lock, to `current`, and to the rest ----------------------------

  /** `Mutated` for every command that writes anything but the lock and `current`, even if it fails. */
  datatype Act = Other | LockMade | LockRemoved | Switched | Mutated

  predicate Writes(c: Command) {
    c.PrepareStaging? || c.Publish? || c.SavePrevious? || c.ForgetPrevious? || c.LinkNext? || c.Restart?
  }

  function ActOf(h: Host, c: Command, fate: Fate): Act {
    if Writes(c) then Mutated
    else if !Can(h, c) || (fate.Fails? && !fate.extent.Done?) then Other
    else
      match c
      case MakeLock => LockMade
      case RemoveLock => LockRemoved
      case SwapNext => Switched
      case _ => Other
  }

  lemma ActTellsTheChange(h: Host, c: Command, fate: Fate)
    ensures var n, act := Perform(h, c, fate).0, ActOf(h, c, fate);
            && (act == Other ==> n == h)
            && (n.current != h.current ==> act == Switched)
            && (act == LockMade <==> c.MakeLock? && n.lock && !h.lock)
            && (act == LockRemoved <==> c.RemoveLock? && h.lock && !n.lock)
            && (act == Switched || act == Mutated ==> n.lock == h.lock)
            && (act == LockMade ==> n == h.(lock := true)) && (act == LockRemoved ==> n == h.(lock := false))
            && forall t :: t in h.trees && t.Release? ==> t in n.trees
  {
  }

  datatype Stage = Before | Holding | Released

  /** Where a run stands after its acts; `None` once it has written, switched or unlocked out of turn. */
  function StageAfter(acts: seq<Act>): Option<Stage> {
    if acts == [] then Some(Before)
    else NextStage(StageAfter(acts[..|acts| - 1]), acts[|acts| - 1])
  }

  function NextStage(s: Option<Stage>, act: Act): Option<Stage> {
    match act
    case Other => s
    case LockMade => if s == Some(Before) then Some(Holding) else None
    case Switched | Mutated => if s == Some(Holding) then s else None
    case LockRemoved => if s == Some(Holding) then Some(Released) else None
  }

  /** The lock is taken at most once, released only after, and anything written only in between. */
  predicate Disciplined(acts: seq<Act>) {
    StageAfter(acts).Some?
  }

  // ---- any number of runs at once ----------------------------------------------------------------

  /** One act of one run, in the order the host saw them. */
  datatype Move = Move(run: nat, act: Act)

  function ActsOf(moves: seq<Move>, run: nat): seq<Act> {
    if moves == [] then []
    else
      var rest, last := ActsOf(moves[..|moves| - 1], run), moves[|moves| - 1];
      if last.run == run then rest + [last.act] else rest
  }

  /** Whose lock directory is there: `mkdir` makes one only where there is none. */
  function LockAfter(moves: seq<Move>): Option<nat> {
    if moves == [] then None
    else
      var before, last := LockAfter(moves[..|moves| - 1]), moves[|moves| - 1];
      match last.act
      case LockMade => Some(last.run)
      case LockRemoved => None
      case _ => before
  }

  /** `mkdir` succeeds only when no lock directory exists. */
  predicate LocksExclude(moves: seq<Move>) {
    forall i :: 0 <= i < |moves| && moves[i].act == LockMade ==> LockAfter(moves[..i]).None?
  }

  lemma {:induction false} ActsOfPrefix(moves: seq<Move>, i: nat, run: nat)
    requires i <= |moves| && Disciplined(ActsOf(moves, run))
    ensures Disciplined(ActsOf(moves[..i], run))
  {
    if i < |moves| {
      var n := |moves| - 1;
      var rest := ActsOf(moves[..n], run);
      assert Disciplined(rest) by {
        if moves[n].run == run {
          assert (rest + [moves[n].act])[..|rest|] == rest;
        }
      }
      ActsOfPrefix(moves[..n], i, run);
      assert moves[..n][..i] == moves[..i];
    } else {
      assert moves[..i] == moves;
    }
  }

  /** The lock is held exactly by the run that is between its two lock acts. */
  lemma {:induction false} HolderIsHolding(moves: seq<Move>, run: nat)
    requires LocksExclude(moves) && forall r :: Disciplined(ActsOf(moves, r))
    ensures LockAfter(moves) == Some(run) <==> StageAfter(ActsOf(moves, run)) == Some(Holding)
  {
    if moves != [] {
      var n := |moves| - 1;
      var init, last := moves[..n], moves[n];
      forall r
        ensures Disciplined(ActsOf(init, r))
      {
        ActsOfPrefix(moves, n, r);
      }
      assert LocksExclude(init) by {
        forall i | 0 <= i < |init| && init[i].act == LockMade
          ensures LockAfter(init[..i]).None?
        {
          assert init[..i] == moves[..i] && moves[i].act == LockMade;
        }
      }
      HolderIsHolding(init, run);
      HolderIsHolding(init, last.run);
      var rest := ActsOf(init, last.run);
      assert (rest + [last.act])[..|rest|] == rest;
      assert Disciplined(ActsOf(moves, last.run));
      assert last.act == LockMade ==> LockAfter(init).None?;
    }
  }

  /**
   * However the acts of any number of disciplined runs interleave, everything but a look happens under the lock of
   * the run that does it, or makes that lock.
   */
  lemma {:induction false} OnlyTheHolderActs(moves: seq<Move>, i: nat)
    requires LocksExclude(moves) && forall r :: Disciplined(ActsOf(moves, r))
    requires i < |moves| && moves[i].act != Other && moves[i].act != LockMade
    ensures LockAfter(moves[..i]) == Some(moves[i].run)
  {
    var init, run := moves[..i], moves[i].run;
    forall r
      ensures Disciplined(ActsOf(init, r))
    {
      ActsOfPrefix(moves, i, r);
    }
    assert LocksExclude(init) by {
      forall k | 0 <= k < |init| && init[k].act == LockMade
        ensures LockAfter(init[..k]).None?
      {
        assert init[..k] == moves[..k] && moves[k].act == LockMade;
      }
    }
    HolderIsHolding(init, run);
    ActsOfPrefix(moves, i + 1, run);
    var rest := ActsOf(init, run);
    assert moves[..i + 1][..i] == init;
    assert (rest + [moves[i].act])[..|rest|] == rest;
    assert ActsOf(moves[..i + 1], run) == rest + [moves[i].act];
  }
}
