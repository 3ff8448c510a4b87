/**
  The canonical deployment lock: any number of processes run open, fstat, flock
  and lstat on one path, while the environment may rebind that path, alter file
  attributes and hand out freed inode numbers again.

  `Step` is the machine of all processes together; `Kernel` is the same machine
  behind system calls, on which one process runs its code line by line while the
  others interfere between any two lines.
 */
module CanonicalLock {
  import opened Wrappers

  type Pid = nat

  /** A device and inode number taken together. */
  type Ino = nat

  datatype Kind = Regular | Directory | Symlink | Special

  datatype Inode = Inode(kind: Kind, nlink: nat, size: nat, uid: nat, gid: nat, mode: nat)

  /** What `lock_identity` records. */
  datatype Facts = Facts(uid: nat, gid: nat, mode: nat, ino: Ino, size: nat)

  /** The directory the lock lives in. */
  datatype Parent = Parent(kind: Kind, uid: nat, othersMayWrite: bool, sticky: bool)

  /** Where a process is in the acquisition. `Failing` is inside the handler that
      closes the descriptor: the description, and any flock on it, still exist. */
  datatype Phase =
    | Idle
    | ParentSafe
    | Opened
    | Checked(facts: Facts)
    | Locked(facts: Facts)
    | Holding(facts: Facts)
    | Failing

  datatype State = State(
    parent: Parent,
    inodes: map<Ino, Inode>,
    path: Option<Ino>,           // what the lock path names now
    fds: map<Pid, Ino>,          // the open description of each process
    flocks: map<Ino, Pid>,       // exclusive flock owners
    phases: map<Pid, Phase>)
  {
    function Phase(p: Pid): Phase { if p in phases then phases[p] else Idle }

    function To(p: Pid, ph: Phase): State { this.(phases := phases[p := ph]) }
  }

  datatype Action =
    | StatParent(p: Pid)
    | Open(p: Pid)
    | Fstat(p: Pid, owner: nat)
    | Flock(p: Pid)
    | Lstat(p: Pid)
    | Close(p: Pid)              // the handler, a normal release, or a killed process
    | SetParent(parent: Parent)  // the remaining actions belong to the environment
    | Rename(i: Ino)             // an existing file moves onto the path
    | Unlink
    | Create(i: Ino, node: Inode)
    | Alter(i: Ino, node: Inode)

  /** The process that takes the step, if it is not the environment. */
  function Actor(a: Action): Option<Pid> {
    if a.StatParent? || a.Open? || a.Fstat? || a.Flock? || a.Lstat? || a.Close? then Some(a.p) else None
  }

  const PRIVATE_MODE := 0x180  // octal 600

  predicate SafeParent(d: Parent) {
    d.kind == Directory && d.uid == 0 && (!d.othersMayWrite || d.sticky)
  }

  predicate Acceptable(n: Inode, owner: nat) {
    n.kind == Regular && n.nlink == 1 && n.size == 0 && (n.uid == 0 || n.uid == owner) && n.mode == PRIVATE_MODE
  }

  function LockIdentity(i: Ino, n: Inode): Facts {
    Facts(n.uid, n.gid, n.mode, i, n.size)
  }

  /** A private empty file with one link that belongs to root or to the owner; read and write
      for its user are 6 * 64. */
  predicate IsLockFile(n: Inode, owner: nat) {
    && n.kind == Regular && n.nlink == 1 && n.size == 0 && n.mode == 6 * 64
    && (n.uid == 0 || n.uid == owner)
  }

  /** What a lone process can acquire: in a directory of root's that nobody else may write
      to, unless it is sticky, a lock file that is not locked. */
  predicate Acquirable(s: State, owner: nat) {
    && s.parent.kind == Directory && s.parent.uid == 0 && (s.parent.othersMayWrite ==> s.parent.sticky)
    && s.path.Some? && s.path.value in s.inodes && IsLockFile(s.inodes[s.path.value], owner)
    && s.path.value !in s.flocks
  }

  /** The recorded identity is equal exactly for the same number, owner, group, mode and size. */
  lemma IdentityIsAllFive(i: Ino, m: Inode, j: Ino, n: Inode)
    ensures LockIdentity(i, m) == LockIdentity(j, n) <==>
              i == j && m.uid == n.uid && m.gid == n.gid && m.mode == n.mode && m.size == n.size
  {
  }

  /** An inode number is taken while the path or some open description keeps the file alive. */
  predicate Live(s: State, i: Ino) {
    s.path == Some(i) || i in s.fds.Values
  }

  predicate OpenPhase(ph: Phase) {
    ph != Idle && ph != ParentSafe
  }

  /** One atomic step; an action that is not enabled leaves the state alone. */
  function Step(s: State, a: Action): State {
    match a
    case StatParent(p) =>
      if s.Phase(p) == Idle && SafeParent(s.parent) then s.To(p, ParentSafe) else s
    case Open(p) =>
      if s.Phase(p) != ParentSafe then s
      else if s.path.Some? && s.path.value in s.inodes && s.inodes[s.path.value].kind != Symlink then
        s.To(p, Opened).(fds := s.fds[p := s.path.value])
      else s.To(p, Idle)
    case Fstat(p, owner) =>
      if s.Phase(p) != Opened || p !in s.fds || s.fds[p] !in s.inodes then s
      else
        var i := s.fds[p];
        if Acceptable(s.inodes[i], owner) then s.To(p, Checked(LockIdentity(i, s.inodes[i]))) else s.To(p, Failing)
    case Flock(p) =>
      if !s.Phase(p).Checked? || p !in s.fds then s
      else if s.fds[p] in s.flocks then s.To(p, Failing)
      else s.To(p, Locked(s.Phase(p).facts)).(flocks := s.flocks[s.fds[p] := p])
    case Lstat(p) =>
      if !s.Phase(p).Locked? then s
      else if s.path == Some(s.Phase(p).facts.ino) then s.To(p, Holding(s.Phase(p).facts))
      else s.To(p, Failing)
    case Close(p) =>
      if !OpenPhase(s.Phase(p)) then s
      else s.To(p, Idle).(fds := s.fds - {p}, flocks := map i | i in s.flocks && s.flocks[i] != p :: s.flocks[i])
    case SetParent(parent) => s.(parent := parent)
    case Rename(i) => if i in s.inodes then s.(path := Some(i)) else s
    case Unlink => s.(path := None)
    case Create(i, node) =>
      if Live(s, i) then s else s.(inodes := s.inodes[i := node], path := Some(i))
    case Alter(i, node) =>
      if i in s.inodes && s.inodes[i].kind == node.kind then s.(inodes := s.inodes[i := node]) else s
  }

  function Run(s: State, actions: seq<Action>): State
    decreases |actions|
  {
    if actions == [] then s else Run(Step(s, actions[0]), actions[1..])
  }

  /** A host on which nobody has started yet. */
  predicate Initial(s: State) {
    s.fds == map[] && s.flocks == map[] && s.phases == map[] && (s.path.Some? ==> s.path.value in s.inodes)
  }

  /** What `verify_locked_inode` checks for a holder. */
  predicate Verifies(s: State, p: Pid) {
    && FstatMatches(s, p)
    && s.path.Some? && s.path.value in s.inodes
    && LockIdentity(s.path.value, s.inodes[s.path.value]) == s.Phase(p).facts
  }

  /** The first of its two reads. */
  predicate FstatMatches(s: State, p: Pid) {
    && s.Phase(p).Holding?
    && p in s.fds && s.fds[p] in s.inodes && LockIdentity(s.fds[p], s.inodes[s.fds[p]]) == s.Phase(p).facts
  }

  // ---- the invariant of every step ----

  predicate HasFacts(ph: Phase) { ph.Checked? || ph.Locked? || ph.Holding? }

  predicate OwnsLock(ph: Phase) { ph.Locked? || ph.Holding? }

  /** A process has a description exactly while it is past open, its facts are about
      that description's file, and from flock on it owns the file's lock. */
  ghost predicate ProcessInv(s: State, p: Pid) {
    && (OpenPhase(s.Phase(p)) <==> p in s.fds)
    && (p in s.fds ==> s.fds[p] in s.inodes)
    && (HasFacts(s.Phase(p)) ==> p in s.fds && s.Phase(p).facts.ino == s.fds[p])
    && (OwnsLock(s.Phase(p)) ==> p in s.fds && s.fds[p] in s.flocks && s.flocks[s.fds[p]] == p)
  }

  /** Every flock belongs to an open description of that very file. */
  ghost predicate FlockInv(s: State, i: Ino) {
    i in s.flocks ==>
      var p := s.flocks[i];
      p in s.fds && s.fds[p] == i && (OwnsLock(s.Phase(p)) || s.Phase(p) == Failing)
  }

  ghost predicate Inv(s: State) {
    && (s.path.Some? ==> s.path.value in s.inodes)
    && (forall p :: ProcessInv(s, p))
    && (forall i :: FlockInv(s, i))
  }

  lemma InitialInv(s: State)
    requires Initial(s)
    ensures Inv(s)
  {
  }

  lemma StepKeepsProcess(s: State, a: Action, p: Pid)
    requires Inv(s)
    ensures ProcessInv(Step(s, a), p)
  {
    assert ProcessInv(s, p);
    if Actor(a).Some? {
      var q := Actor(a).value;
      assert ProcessInv(s, q);
      if p in s.fds { assert FlockInv(s, s.fds[p]); }
    }
  }

  lemma StepKeepsFlock(s: State, a: Action, i: Ino)
    requires Inv(s)
    ensures FlockInv(Step(s, a), i)
  {
    assert FlockInv(s, i);
    if Actor(a).Some? { assert ProcessInv(s, Actor(a).value); }
  }

  lemma StepKeepsInv(s: State, a: Action)
    requires Inv(s)
    ensures Inv(Step(s, a))
  {
    forall p ensures ProcessInv(Step(s, a), p) { StepKeepsProcess(s, a, p); }
    forall i ensures FlockInv(Step(s, a), i) { StepKeepsFlock(s, a, i); }
  }

  lemma {:induction false} RunKeepsInv(s: State, actions: seq<Action>)
    requires Inv(s)
    ensures Inv(Run(s, actions))
    decreases |actions|
  {
    if actions != [] {
      StepKeepsInv(s, actions[0]);
      RunKeepsInv(Step(s, actions[0]), actions[1..]);
    }
  }

  // ---- what the lock guarantees over all runs ----

  /** Two processes past flock never hold the same file. */
  lemma HoldersHoldDifferentFiles(s0: State, actions: seq<Action>, p: Pid, q: Pid)
    requires Initial(s0) && p != q
    requires OwnsLock(Run(s0, actions).Phase(p)) && OwnsLock(Run(s0, actions).Phase(q))
    ensures var s := Run(s0, actions);
            p in s.fds && q in s.fds && s.fds[p] != s.fds[q]
  {
    RunKeepsInv(s0, actions);
    var s := Run(s0, actions);
    assert ProcessInv(s, p) && ProcessInv(s, q);
  }

  /** At most one successful acquirer holds the file that the path names. */
  lemma NamedFileHasOneHolder(s0: State, actions: seq<Action>, p: Pid, q: Pid)
    requires Initial(s0)
    requires var s := Run(s0, actions);
             && s.Phase(p).Holding? && s.path == Some(s.Phase(p).facts.ino)
             && s.Phase(q).Holding? && s.path == Some(s.Phase(q).facts.ino)
    ensures p == q
  {
    RunKeepsInv(s0, actions);
    assert ProcessInv(Run(s0, actions), p) && ProcessInv(Run(s0, actions), q);
  }

  /** The check of a holder passes exactly when the path still names its own file
      and nobody altered what was recorded about it. */
  lemma VerifiesExactly(s0: State, actions: seq<Action>, p: Pid)
    requires Initial(s0) && Run(s0, actions).Phase(p).Holding?
    ensures var s := Run(s0, actions);
            var f := s.Phase(p).facts;
            f.ino in s.inodes
              && var n := s.inodes[f.ino];
              (Verifies(s, p) <==>
                s.path == Some(f.ino) && n.uid == f.uid && n.gid == f.gid && n.mode == f.mode && n.size == f.size)
  {
    RunKeepsInv(s0, actions);
    assert ProcessInv(Run(s0, actions), p);
  }

  /** Two different holders can never both pass the check in one state. */
  lemma VerifiedHolderIsUnique(s0: State, actions: seq<Action>, p: Pid, q: Pid)
    requires Initial(s0)
    requires Verifies(Run(s0, actions), p) && Verifies(Run(s0, actions), q)
    ensures p == q
  {
    VerifiesExactly(s0, actions, p);
    VerifiesExactly(s0, actions, q);
    NamedFileHasOneHolder(s0, actions, p, q);
  }

  /** The environment action moves the path to another file. */
  predicate Rebinds(a: Action) { a.Rename? || a.Unlink? || a.Create? }

  predicate LeavesPathAlone(actions: seq<Action>) {
    forall k :: 0 <= k < |actions| ==> !Rebinds(actions[k])
  }

  ghost predicate EveryHolderHasPath(s: State) {
    forall p :: p in s.fds ==> s.path == Some(s.fds[p])
  }

  lemma {:induction false} UndisturbedPath(s: State, actions: seq<Action>)
    requires Inv(s) && EveryHolderHasPath(s) && LeavesPathAlone(actions)
    ensures EveryHolderHasPath(Run(s, actions))
    decreases |actions|
  {
    if actions != [] {
      StepKeepsInv(s, actions[0]);
      assert !Rebinds(actions[0]);
      assert forall k :: 0 <= k < |actions| - 1 ==> actions[1..][k] == actions[k + 1];
      UndisturbedPath(Step(s, actions[0]), actions[1..]);
    }
  }

  /** While nobody rebinds the path there is one holder at most, verified or not. */
  lemma UndisturbedPathHasOneHolder(s0: State, actions: seq<Action>, p: Pid, q: Pid)
    requires Initial(s0) && LeavesPathAlone(actions)
    requires OwnsLock(Run(s0, actions).Phase(p)) && OwnsLock(Run(s0, actions).Phase(q))
    ensures p == q
  {
    UndisturbedPath(s0, actions);
    if p != q { HoldersHoldDifferentFiles(s0, actions, p, q); }
  }

  /** The calls of one acquisition, in order. */
  function Acquisition(p: Pid, owner: nat): seq<Action> {
    [StatParent(p), Open(p), Fstat(p, owner), Flock(p), Lstat(p)]
  }

  /** A process that runs alone on an acceptable, unlocked file acquires it and
      disturbs nobody. */
  lemma LoneAcquisitionSucceeds(s: State, p: Pid, owner: nat, i: Ino)
    requires s.Phase(p) == Idle && Acquirable(s, owner) && s.path == Some(i)
    ensures var t := Run(s, Acquisition(p, owner));
            && t.Phase(p) == Holding(LockIdentity(i, s.inodes[i]))
            && t.fds == s.fds[p := i] && t.flocks == s.flocks[i := p]
            && t.path == s.path && t.inodes == s.inodes && t.parent == s.parent
            && forall q :: q != p ==> t.Phase(q) == s.Phase(q)
  {
    FiveSteps(s, StatParent(p), Open(p), Fstat(p, owner), Flock(p), Lstat(p));
    hide Run;
  }

  /** A process that runs alone acquires the lock exactly when the path names an
      acceptable file that nobody has locked, in a safe parent. */
  lemma AcquiresExactly(s: State, q: Pid, owner: nat)
    requires Inv(s) && s.Phase(q) == Idle
    ensures Run(s, Acquisition(q, owner)).Phase(q).Holding? <==> Acquirable(s, owner)
  {
    assert ProcessInv(s, q);
    if Acquirable(s, owner) {
      LoneAcquisitionSucceeds(s, q, owner, s.path.value);
      hide Run, Step;
    } else {
      FiveSteps(s, StatParent(q), Open(q), Fstat(q, owner), Flock(q), Lstat(q));
      hide Run;
      var s2 := Step(Step(s, StatParent(q)), Open(q));
      if s2.Phase(q) == Opened {
        assert s2 == s.(phases := s2.phases, fds := s.fds[q := s.path.value]);
      } else {
        assert s2.Phase(q) == Idle;
      }
    }
  }

  lemma OwnerHasLock(s: State, p: Pid)
    requires Inv(s) && OwnsLock(s.Phase(p))
    ensures p in s.fds && s.fds[p] in s.flocks && s.flocks[s.fds[p]] == p
  {
    assert ProcessInv(s, p);
  }

  /** While p holds the lock, a second process acquires it exactly when the path names
      another file than p's which is acceptable and unlocked, whatever happened before. */
  lemma SecondHolderExactly(s0: State, actions: seq<Action>, p: Pid, q: Pid, owner: nat)
    requires Initial(s0) && OwnsLock(Run(s0, actions).Phase(p)) && Run(s0, actions).Phase(q) == Idle
    ensures var s := Run(s0, actions); var t := Run(s, Acquisition(q, owner));
            && p in s.fds && (s.path.Some? ==> s.path.value in s.inodes)
            && (t.Phase(q).Holding? <==> Acquirable(s, owner) && s.path != Some(s.fds[p]))
            && (t.Phase(q).Holding? ==> t.Phase(p) == s.Phase(p))
  {
    RunKeepsInv(s0, actions);
    var s := Run(s0, actions);
    OwnerHasLock(s, p);
    AcquiresExactly(s, q, owner);
    hide Run, OwnsLock;
    if Acquirable(s, owner) {
      LoneAcquisitionSucceeds(s, q, owner, s.path.value);
    }
  }

  lemma FiveSteps(s: State, a: Action, b: Action, c: Action, d: Action, e: Action)
    ensures Run(s, [a, b, c, d, e]) == Step(Step(Step(Step(Step(s, a), b), c), d), e)
  {
    hide Step;
    var s3 := Step(Step(Step(s, a), b), c);
    assert [a, b, c, d, e][1..][1..] == [c, d, e] && [c, d, e][1..][1..] == [e] && [e][1..] == [];
    assert Run(s, [a, b, c, d, e]) == Run(Step(Step(s, a), b), [c, d, e]);
    assert Run(Step(Step(s, a), b), [c, d, e]) == Run(Step(s3, d), [e]);
    assert Run(Step(s3, d), [e]) == Run(Step(Step(s3, d), e), []);
  }

  lemma ReplacementRuns(s: State, j: Ino, node: Inode)
    requires s.path != Some(j) && j !in s.fds.Values
    ensures Run(s, [Unlink, Create(j, node)]) == s.(path := Some(j), inodes := s.inodes[j := node])
  {
    var s1 := Step(s, Unlink);
    assert [Unlink, Create(j, node)][1..] == [Create(j, node)];
    assert Run(s, [Unlink, Create(j, node)]) == Run(s1, [Create(j, node)]);
    assert Run(s1, [Create(j, node)]) == Run(Step(s1, Create(j, node)), []);
  }

  /** Acquisition alone does not exclude: whenever the lock file is unlinked and
      recreated after p acquired it, q acquires too, and p is still a holder. Only the
      later check tells the two apart: it fails for p and passes for q. */
  lemma ReplacedPathHasTwoHolders(s0: State, p: Pid, q: Pid, owner: nat, i: Ino, j: Ino)
    requires Initial(s0) && p != q && Acquirable(s0, owner) && s0.path == Some(i) && i != j
    ensures var s := Run(s0, Acquisition(p, owner) + ([Unlink, Create(j, s0.inodes[i])] + Acquisition(q, owner)));
            s.Phase(p).Holding? && s.Phase(q).Holding? && !Verifies(s, p) && Verifies(s, q)
  {
    var replace := [Unlink, Create(j, s0.inodes[i])];
    LoneAcquisitionSucceeds(s0, p, owner, i);
    var s1 := Run(s0, Acquisition(p, owner));
    RunConcat(s0, Acquisition(p, owner), replace + Acquisition(q, owner));
    RunConcat(s1, replace, Acquisition(q, owner));
    ReplacementRuns(s1, j, s0.inodes[i]);
    assert s1.Phase(q) == s0.Phase(q) == Idle;
    LoneAcquisitionSucceeds(Run(s1, replace), q, owner, j);
  }

  lemma {:induction false} RunConcat(s: State, a: seq<Action>, b: seq<Action>)
    ensures Run(s, a + b) == Run(Run(s, a), b)
    decreases |a|
  {
    if a == [] {
      assert a + b == b;
    } else {
      assert (a + b)[1..] == a[1..] + b;
      RunConcat(Step(s, a[0]), a[1..], b);
    }
  }

  /** Whatever the others and the environment do, a process keeps its phase, its
      description and its flock until it acts itself; its file's number is not
      reused and its file stays what it was opened as. */
  ghost predicate KeepsProcess(s: State, t: State, me: Pid) {
    && t.Phase(me) == s.Phase(me)
    && (me in s.fds <==> me in t.fds)
    && (me in s.fds && me in t.fds ==>
          && t.fds[me] == s.fds[me]
          && (s.fds[me] in s.inodes ==> s.fds[me] in t.inodes && t.inodes[s.fds[me]].kind == s.inodes[s.fds[me]].kind))
  }

  lemma OthersKeepProcess(s: State, a: Action, me: Pid)
    requires Inv(s) && Actor(a) != Some(me)
    ensures KeepsProcess(s, Step(s, a), me)
  {
    assert ProcessInv(s, me);
  }

  lemma IdleOwnsNothing(s: State, me: Pid)
    requires Inv(s) && !OpenPhase(s.Phase(me))
    ensures me !in s.fds && forall i :: i in s.flocks ==> s.flocks[i] != me
  {
    assert ProcessInv(s, me);
    forall i | i in s.flocks ensures s.flocks[i] != me { assert FlockInv(s, i); }
  }

  datatype LockError = UnsafeParent | OpenFailed | UnexpectedIdentity | WouldBlock | Replaced

  /** What each outcome says about the state that it rests on. */
  predicate RestsOn(at: State, me: Pid, owner: nat, r: Result<Facts, LockError>) {
    match r
    case Ok(f) =>
      && me in at.fds && at.fds[me] == f.ino && f.ino in at.inodes && IsLockFile(at.inodes[f.ino], owner)
      && var n := at.inodes[f.ino];
      f.uid == n.uid && f.gid == n.gid && f.mode == n.mode && f.size == n.size
    case Err(error) =>
      match error
      case UnsafeParent =>
        !(at.parent.kind == Directory && at.parent.uid == 0 && (at.parent.othersMayWrite ==> at.parent.sticky))
      case OpenFailed => at.path.Some? ==> at.path.value in at.inodes && at.inodes[at.path.value].kind == Symlink
      case UnexpectedIdentity =>
        me in at.fds && at.fds[me] in at.inodes && !IsLockFile(at.inodes[at.fds[me]], owner)
      case WouldBlock => me in at.fds && at.fds[me] in at.flocks && at.flocks[at.fds[me]] != me
      case Replaced => me in at.fds && at.path != Some(at.fds[me])
  }

  /** The host's system calls. Each call of a process is its step of the machine. */
  class Kernel {
    const alone: bool            // nobody interferes
    var s: State

    constructor (s0: State, alone: bool)
      requires Initial(s0)
      ensures s == s0 && this.alone == alone && Inv(s)
    {
      s, this.alone := s0, alone;
      new;
      InitialInv(s0);
    }

    /** Any number of steps of other processes and of the environment. */
    method Interfere(me: Pid)
      requires Inv(s)
      modifies this
      ensures Inv(s) && KeepsProcess(old(s), s, me)
      ensures alone ==> s == old(s)
    {
      var n: nat := *;
      if alone { n := 0; }
      while n > 0
        invariant Inv(s) && KeepsProcess(old(s), s, me) && (alone ==> s == old(s))
      {
        var a: Action := *;
        if Actor(a) != Some(me) {
          StepKeepsInv(s, a);
          OthersKeepProcess(s, a, me);
          s := Step(s, a);
        }
        n := n - 1;
      }
    }

    method Call(a: Action)
      requires Inv(s)
      modifies this
      ensures s == Step(old(s), a) && Inv(s)
    {
      StepKeepsInv(s, a);
      s := Step(s, a);
    }

    method Abandon(me: Pid)
      requires Inv(s) && s.Phase(me) == Failing
      modifies this
      ensures Inv(s) && Released(me)
    {
      Interfere(me);
      Call(Close(me));
      IdleOwnsNothing(s, me);
    }

    ghost predicate Released(me: Pid)
      reads this
    {
      s.Phase(me) == Idle && me !in s.fds && forall i :: i in s.flocks ==> s.flocks[i] != me
    }

    ghost predicate Acquired(me: Pid, owner: nat, facts: Facts)
      reads this
    {
      && s.Phase(me) == Holding(facts)
      && s.path == Some(facts.ino)
      && me in s.fds && s.fds[me] == facts.ino
      && facts.ino in s.flocks && s.flocks[facts.ino] == me
      && facts.size == 0 && facts.mode == PRIVATE_MODE && (facts.uid == 0 || facts.uid == owner)
      && facts.ino in s.inodes && s.inodes[facts.ino].kind == Regular
    }

    /** `acquire_existing_lock`, with interference before every system call. On
        success the caller holds the flock of the file that the path named at the
        final lstat; on every error it is left without descriptor and without flock. `at` is
        the state that the outcome rests on: that of the fstat for a success, else that of
        the call that failed. A process that runs alone succeeds exactly when it can. */
    method AcquireExistingLock(me: Pid, owner: nat) returns (r: Result<Facts, LockError>, ghost at: State)
      requires Inv(s) && s.Phase(me) == Idle
      modifies this
      ensures Inv(s)
      ensures r.Ok? ==> Acquired(me, owner, r.value)
      ensures r.Err? ==> Released(me)
      ensures RestsOn(at, me, owner, r)
      ensures alone ==> (r.Ok? <==> Acquirable(old(s), owner))
    {
      Interfere(me);
      at := s;
      var parent := s.parent;
      Call(StatParent(me));
      if parent.kind != Directory || parent.uid != 0 || (parent.othersMayWrite && !parent.sticky) {
        IdleOwnsNothing(s, me);
        return Err(UnsafeParent), at;
      }
      Interfere(me);
      at := s;
      var named := s.path;
      Call(Open(me));
      if named == None || s.inodes[named.value].kind == Symlink {
        IdleOwnsNothing(s, me);
        return Err(OpenFailed), at;
      }
      r, at := LockOpened(me, owner);
    }

    /** `verify_locked_inode`, with interference before each of its two reads. It passes
        exactly when the first read matches and, at the instant of the second, the whole
        check would: so what holds of a check in one state holds of it at its lstat. */
    method VerifyLockedInode(me: Pid) returns (ok: bool, ghost atFstat: State)
      requires Inv(s) && s.Phase(me).Holding?
      modifies this
      ensures Inv(s) && s.Phase(me) == old(s.Phase(me)) && KeepsProcess(old(s), atFstat, me)
      ensures ok <==> FstatMatches(atFstat, me) && Verifies(s, me)
    {
      var facts := s.Phase(me).facts;
      Interfere(me);
      atFstat := s;
      assert ProcessInv(s, me);
      if LockIdentity(s.fds[me], s.inodes[s.fds[me]]) != facts { return false, atFstat; }
      Interfere(me);
      assert ProcessInv(s, me);
      ok := s.path.Some? && LockIdentity(s.path.value, s.inodes[s.path.value]) == facts;
    }

    /** The guarded part after open. */
    method LockOpened(me: Pid, owner: nat) returns (r: Result<Facts, LockError>, ghost at: State)
      requires Inv(s) && s.Phase(me) == Opened
      modifies this
      ensures Inv(s)
      ensures r.Ok? ==> Acquired(me, owner, r.value)
      ensures r.Err? ==> Released(me)
      ensures RestsOn(at, me, owner, r)
      ensures r.Err? ==> r.error != UnsafeParent && r.error != OpenFailed
      ensures alone && me in old(s).fds && old(s).path == Some(old(s).fds[me]) && old(s).fds[me] in old(s).inodes ==>
          (r.Ok? <==> IsLockFile(old(s).inodes[old(s).fds[me]], owner) && old(s).fds[me] !in old(s).flocks)
    {
      Interfere(me);
      at := s;
      assert ProcessInv(s, me);
      var ino := s.fds[me];
      var value := s.inodes[ino];
      Call(Fstat(me, owner));
      if value.kind != Regular || value.nlink != 1 || value.size != 0
         || (value.uid != 0 && value.uid != owner) || value.mode != PRIVATE_MODE {
        Abandon(me);
        return Err(UnexpectedIdentity), at;
      }
      r, at := LockChecked(me, owner, ino, value, at);
    }

    /** From flock on. */
    method LockChecked(me: Pid, owner: nat, ino: Ino, value: Inode, ghost fstat: State)
      returns (r: Result<Facts, LockError>, ghost at: State)
      requires Inv(s) && s.Phase(me) == Checked(LockIdentity(ino, value)) && IsLockFile(value, owner)
      requires me in s.fds && s.fds[me] == ino && ino in s.inodes && s.inodes[ino].kind == Regular
      requires me in fstat.fds && fstat.fds[me] == ino && ino in fstat.inodes && fstat.inodes[ino] == value
      modifies this
      ensures Inv(s)
      ensures r.Ok? ==> Acquired(me, owner, r.value)
      ensures r.Err? ==> Released(me)
      ensures RestsOn(at, me, owner, r)
      ensures r.Err? ==> r.error == WouldBlock || r.error == Replaced
      ensures alone && old(s).path == Some(ino) ==> (r.Ok? <==> ino !in old(s).flocks)
    {
      Interfere(me);
      assert ProcessInv(s, me);
      assert FlockInv(s, ino);
      at := s;
      var taken := ino in s.flocks;
      Call(Flock(me));
      if taken {
        Abandon(me);
        return Err(WouldBlock), at;
      }
      Interfere(me);
      at := s;
      var observed := s.path;
      Call(Lstat(me));
      if observed != Some(ino) {
        Abandon(me);
        return Err(Replaced), at;
      }
      assert ProcessInv(s, me);
      return Ok(LockIdentity(ino, value)), fstat;
    }
  }
}
