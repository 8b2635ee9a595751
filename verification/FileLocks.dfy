/**
  Concurrent `apply` and `rollback` operations of the file engine, without I/O errors: each
  takes one lock file per target, checks hashes, writes its targets and releases its locks.
  Every interleaving leaves the files of some serial run of the operations that succeeded.
 */
module FileLocks {
  import opened Prelude

  type Files = map<Path, string>

  /** `order` is the sorted order in which the locks of `targets` are taken. */
  datatype Request = Request(targets: seq<Path>, order: seq<Path>, pre: HashMap, writes: HashMap)

  ghost predicate WfRequest(r: Request) {
    multiset(r.order) == multiset(r.targets)
  }

  /** `n` counts the locks taken, the targets checked or the targets written. */
  datatype Phase =
    | Acquiring(n: nat)
    | Checking(n: nat)
    | Writing(n: nat)
    | Releasing(ok: bool)
    | Done(ok: bool)

  /** `held` is the list of locks the operation has to release. */
  datatype Op = Op(req: Request, phase: Phase, held: seq<Path>)

  /** `log` is the history of the operations that began writing, in that order. */
  datatype State = State(files: Files, locks: map<Path, OpId>, ops: map<OpId, Op>, log: seq<OpId>)

  datatype Action = Begin(op: OpId, req: Request) | Step(op: OpId) | Refuse(op: OpId)

  function With(s: State, op: OpId, o: Op): State {
    s.(ops := s.ops[op := o])
  }

  function StepOp(s: State, op: OpId): State
    requires op in s.ops
  {
    var o := s.ops[op];
    var r := o.req;
    match o.phase
    case Acquiring(n) =>
      if n < |r.order| then
        if r.order[n] in s.locks then With(s, op, o.(phase := Releasing(false)))
        else
          With(s.(locks := s.locks[r.order[n] := op]), op, Op(r, Acquiring(n + 1), o.held + [r.order[n]]))
      else With(s, op, o.(phase := Checking(0)))
    case Checking(n) =>
      if n < |r.targets| then
        if Observed(s.files, r.targets[n]) == Look(r.pre, r.targets[n]) then With(s, op, o.(phase := Checking(n + 1)))
        else With(s, op, o.(phase := Releasing(false)))
      else With(s.(log := s.log + [op]), op, o.(phase := Writing(0)))
    case Writing(n) =>
      if n < |r.targets| then
        With(s.(files := SetFile(s.files, r.targets[n], Look(r.writes, r.targets[n]))), op, o.(phase := Writing(n + 1)))
      else With(s, op, o.(phase := Releasing(true)))
    case Releasing(ok) =>
      if o.held != [] then
        var last := o.held[|o.held| - 1];
        With(s.(locks := s.locks - {last}), op, o.(held := o.held[..|o.held| - 1]))
      else With(s, op, o.(phase := Done(ok)))
    case Done(_) => s
  }

  /** `Refuse` is a failed snapshot check: it comes after the hash checks and before any write. */
  ghost function Next(s: State, a: Action): Option<State> {
    match a
    case Begin(op, req) =>
      if op !in s.ops && WfRequest(req) then Some(With(s, op, Op(req, Acquiring(0), []))) else None
    case Step(op) => if op in s.ops then Some(StepOp(s, op)) else None
    case Refuse(op) =>
      if op in s.ops && s.ops[op].phase.Checking? then
        Some(With(s, op, s.ops[op].(phase := Releasing(false))))
      else None
  }

  ghost predicate StepAt(run: seq<State>, acts: seq<Action>, i: int)
    requires |run| == |acts| + 1 && 0 <= i < |acts|
  {
    Next(run[i], acts[i]) == Some(run[i + 1])
  }

  ghost predicate IsRun(run: seq<State>, acts: seq<Action>) {
    && |run| == |acts| + 1
    && run[0].locks == map[] && run[0].ops == map[] && run[0].log == []
    && forall i :: 0 <= i < |acts| ==> StepAt(run, acts, i)
  }

  // ---------------------------------------------------------------- serial runs

  /** One operation on its own: every target gets its written hash. */
  function Alone(files: Files, r: Request): Files {
    var gone := set p | p in r.targets && Look(r.writes, p) == None;
    var put := map p | p in r.targets && Look(r.writes, p).Some? :: Look(r.writes, p).value;
    (files + put) - gone
  }

  predicate Applicable(files: Files, r: Request) {
    forall p :: p in r.targets ==> Observed(files, p) == Look(r.pre, p)
  }

  function Serial(files: Files, reqs: seq<Request>): Files {
    if reqs == [] then files else Alone(Serial(files, reqs[..|reqs| - 1]), reqs[|reqs| - 1])
  }

  /** Every operation of the serial run finds its preconditions. */
  ghost predicate Legal(files: Files, reqs: seq<Request>) {
    forall i :: 0 <= i < |reqs| ==> Applicable(Serial(files, reqs[..i]), reqs[i])
  }

  ghost function Logged(s: State): seq<Request>
    requires forall op :: op in s.log ==> op in s.ops
  {
    seq(|s.log|, i requires 0 <= i < |s.log| => s.ops[s.log[i]].req)
  }

  lemma AloneAt(files: Files, r: Request, p: Path)
    ensures Observed(Alone(files, r), p) == if p in r.targets then Look(r.writes, p) else Observed(files, p)
  {
  }

  // ---------------------------------------------------------------- the invariant

  ghost predicate OpInv(files: Files, o: Op) {
    && WfRequest(o.req)
    && Distinct(o.held)
    && match o.phase
       case Acquiring(n) => n <= |o.req.order| && o.held == o.req.order[..n]
       case Checking(n) =>
         && o.held == o.req.order && n <= |o.req.targets|
         && forall i :: 0 <= i < n ==> Observed(files, o.req.targets[i]) == Look(o.req.pre, o.req.targets[i])
       case Writing(n) => o.held == o.req.order && n <= |o.req.targets|
       case Releasing(_) => true
       case Done(_) => o.held == []
  }

  /** The lock table and the operations' own lists say the same. */
  ghost predicate TableInv(locks: map<Path, OpId>, ops: map<OpId, Op>) {
    && (forall p :: p in locks ==> locks[p] in ops && p in ops[locks[p]].held)
    && (forall op, p :: op in ops && p in ops[op].held ==> p in locks && locks[p] == op)
  }

  ghost predicate LocksInv(s: State) {
    && (forall op :: op in s.ops ==> OpInv(s.files, s.ops[op]))
    && TableInv(s.locks, s.ops)
  }

  predicate Committed(o: Op) {
    o.phase.Writing? || (o.phase.Releasing? && o.phase.ok) || (o.phase.Done? && o.phase.ok)
  }

  ghost predicate LogInv(s: State) {
    && Distinct(s.log)
    && (forall op :: op in s.log <==> op in s.ops && Committed(s.ops[op]))
  }

  /** `p` is still to be written by an operation that has begun writing. */
  ghost predicate Unwritten(o: Op, p: Path) {
    o.phase.Writing? && o.phase.n <= |o.req.targets| && p in o.req.targets[o.phase.n..]
  }

  ghost predicate AwaitsWrite(s: State, p: Path) {
    p in s.locks && s.locks[p] in s.ops && Unwritten(s.ops[s.locks[p]], p)
  }

  /** `serial` is ahead of the files exactly where a logged operation has still to write. */
  ghost predicate Mirrors(s: State, serial: Files) {
    forall p :: Observed(serial, p) ==
                if AwaitsWrite(s, p) then Look(s.ops[s.locks[p]].req.writes, p) else Observed(s.files, p)
  }

  ghost predicate Inv(s: State, start: Files) {
    && LocksInv(s)
    && LogInv(s)
    && Legal(start, Logged(s))
    && Mirrors(s, Serial(start, Logged(s)))
  }

  // ---------------------------------------------------------------- preservation

  lemma InOrder(r: Request, p: Path)
    requires WfRequest(r)
    ensures p in r.order <==> p in r.targets
  {
    assert p in r.order <==> p in multiset(r.order);
    assert p in r.targets <==> p in multiset(r.targets);
  }

  lemma DistinctTargets(r: Request)
    requires WfRequest(r) && Distinct(r.order)
    ensures Distinct(r.targets)
  {
    forall i, j | 0 <= i < j < |r.targets| ensures r.targets[i] != r.targets[j] {
      if r.targets[i] == r.targets[j] {
        var p := r.targets[i];
        assert multiset(r.targets)[p] >= 2 by {
          assert r.targets == r.targets[..i] + [p] + r.targets[i + 1..j] + [p] + r.targets[j + 1..];
        }
        OnceOnly(r.order, p);
      }
    }
  }

  lemma OnceOnly(s: seq<Path>, p: Path)
    requires Distinct(s)
    ensures multiset(s)[p] <= 1
  {
    if s != [] {
      assert s == [s[0]] + s[1..];
      OnceOnly(s[1..], p);
      if s[0] == p {
        assert p !in s[1..];
        assert multiset(s[1..])[p] == 0;
      }
    }
  }

  lemma TableSeesPhase(s: State, op: OpId, phase: Phase)
    requires TableInv(s.locks, s.ops) && op in s.ops
    ensures TableInv(s.locks, s.ops[op := s.ops[op].(phase := phase)])
  {
  }

  /** A phase change of one operation that keeps its held locks. */
  lemma PhaseKeepsLocks(s: State, op: OpId, phase: Phase)
    requires LocksInv(s) && op in s.ops && OpInv(s.files, s.ops[op].(phase := phase))
    ensures LocksInv(With(s, op, s.ops[op].(phase := phase)))
  {
    hide OpInv;
    TableSeesPhase(s, op, phase);
  }

  ghost predicate SameRequests(s: State, s': State) {
    forall x :: x in s.ops ==> x in s'.ops && s'.ops[x].req == s.ops[x].req
  }

  /** Steps that write nothing, log nothing and start or stop nobody's writing keep the mirror. */
  lemma MirrorKept(s: State, s': State, serial: Files)
    requires Mirrors(s, serial) && s'.files == s.files
    requires forall p :: AwaitsWrite(s, p) <==> AwaitsWrite(s', p)
    requires SameRequests(s, s')
    requires forall p :: p in s.locks && p in s'.locks ==> s'.locks[p] == s.locks[p]
    ensures Mirrors(s', serial)
  {
  }

  lemma LoggedKept(s: State, s': State)
    requires LogInv(s) && s'.log == s.log && SameRequests(s, s')
    ensures Logged(s') == Logged(s)
  {
  }

  lemma TakeLock(s: State, op: OpId, p: Path)
    requires LocksInv(s) && op in s.ops && p !in s.locks
    requires s.ops[op].phase.Acquiring? && s.ops[op].phase.n < |s.ops[op].req.order| && s.ops[op].req.order[s.ops[op].phase.n] == p
    ensures var o := s.ops[op];
            LocksInv(With(s.(locks := s.locks[p := op]), op, Op(o.req, Acquiring(o.phase.n + 1), o.held + [p])))
  {
    var o := s.ops[op];
    assert OpInv(s.files, o);
    hide Committed;
    assert o.req.order[..o.phase.n + 1] == o.held + [p];
    assert p !in o.held;
    assert Distinct(o.held + [p]);
  }

  lemma DropLock(s: State, op: OpId)
    requires LocksInv(s) && op in s.ops && s.ops[op].phase.Releasing? && s.ops[op].held != []
    ensures LocksInv(StepOp(s, op))
  {
    var o := s.ops[op];
    assert OpInv(s.files, o);
    DropLockTable(s.locks, s.ops, op);
    assert Distinct(o.held[..|o.held| - 1]);
  }

  lemma DropLockTable(locks: map<Path, OpId>, ops: map<OpId, Op>, op: OpId)
    requires TableInv(locks, ops) && op in ops && ops[op].held != [] && Distinct(ops[op].held)
    ensures var held := ops[op].held;
            TableInv(locks - {held[|held| - 1]}, ops[op := ops[op].(held := held[..|held| - 1])])
  {
    var held := ops[op].held;
    var last, rest := held[|held| - 1], held[..|held| - 1];
    assert held == rest + [last];
    assert last in locks && locks[last] == op;
    forall p | p in rest ensures p in held && p != last {
    }
  }

  /** Every step but a commit or a write. */
  predicate Quiet(s: State, op: OpId)
    requires op in s.ops
  {
    var o := s.ops[op];
    !(o.phase.Checking? && o.phase.n >= |o.req.targets|) && !(o.phase.Writing? && o.phase.n < |o.req.targets|)
  }

  lemma QuietKeepsLocks(s: State, op: OpId)
    requires LocksInv(s) && op in s.ops && Quiet(s, op)
    ensures LocksInv(StepOp(s, op))
  {
    var o := s.ops[op];
    assert OpInv(s.files, o);
    hide Observed, Look, LocksInv;
    match o.phase
    case Acquiring(n) =>
      if n < |o.req.order| {
        if o.req.order[n] in s.locks {
          PhaseKeepsLocks(s, op, Releasing(false));
        } else {
          TakeLock(s, op, o.req.order[n]);
        }
      } else {
        assert o.req.order[..n] == o.req.order;
        PhaseKeepsLocks(s, op, Checking(0));
      }
    case Checking(n) =>
      if Observed(s.files, o.req.targets[n]) == Look(o.req.pre, o.req.targets[n]) {
        PhaseKeepsLocks(s, op, Checking(n + 1));
      } else {
        PhaseKeepsLocks(s, op, Releasing(false));
      }
    case Writing(n) => PhaseKeepsLocks(s, op, Releasing(true));
    case Releasing(ok) =>
      if o.held != [] {
        DropLock(s, op);
      } else {
        PhaseKeepsLocks(s, op, Done(ok));
      }
    case Done(_) =>
  }

  lemma StepKeepsRecord(s: State, op: OpId)
    requires op in s.ops && Quiet(s, op)
    ensures var s' := StepOp(s, op);
            && s'.log == s.log && s'.files == s.files && s'.ops.Keys == s.ops.Keys
            && (forall x :: x in s.ops && x != op ==> s'.ops[x] == s.ops[x])
            && s'.ops[op].req == s.ops[op].req && Committed(s'.ops[op]) == Committed(s.ops[op])
  {
    hide Observed, Look, With, Committed;
    StepIsWith(s, op);
    hide StepOp;
    var s' := StepOp(s, op);
    OthersKept(s.(locks := s'.locks), op, s'.ops[op]);
  }

  lemma OthersKept(s: State, op: OpId, o: Op)
    requires op in s.ops
    ensures var s' := With(s, op, o);
            && s'.log == s.log && s'.files == s.files && s'.ops.Keys == s.ops.Keys
            && (forall x :: x in s.ops && x != op ==> s'.ops[x] == s.ops[x])
  {
  }

  lemma StepIsWith(s: State, op: OpId)
    requires op in s.ops && Quiet(s, op)
    ensures var s' := StepOp(s, op);
            && op in s'.ops && s' == With(s.(locks := s'.locks), op, s'.ops[op])
            && s'.ops[op].req == s.ops[op].req && Committed(s'.ops[op]) == Committed(s.ops[op])
  {
    hide Observed, Look;
    if s.ops[op].phase.Done? {
      assert s.ops == s.ops[op := s.ops[op]];
    }
  }

  lemma QuietKeepsLog(s: State, op: OpId)
    requires LogInv(s) && op in s.ops && Quiet(s, op)
    ensures LogInv(StepOp(s, op)) && SameRequests(s, StepOp(s, op))
    ensures StepOp(s, op).log == s.log && StepOp(s, op).files == s.files
  {
    StepKeepsRecord(s, op);
    hide StepOp, Distinct;
  }

  /** A quiet step of `op` changes the lock table only at its own locks. */
  lemma QuietTable(s: State, op: OpId, p: Path)
    requires LocksInv(s) && op in s.ops && Quiet(s, op)
    ensures p in s.locks && p in StepOp(s, op).locks ==> StepOp(s, op).locks[p] == s.locks[p]
    ensures p in s.locks && s.locks[p] != op ==> p in StepOp(s, op).locks
    ensures p in StepOp(s, op).locks && p !in s.locks ==> StepOp(s, op).locks[p] == op
  {
    hide OpInv, Distinct, Observed, Look;
    var o := s.ops[op];
    if p in s.locks && s.locks[p] != op {
      assert !(o.held != [] && o.held[|o.held| - 1] == p);
    }
  }

  /** A quiet step starts and ends nobody's outstanding writes. */
  lemma QuietAwaits(s: State, op: OpId, p: Path)
    requires LocksInv(s) && op in s.ops && Quiet(s, op)
    ensures AwaitsWrite(s, p) <==> AwaitsWrite(StepOp(s, op), p)
    ensures p in s.locks && p in StepOp(s, op).locks ==> StepOp(s, op).locks[p] == s.locks[p]
  {
    QuietTable(s, op, p);
    StepKeepsRecord(s, op);
    assert !Unwritten(StepOp(s, op).ops[op], p) && !Unwritten(s.ops[op], p) by {
      assert OpInv(s.files, s.ops[op]);
    }
    hide StepOp, OpInv, Unwritten;
  }

  lemma QuietKeepsMirror(s: State, op: OpId, serial: Files)
    requires LocksInv(s) && LogInv(s) && Mirrors(s, serial) && op in s.ops && Quiet(s, op)
    ensures Mirrors(StepOp(s, op), serial)
  {
    hide StepOp, OpInv, AwaitsWrite, LogInv;
    forall p
      ensures AwaitsWrite(s, p) <==> AwaitsWrite(StepOp(s, op), p)
      ensures p in s.locks && p in StepOp(s, op).locks ==> StepOp(s, op).locks[p] == s.locks[p]
    {
      QuietAwaits(s, op, p);
    }
    QuietKeepsLog(s, op);
    MirrorKept(s, StepOp(s, op), serial);
  }

  lemma QuietKeeps(s: State, start: Files, op: OpId)
    requires Inv(s, start) && op in s.ops && Quiet(s, op)
    ensures Inv(StepOp(s, op), start)
  {
    QuietKeepsLocks(s, op);
    QuietKeepsLog(s, op);
    LoggedKept(s, StepOp(s, op));
    QuietKeepsMirror(s, op, Serial(start, Logged(s)));
  }

  /** An operation past its checks holds the lock of every target. */
  lemma HoldsTargets(s: State, op: OpId, p: Path)
    requires LocksInv(s) && op in s.ops && (s.ops[op].phase.Checking? || s.ops[op].phase.Writing?)
    ensures p in s.ops[op].req.targets ==> p in s.locks && s.locks[p] == op
  {
    assert OpInv(s.files, s.ops[op]);
    InOrder(s.ops[op].req, p);
  }

  predicate AtCommit(s: State, op: OpId) {
    op in s.ops && s.ops[op].phase.Checking? && s.ops[op].phase.n >= |s.ops[op].req.targets|
  }

  /** At the commit point the serial files meet the preconditions. */
  lemma CommitApplicable(s: State, op: OpId, serial: Files)
    requires LocksInv(s) && Mirrors(s, serial) && AtCommit(s, op)
    ensures Applicable(serial, s.ops[op].req)
  {
    var r := s.ops[op].req;
    assert OpInv(s.files, s.ops[op]);
    forall p | p in r.targets ensures Observed(serial, p) == Look(r.pre, p) {
      HoldsTargets(s, op, p);
      assert !AwaitsWrite(s, p);
    }
  }

  lemma CommitMirrors(s: State, op: OpId, serial: Files)
    requires LocksInv(s) && Mirrors(s, serial) && AtCommit(s, op)
    ensures Mirrors(StepOp(s, op), Alone(serial, s.ops[op].req))
  {
    hide LocksInv, AwaitsWrite;
    forall p { CommitMirrorsAt(s, op, serial, p); }
  }

  lemma CommitMirrorsAt(s: State, op: OpId, serial: Files, p: Path)
    requires LocksInv(s) && Mirrors(s, serial) && AtCommit(s, op)
    ensures var s' := StepOp(s, op);
            Observed(Alone(serial, s.ops[op].req), p) ==
              if AwaitsWrite(s', p) then Look(s'.ops[s'.locks[p]].req.writes, p) else Observed(s'.files, p)
  {
    var r := s.ops[op].req;
    var s' := StepOp(s, op);
    assert r.targets[0..] == r.targets;
    AloneAt(serial, r, p);
    HoldsTargets(s, op, p);
    hide LocksInv, Alone, Look;
    if p !in r.targets {
      assert AwaitsWrite(s', p) <==> AwaitsWrite(s, p);
    }
  }

  lemma CommitKeepsRecords(s: State, op: OpId)
    requires LocksInv(s) && LogInv(s) && AtCommit(s, op)
    ensures LocksInv(StepOp(s, op)) && LogInv(StepOp(s, op))
    ensures Logged(StepOp(s, op)) == Logged(s) + [s.ops[op].req]
  {
    assert OpInv(s.files, s.ops[op]);
    PhaseKeepsLocks(s, op, Writing(0));
  }

  lemma CommitKeeps(s: State, start: Files, op: OpId)
    requires Inv(s, start) && AtCommit(s, op)
    ensures Inv(StepOp(s, op), start)
  {
    var r := s.ops[op].req;
    var s' := StepOp(s, op);
    var before := Logged(s);
    CommitKeepsRecords(s, op);
    CommitApplicable(s, op, Serial(start, before));
    LegalExtended(start, before, r);
    CommitMirrors(s, op, Serial(start, before));
    assert (before + [r])[..|before|] == before;
  }

  lemma LegalExtended(start: Files, reqs: seq<Request>, r: Request)
    requires Legal(start, reqs) && Applicable(Serial(start, reqs), r)
    ensures Legal(start, reqs + [r])
  {
    var more := reqs + [r];
    forall i | 0 <= i < |more| ensures Applicable(Serial(start, more[..i]), more[i]) {
      if i < |reqs| {
        assert more[..i] == reqs[..i];
      } else {
        assert more[..i] == reqs;
      }
    }
  }

  predicate AtWrite(s: State, op: OpId) {
    op in s.ops && s.ops[op].phase.Writing? && s.ops[op].phase.n < |s.ops[op].req.targets|
  }

  lemma WriteKeepsLocks(s: State, op: OpId)
    requires LocksInv(s) && AtWrite(s, op)
    ensures LocksInv(StepOp(s, op))
  {
    var s' := StepOp(s, op);
    forall x | x in s'.ops ensures OpInv(s'.files, s'.ops[x]) {
      WriteKeepsOp(s, op, x);
    }
    TableSeesPhase(s, op, s'.ops[op].phase);
  }

  /** A write spares the checked targets of every other operation. */
  lemma WriteKeepsOp(s: State, op: OpId, x: OpId)
    requires LocksInv(s) && AtWrite(s, op) && x in s.ops
    ensures OpInv(StepOp(s, op).files, StepOp(s, op).ops[x])
  {
    assert OpInv(s.files, s.ops[x]);
    if x != op && s.ops[x].phase.Checking? {
      var p := s.ops[op].req.targets[s.ops[op].phase.n];
      HoldsTargets(s, op, p);
      HoldsTargets(s, x, p);
    }
  }

  lemma WriteMirrors(s: State, op: OpId, serial: Files)
    requires LocksInv(s) && Mirrors(s, serial) && AtWrite(s, op)
    ensures Mirrors(StepOp(s, op), serial)
  {
    var o := s.ops[op];
    var p := o.req.targets[o.phase.n];
    var s' := StepOp(s, op);
    forall q
      ensures Observed(serial, q) ==
              if AwaitsWrite(s', q) then Look(s'.ops[s'.locks[q]].req.writes, q) else Observed(s'.files, q)
    {
      WriteAwaits(s, op, q);
    }
  }

  /** A write settles its own target and no other. */
  lemma WriteAwaits(s: State, op: OpId, q: Path)
    requires LocksInv(s) && AtWrite(s, op)
    ensures var p := s.ops[op].req.targets[s.ops[op].phase.n];
            if q == p then AwaitsWrite(s, p) && !AwaitsWrite(StepOp(s, op), p) && s.locks[p] == op
            else (AwaitsWrite(StepOp(s, op), q) <==> AwaitsWrite(s, q))
  {
    var o := s.ops[op];
    var n := o.phase.n;
    var p := o.req.targets[n];
    assert OpInv(s.files, o);
    DistinctTargets(o.req);
    HoldsTargets(s, op, p);
    assert o.req.targets[n..] == [p] + o.req.targets[n + 1..];
    assert p !in o.req.targets[n + 1..];
  }

  lemma WriteKeeps(s: State, start: Files, op: OpId)
    requires Inv(s, start) && AtWrite(s, op)
    ensures Inv(StepOp(s, op), start)
  {
    WriteKeepsLocks(s, op);
    LoggedKept(s, StepOp(s, op));
    WriteMirrors(s, op, Serial(start, Logged(s)));
  }

  lemma RefuseKeeps(s: State, start: Files, op: OpId)
    requires Inv(s, start) && op in s.ops && s.ops[op].phase.Checking?
    ensures Inv(With(s, op, s.ops[op].(phase := Releasing(false))), start)
  {
    var s' := With(s, op, s.ops[op].(phase := Releasing(false)));
    hide Serial, LocksInv, Mirrors, Legal;
    RefuseKeepsLocks(s, op);
    LoggedKept(s, s');
    hide LogInv, Logged;
    MirrorKept(s, s', Serial(start, Logged(s)));
  }

  lemma RefuseKeepsLocks(s: State, op: OpId)
    requires LocksInv(s) && op in s.ops && s.ops[op].phase.Checking?
    ensures LocksInv(With(s, op, s.ops[op].(phase := Releasing(false))))
  {
    assert OpInv(s.files, s.ops[op]);
    assert OpInv(s.files, s.ops[op].(phase := Releasing(false)));
    hide LocksInv, OpInv;
    PhaseKeepsLocks(s, op, Releasing(false));
  }

  lemma BeginKeepsLocks(s: State, op: OpId, req: Request)
    requires LocksInv(s) && op !in s.ops && WfRequest(req)
    ensures LocksInv(With(s, op, Op(req, Acquiring(0), [])))
  {
    assert OpInv(s.files, Op(req, Acquiring(0), []));
    hide OpInv;
  }

  lemma BeginKeeps(s: State, start: Files, op: OpId, req: Request)
    requires Inv(s, start) && op !in s.ops && WfRequest(req)
    ensures Inv(With(s, op, Op(req, Acquiring(0), [])), start)
  {
    var s' := With(s, op, Op(req, Acquiring(0), []));
    BeginKeepsLocks(s, op, req);
    hide LocksInv, WfRequest;
    LoggedKept(s, s');
    MirrorKept(s, s', Serial(start, Logged(s)));
  }

  lemma StepKeeps(s: State, start: Files, a: Action)
    requires Inv(s, start) && Next(s, a).Some?
    ensures Inv(Next(s, a).value, start)
  {
    match a
    case Begin(op, req) => BeginKeeps(s, start, op, req);
    case Refuse(op) => RefuseKeeps(s, start, op);
    case Step(op) =>
      if AtCommit(s, op) {
        CommitKeeps(s, start, op);
      } else if AtWrite(s, op) {
        WriteKeeps(s, start, op);
      } else {
        QuietKeeps(s, start, op);
      }
  }

  lemma {:induction false} RunInv(run: seq<State>, acts: seq<Action>, i: nat)
    requires IsRun(run, acts) && i < |run|
    ensures Inv(run[i], run[0].files)
  {
    if i == 0 {
      assert Logged(run[0]) == [];
    } else {
      RunInv(run, acts, i - 1);
      assert StepAt(run, acts, i - 1);
      StepKeeps(run[i - 1], run[0].files, acts[i - 1]);
    }
  }

  // ---------------------------------------------------------------- what follows

  /** When nothing is half written, the files are those of a legal serial run of the successes. */
  lemma Serializable(run: seq<State>, acts: seq<Action>, i: nat)
    requires IsRun(run, acts) && i < |run|
    requires forall op :: op in run[i].ops ==> !run[i].ops[op].phase.Writing?
    ensures var s := run[i];
            && Distinct(s.log)
            && (forall op :: op in s.log <==> op in s.ops && (s.ops[op].phase == Releasing(true) || s.ops[op].phase == Done(true)))
            && (forall k, p :: 0 <= k < |s.log| && p in Logged(s)[k].targets ==>
                  Observed(Serial(run[0].files, Logged(s)[..k]), p) == Look(Logged(s)[k].pre, p))
            && s.files == Serial(run[0].files, Logged(s))
  {
    RunInv(run, acts, i);
    var s := run[i];
    forall k, p | 0 <= k < |s.log| && p in Logged(s)[k].targets
      ensures Observed(Serial(run[0].files, Logged(s)[..k]), p) == Look(Logged(s)[k].pre, p)
    {
      assert Applicable(Serial(run[0].files, Logged(s)[..k]), Logged(s)[k]);
    }
    var serial := Serial(run[0].files, Logged(s));
    forall p ensures Observed(serial, p) == Observed(s.files, p) {
      assert !AwaitsWrite(s, p);
    }
    assert forall p :: p in serial <==> Observed(serial, p).Some?;
    assert forall p :: p in s.files <==> Observed(s.files, p).Some?;
    forall p | p in serial ensures serial[p] == s.files[p] {
      assert Observed(serial, p) == Observed(s.files, p);
    }
  }

  /** Two operations past their checks never share a target. */
  lemma ExclusiveTargets(run: seq<State>, acts: seq<Action>, i: nat, a: OpId, b: OpId, p: Path)
    requires IsRun(run, acts) && i < |run| && a in run[i].ops && b in run[i].ops && a != b
    requires run[i].ops[a].phase.Checking? || run[i].ops[a].phase.Writing?
    requires run[i].ops[b].phase.Checking? || run[i].ops[b].phase.Writing?
    ensures !(p in run[i].ops[a].req.targets && p in run[i].ops[b].req.targets)
  {
    RunInv(run, acts, i);
    HoldsTargets(run[i], a, p);
    HoldsTargets(run[i], b, p);
  }

  /** A finished operation, refused or not, holds no lock. */
  lemma DoneHoldsNothing(run: seq<State>, acts: seq<Action>, i: nat, op: OpId, p: Path)
    requires IsRun(run, acts) && i < |run| && op in run[i].ops && run[i].ops[op].phase.Done?
    ensures p in run[i].locks ==> run[i].locks[p] != op
  {
    RunInv(run, acts, i);
    assert OpInv(run[i].files, run[i].ops[op]);
  }

  /** A step of one operation never takes away a lock another operation holds. */
  lemma ReleasesOnlyItsOwn(run: seq<State>, acts: seq<Action>, i: nat, p: Path)
    requires IsRun(run, acts) && i < |acts| && p in run[i].locks
    requires !acts[i].Step? || acts[i].op != run[i].locks[p]
    ensures p in run[i + 1].locks && run[i + 1].locks[p] == run[i].locks[p]
  {
    RunInv(run, acts, i);
    assert StepAt(run, acts, i);
    KeepsForeignLock(run[i], acts[i], p);
  }

  lemma KeepsForeignLock(s: State, a: Action, p: Path)
    requires LocksInv(s) && Next(s, a).Some? && p in s.locks && (a.Step? ==> a.op != s.locks[p])
    ensures p in Next(s, a).value.locks && Next(s, a).value.locks[p] == s.locks[p]
  {
    hide OpInv, Distinct, Alone;
    if a.Step? && s.ops[a.op].held != [] {
      var held := s.ops[a.op].held;
      assert held[|held| - 1] in held;
    }
  }

  /** A request that names a target twice never gets past its locks. */
  lemma DuplicateIsRefused(run: seq<State>, acts: seq<Action>, i: nat, op: OpId)
    requires IsRun(run, acts) && i < |run| && op in run[i].ops && !Distinct(run[i].ops[op].req.order)
    ensures !run[i].ops[op].phase.Checking? && !run[i].ops[op].phase.Writing?
  {
    RunInv(run, acts, i);
    assert OpInv(run[i].files, run[i].ops[op]);
  }

  /** Files change only by an operation that is logged as a success, at a target it has locked. */
  lemma OnlyCommittedWrite(run: seq<State>, acts: seq<Action>, i: nat, p: Path)
    requires IsRun(run, acts) && i < |acts| && Observed(run[i + 1].files, p) != Observed(run[i].files, p)
    ensures p in run[i].locks && run[i].locks[p] in run[i].log
    ensures acts[i].Step? && acts[i].op == run[i].locks[p]
  {
    RunInv(run, acts, i);
    assert StepAt(run, acts, i);
    WriterIsLogged(run[i], acts[i], p);
  }

  lemma WriterIsLogged(s: State, a: Action, p: Path)
    requires LocksInv(s) && LogInv(s) && Next(s, a).Some? && Observed(Next(s, a).value.files, p) != Observed(s.files, p)
    ensures p in s.locks && s.locks[p] in s.log && a.Step? && a.op == s.locks[p]
  {
    assert AtWrite(s, a.op);
    HoldsTargets(s, a.op, p);
  }

  // ---------------------------------------------------------------- refusals and successes

  /**
    An operation turns back only at a lock that is taken, at a target that is not as it should be, or
    because its snapshot was refused.
   */
  lemma RefusedOnlyFor(run: seq<State>, acts: seq<Action>, i: nat, op: OpId)
    requires IsRun(run, acts) && i < |acts| && op in run[i].ops && op in run[i + 1].ops
    requires run[i + 1].ops[op].phase == Releasing(false) && run[i].ops[op].phase != Releasing(false)
    ensures var o := run[i].ops[op];
            || (o.phase.Acquiring? && o.phase.n < |o.req.order| && o.req.order[o.phase.n] in run[i].locks)
            || (o.phase.Checking? && acts[i] == Refuse(op))
            || (o.phase.Checking? && o.phase.n < |o.req.targets|
                && Observed(run[i].files, o.req.targets[o.phase.n]) != Look(o.req.pre, o.req.targets[o.phase.n]))
  {
    assert StepAt(run, acts, i);
  }

  /** It ends as it turned: a success after its last write, a refusal otherwise, and not before its locks are gone. */
  lemma EndsAsItTurned(run: seq<State>, acts: seq<Action>, i: nat, op: OpId)
    requires IsRun(run, acts) && i < |acts| && op in run[i].ops && op in run[i + 1].ops
    ensures run[i + 1].ops[op].phase.Done? && !run[i].ops[op].phase.Done? ==>
              run[i].ops[op].phase == Releasing(run[i + 1].ops[op].phase.ok) && run[i].ops[op].held == []
    ensures run[i + 1].ops[op].phase == Releasing(true) && run[i].ops[op].phase != Releasing(true) ==>
              run[i].ops[op].phase.Writing? && run[i].ops[op].phase.n >= |run[i].ops[op].req.targets|
    ensures run[i].ops[op].phase.Done? ==> run[i + 1].ops[op] == run[i].ops[op]
  {
    assert StepAt(run, acts, i);
    hide IsRun, WfRequest;
    assert run[i + 1] == Next(run[i], acts[i]).value;
    if acts[i].Step? && acts[i].op == op {
      hide Next;
    } else {
      OthersStay(run[i], acts[i], op);
      hide Next, StepOp;
    }
  }

  lemma OthersStay(s: State, a: Action, op: OpId)
    requires Next(s, a).Some? && op in s.ops && op in Next(s, a).value.ops && !(a.Step? && a.op == op)
    ensures var o, o' := s.ops[op], Next(s, a).value.ops[op];
            o' == o || (o.phase.Checking? && o'.phase == Releasing(false))
  {
    hide WfRequest;
  }

  /** `n` steps of one operation. */
  function Steps(s: State, op: OpId, n: nat): State
    requires op in s.ops
    ensures op in Steps(s, op, n).ops
    decreases n
  {
    if n == 0 then s else Steps(StepOp(s, op), op, n - 1)
  }

  /** How many steps are left, at most. */
  function StepsLeft(o: Op): nat {
    var locks, targets := |o.req.order|, |o.req.targets|;
    match o.phase
    case Acquiring(n) => if n <= locks then 2 * locks + 2 * targets + 9 - n else 0
    case Checking(n) => if n <= targets then locks + 2 * targets + 7 - n else 0
    case Writing(n) => if n <= targets then locks + targets + 5 - n else 0
    case Releasing(_) => |o.held| + 1
    case Done(_) => 0
  }

  /** The locks are those of `before` and these paths. */
  ghost predicate LocksAre(before: map<Path, OpId>, now: map<Path, OpId>, mine: seq<Path>) {
    && (forall p :: p in now <==> p in before || p in mine)
    && (forall p :: p in before ==> now[p] == before[p])
  }

  /** An operation that began in `s0` and has met nobody. */
  ghost predicate Unhindered(s0: State, s: State, op: OpId) {
    && op in s0.ops && op in s.ops && s.ops[op].req == s0.ops[op].req
    && Distinct(s0.ops[op].req.order) && (forall p :: p in s0.ops[op].req.order ==> p !in s0.locks)
    && (forall p :: p in s0.ops[op].req.targets ==> Observed(s0.files, p) == Look(s0.ops[op].req.pre, p))
    && LocksAre(s0.locks, s.locks, s.ops[op].held)
    && var o, r := s.ops[op], s0.ops[op].req;
       match o.phase
       case Acquiring(n) => n <= |r.order| && o.held == r.order[..n] && s.files == s0.files && s.log == s0.log
       case Checking(n) => n <= |r.targets| && o.held == r.order && s.files == s0.files && s.log == s0.log
       case Writing(n) => n <= |r.targets| && o.held == r.order && Written(s0.files, s.files, r, n) && s.log == s0.log + [op]
       case Releasing(ok) =>
         ok && |o.held| <= |r.order| && o.held == r.order[..|o.held|] && Written(s0.files, s.files, r, |r.targets|) && s.log == s0.log + [op]
       case Done(ok) => ok && o.held == [] && Written(s0.files, s.files, r, |r.targets|) && s.log == s0.log + [op]
  }

  /** The first `n` targets are as asked for, and every other file as it was. */
  ghost predicate Written(before: Files, now: Files, r: Request, n: nat)
    requires n <= |r.targets|
  {
    forall p :: Observed(now, p) == if p in r.targets[..n] then Look(r.writes, p) else Observed(before, p)
  }

  lemma UnhinderedStep(s0: State, s: State, op: OpId)
    requires Unhindered(s0, s, op) && !s.ops[op].phase.Done?
    ensures Unhindered(s0, StepOp(s, op), op) && StepsLeft(StepOp(s, op).ops[op]) < StepsLeft(s.ops[op])
  {
    assert op in s.ops;
    hide Unhindered, StepOp, LocksAre, Written, Distinct, StepsLeft;
    match s.ops[op].phase
    case Acquiring(_) => UnhinderedLock(s0, s, op);
    case Checking(_) => UnhinderedCheck(s0, s, op);
    case Writing(_) => UnhinderedWrite(s0, s, op);
    case Releasing(_) =>
      if s.ops[op].held != [] {
        UnhinderedUnlock(s0, s, op);
      } else {
        UnhinderedEnd(s0, s, op);
      }
  }

  lemma UnhinderedCheck(s0: State, s: State, op: OpId)
    requires Unhindered(s0, s, op) && s.ops[op].phase.Checking?
    ensures Unhindered(s0, StepOp(s, op), op) && StepsLeft(StepOp(s, op).ops[op]) < StepsLeft(s.ops[op])
  {
    var n, r := s.ops[op].phase.n, s0.ops[op].req;
    if n < |r.targets| {
      assert r.targets[n] in r.targets;
    } else {
      assert r.targets[..0] == [];
    }
    hide LocksAre, Distinct;
  }

  lemma UnhinderedEnd(s0: State, s: State, op: OpId)
    requires Unhindered(s0, s, op) && s.ops[op].phase.Releasing? && s.ops[op].held == []
    ensures Unhindered(s0, StepOp(s, op), op) && StepsLeft(StepOp(s, op).ops[op]) < StepsLeft(s.ops[op])
  {
    hide LocksAre, Distinct, Written;
  }

  lemma UnhinderedWrite(s0: State, s: State, op: OpId)
    requires Unhindered(s0, s, op) && s.ops[op].phase.Writing?
    ensures Unhindered(s0, StepOp(s, op), op) && StepsLeft(StepOp(s, op).ops[op]) < StepsLeft(s.ops[op])
  {
    var n, r := s.ops[op].phase.n, s0.ops[op].req;
    if n < |r.targets| {
      assert r.targets[..n + 1] == r.targets[..n] + [r.targets[n]];
    } else {
      assert r.order[..|r.order|] == r.order;
    }
    hide LocksAre, Distinct;
  }

  lemma UnhinderedLock(s0: State, s: State, op: OpId)
    requires Unhindered(s0, s, op) && s.ops[op].phase.Acquiring?
    ensures Unhindered(s0, StepOp(s, op), op) && StepsLeft(StepOp(s, op).ops[op]) < StepsLeft(s.ops[op])
  {
    var n, r := s.ops[op].phase.n, s0.ops[op].req;
    if n < |r.order| {
      var p := r.order[n];
      assert p in r.order && p !in r.order[..n];
      assert r.order[..n + 1] == r.order[..n] + [p];
    } else {
      assert r.order[..n] == r.order;
    }
  }

  lemma UnhinderedUnlock(s0: State, s: State, op: OpId)
    requires Unhindered(s0, s, op) && s.ops[op].phase.Releasing? && s.ops[op].held != []
    ensures Unhindered(s0, StepOp(s, op), op) && StepsLeft(StepOp(s, op).ops[op]) < StepsLeft(s.ops[op])
  {
    var held, r := s.ops[op].held, s0.ops[op].req;
    var last, rest := held[|held| - 1], held[..|held| - 1];
    assert held == rest + [last] && rest == r.order[..|rest|];
    assert last == r.order[|held| - 1] && last in r.order && last !in rest;
  }

  lemma {:induction false} UnhinderedToEnd(s0: State, s: State, op: OpId) returns (n: nat)
    requires Unhindered(s0, s, op)
    ensures op in s.ops && Unhindered(s0, Steps(s, op, n), op) && Steps(s, op, n).ops[op].phase.Done?
    decreases if op in s.ops then StepsLeft(s.ops[op]) else 0
  {
    hide Unhindered, StepOp;
    KnownOp(s0, s, op);
    if s.ops[op].phase.Done? {
      n := 0;
    } else {
      UnhinderedStep(s0, s, op);
      KnownOp(s0, StepOp(s, op), op);
      n := UnhinderedToEnd(s0, StepOp(s, op), op);
      n := n + 1;
    }
  }

  lemma KnownOp(s0: State, s: State, op: OpId)
    requires Unhindered(s0, s, op)
    ensures op in s.ops
  {
  }

  /**
    An operation whose locks are free, whose targets are all as they should be and that nobody disturbs
    succeeds: every target is as asked for, every other file and every lock as before.
   */
  lemma UndisturbedSucceeds(s: State, op: OpId) returns (n: nat)
    requires op in s.ops && s.ops[op].phase == Acquiring(0) && s.ops[op].held == []
    requires Distinct(s.ops[op].req.order) && forall p :: p in s.ops[op].req.order ==> p !in s.locks
    requires forall p :: p in s.ops[op].req.targets ==> Observed(s.files, p) == Look(s.ops[op].req.pre, p)
    ensures var s', r := Steps(s, op, n), s.ops[op].req;
            && s'.ops[op].phase == Done(true) && s'.log == s.log + [op] && s'.locks == s.locks
            && forall p :: Observed(s'.files, p) == if p in r.targets then Look(r.writes, p) else Observed(s.files, p)
  {
    assert s.ops[op].req.order[..0] == [];
    n := UnhinderedToEnd(s, s, op);
    var s', r := Steps(s, op, n), s.ops[op].req;
    assert r.targets[..|r.targets|] == r.targets;
    assert s'.locks == s.locks;
  }
}
