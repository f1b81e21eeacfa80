/** The processes of one worker ID: how each gets its token, keeps it, and learns that a
    newer one has taken its place.

    A process registers while it needs to, and heartbeats otherwise. Each call reaches the
    database in one step; what the process makes of the answer is another, and the answer
    may be lost. Everything else that happens to the database is the world's. */
module Registration {
  import opened Collections
  import opened Tables
  import Cluster
  import Fencing
  import Tx = Transactions

  /** Where a process is: between calls, or with the answer of a call on its way. */
  datatype Pc = Resting | Registering(token: int) | Beating(refused: Option<Tx.Refusal>)

  /** `token` is the last token the process held, 0 if it held none. */
  datatype Proc = Proc(token: int, needsRegister: bool, pc: Pc)

  type ProcId = nat

  /** `issued` lists the tokens handed out for the worker, in order. */
  datatype Fleet = Fleet(w: WorkerId, db: Db, procs: map<ProcId, Proc>, next: ProcId, issued: seq<int>)

  datatype Move =
    | Start
    | Exit(p: ProcId)
    | CallRegister(p: ProcId, report: Report, now: Time)
    | Learn(p: ProcId)
    | CallBeat(p: ProcId, beat: Cluster.Beat, now: Time)
    | See(p: ProcId)
    | LoseAnswer(p: ProcId)
    | World(db: Db)

  predicate Rests(f: Fleet, p: ProcId) {
    p in f.procs && f.procs[p].pc.Resting?
  }

  predicate Enabled(f: Fleet, m: Move) {
    match m
    case Start => true
    case Exit(p) => p in f.procs
    case CallRegister(p, _, _) => Rests(f, p) && f.procs[p].needsRegister
    case Learn(p) => p in f.procs && f.procs[p].pc.Registering?
    case CallBeat(p, b, _) => Rests(f, p) && !f.procs[p].needsRegister && b.w == f.w && b.token == f.procs[p].token
    case See(p) => p in f.procs && f.procs[p].pc.Beating?
    case LoseAnswer(p) => p in f.procs
    case World(_) => true
  }

  /** How the database answers a heartbeat under `token`. */
  function Refused(db: Db, w: WorkerId, token: int): Option<Tx.Refusal> {
    if Tx.FencedBy(db, w, token) then None else Some(Tx.WhyRefused(db, w, token))
  }

  function IssuedTo(f: Fleet, m: Move): int
    requires m.CallRegister? && Enabled(f, m)
  {
    Tx.Registered(f.db, f.w, f.procs[m.p].token, m.report, m.now).token
  }

  function DbAfter(f: Fleet, m: Move): Db
    requires Enabled(f, m)
  {
    match m
    case CallRegister(p, report, now) => Tx.Register(f.db, f.w, f.procs[p].token, report, now)
    case CallBeat(_, b, now) => Cluster.BeatTx(f.db, b, now)
    case World(db) => db
    case _ => f.db
  }

  function ProcAfter(f: Fleet, m: Move): Proc
    requires Enabled(f, m) && !m.Start? && !m.Exit? && !m.World?
  {
    var proc := f.procs[m.p];
    match m
    case CallRegister(_, _, _) => proc.(pc := Registering(IssuedTo(f, m)))
    case Learn(_) => Proc(proc.pc.token, false, Resting)
    case CallBeat(_, _, _) => proc.(pc := Beating(Refused(f.db, f.w, proc.token)))
    case See(_) => proc.(needsRegister := proc.pc.refused == Some(Tx.Unknown), pc := Resting)
    case LoseAnswer(_) => proc.(pc := Resting)
  }

  function Step(f: Fleet, m: Move): Fleet {
    if !Enabled(f, m) then f
    else if m.Start? then f.(procs := f.procs[f.next := Proc(0, true, Resting)], next := f.next + 1)
    else if m.Exit? then f.(procs := f.procs - {m.p})
    else if m.World? then f.(db := m.db)
    else
      f.(db := DbAfter(f, m),
         procs := f.procs[m.p := ProcAfter(f, m)],
         issued := if m.CallRegister? then f.issued + [IssuedTo(f, m)] else f.issued)
  }

  function Run(f: Fleet, moves: seq<Move>): Fleet
    decreases |moves|
  {
    if moves == [] then f else Run(Step(f, moves[0]), moves[1..])
  }

  /** The worker's row, if it has one, keeps its token; it does not get one. */
  predicate Keeps(w: WorkerId, db: Db, db': Db) {
    && (w in db.workers <==> w in db'.workers)
    && (w in db.workers ==> db'.workers[w].token == db.workers[w].token)
  }

  predicate Lossless(f: Fleet, m: Move) {
    m.World? ==> Keeps(f.w, f.db, m.db)
  }

  predicate NoneLost(f: Fleet, moves: seq<Move>)
    decreases |moves|
  {
    moves == [] || (Lossless(f, moves[0]) && NoneLost(Step(f, moves[0]), moves[1..]))
  }

  /** No worker has ever registered. */
  predicate Init(f: Fleet) {
    f.w !in f.db.workers && f.procs == map[] && f.issued == []
  }

  /** Whatever else the cluster does is a step of the world that loses nothing. */
  lemma ClusterLosesNothing(s: Cluster.Sys, a: Cluster.Action, w: WorkerId)
    requires !(a.Register? && a.w == w)
    ensures Keeps(w, s.db, Cluster.DbAfter(s, a))
  {
    if w in s.db.workers {
      Fencing.NoWorkerForgotten(s, a, w);
    }
  }

  // ---- While the database is not lost ----

  function RowToken(f: Fleet): int {
    if f.w in f.db.workers then f.db.workers[f.w].token else 0
  }

  /** The token a process holds, or is about to. */
  function Held(proc: Proc): int {
    if proc.pc.Registering? then proc.pc.token else proc.token
  }

  predicate ProcOk(proc: Proc, row: int) {
    && 0 <= proc.token <= row && Held(proc) <= row
    && (proc.needsRegister <==> proc.token == 0)
    && (proc.pc.Registering? ==> proc.needsRegister && proc.pc.token >= 1)
    && (proc.pc.Beating? ==> !proc.needsRegister && proc.pc.refused != Some(Tx.Unknown))
  }

  ghost predicate Inv(f: Fleet) {
    && RowToken(f) >= 0
    && (forall p <- f.procs :: p < f.next && ProcOk(f.procs[p], RowToken(f)))
    && (forall p, q | p in f.procs && q in f.procs && p != q :: Held(f.procs[p]) == 0 || Held(f.procs[p]) != Held(f.procs[q]))
  }

  predicate Registers(f: Fleet, m: Move) {
    m.CallRegister? && Enabled(f, m)
  }

  lemma RowNeverFalls(f: Fleet, m: Move)
    requires Inv(f) && Lossless(f, m)
    ensures RowToken(Step(f, m)) == RowToken(f) + if Registers(f, m) then 1 else 0
    ensures Registers(f, m) ==> IssuedTo(f, m) == RowToken(f) + 1
  {
    if Registers(f, m) {
      assert ProcOk(f.procs[m.p], RowToken(f));
    }
  }

  /** The database only ever answers that a process is stale. */
  lemma NeverUnknown(f: Fleet, p: ProcId)
    requires Inv(f) && p in f.procs && !f.procs[p].needsRegister
    ensures Tx.WhyRefused(f.db, f.w, f.procs[p].token) == Tx.Fenced
    ensures Refused(f.db, f.w, f.procs[p].token) == if f.procs[p].token == RowToken(f) then None else Some(Tx.Fenced)
  {
    assert ProcOk(f.procs[p], RowToken(f));
  }

  lemma MoverOk(f: Fleet, m: Move)
    requires Inv(f) && Lossless(f, m) && Enabled(f, m) && !m.Start? && !m.Exit? && !m.World?
    ensures ProcOk(ProcAfter(f, m), RowToken(Step(f, m)))
    ensures Held(ProcAfter(f, m)) ==
              if m.CallRegister? then RowToken(f) + 1
              else if m.LoseAnswer? then f.procs[m.p].token
              else Held(f.procs[m.p])
  {
    assert ProcOk(f.procs[m.p], RowToken(f));
    RowNeverFalls(f, m);
    if m.CallBeat? {
      NeverUnknown(f, m.p);
    }
  }

  lemma StepInv(f: Fleet, m: Move)
    requires Inv(f) && Lossless(f, m)
    ensures Inv(Step(f, m))
  {
    RowNeverFalls(f, m);
    if Enabled(f, m) && !m.Start? && !m.Exit? && !m.World? {
      MoverOk(f, m);
    }
  }

  lemma {:induction false} RunInv(f: Fleet, moves: seq<Move>)
    requires Inv(f) && NoneLost(f, moves)
    ensures Inv(Run(f, moves))
    decreases |moves|
  {
    if moves != [] {
      StepInv(f, moves[0]);
      RunInv(Step(f, moves[0]), moves[1..]);
    }
  }

  /** A process that has its token keeps it, and never needs another. */
  lemma {:induction false} KeepsItsToken(f: Fleet, moves: seq<Move>, p: ProcId)
    requires Inv(f) && NoneLost(f, moves) && p < f.next
    requires p in f.procs ==> !f.procs[p].needsRegister
    ensures var later := Run(f, moves).procs;
            p in later ==> p in f.procs && later[p].token == f.procs[p].token && !later[p].needsRegister
    decreases |moves|
  {
    if moves != [] {
      StepInv(f, moves[0]);
      assert p in f.procs ==> ProcOk(f.procs[p], RowToken(f));
      KeepsItsToken(Step(f, moves[0]), moves[1..], p);
    }
  }

  /** In every run without loss, no two processes hold the same token, and a process that
      a newer one has superseded is out for good: it never registers again, every
      heartbeat of it is refused as stale, and nothing it sends changes the database. */
  lemma SupersededIsOut(f: Fleet, before: seq<Move>, after: seq<Move>, p: ProcId, id: Id)
    requires Init(f) && NoneLost(f, before) && NoneLost(Run(f, before), after)
    requires var then_ := Run(f, before); p in then_.procs && 0 < then_.procs[p].token < RowToken(then_)
    requires p in Run(Run(f, before), after).procs
    ensures var now := Run(Run(f, before), after);
            var token := now.procs[p].token;
            && (forall q | q in now.procs && q != p :: now.procs[q].token != token)
            && token < RowToken(now)
            && (forall report, t :: !Enabled(now, CallRegister(p, report, t)))
            && (now.procs[p].pc.Beating? ==> now.procs[p].pc.refused != Some(Tx.Unknown))
            && Refused(now.db, now.w, token) == Some(Tx.Fenced)
            && (forall b: Cluster.Beat, t :: b.w == now.w && b.token == token ==> Cluster.BeatTx(now.db, b, t) == now.db)
            && Tx.SetStatusFenced(now.db, id, now.w, token, Running, {Starting, Running}) == now.db
  {
    RunInv(f, before);
    var then_ := Run(f, before);
    RunInv(then_, after);
    KeepsItsToken(then_, after, p);
    RowOnlyRises(then_, after);
    var now := Run(then_, after);
    NeverUnknown(now, p);
    forall q | q in now.procs && q != p ensures now.procs[q].token != now.procs[p].token {
      assert ProcOk(now.procs[q], RowToken(now)) && ProcOk(now.procs[p], RowToken(now));
    }
  }

  lemma {:induction false} RowOnlyRises(f: Fleet, moves: seq<Move>)
    requires Inv(f) && NoneLost(f, moves)
    ensures RowToken(Run(f, moves)) >= RowToken(f) && Run(f, moves).w == f.w
    decreases |moves|
  {
    if moves != [] {
      RowNeverFalls(f, moves[0]);
      StepInv(f, moves[0]);
      RowOnlyRises(Step(f, moves[0]), moves[1..]);
    }
  }

  // ---- When it is ----

  /** Every registration of the run finds a row, or presents a token, that is not behind
      what was handed out before. */
  predicate NoneBehind(f: Fleet, moves: seq<Move>)
    decreases |moves|
  {
    moves == [] ||
    (&& (Registers(f, moves[0]) ==>
           forall t <- f.issued :: t <= RowToken(f) || t <= f.procs[moves[0].p].token)
     && NoneBehind(Step(f, moves[0]), moves[1..]))
  }

  lemma IssuedAbove(f: Fleet, m: Move)
    requires Registers(f, m)
    ensures (forall t <- f.issued :: t < IssuedTo(f, m)) <==>
            (forall t <- f.issued :: t <= RowToken(f) || t <= f.procs[m.p].token)
  {
  }

  lemma RisesOnce(log: seq<int>, t: int)
    requires Fencing.Increasing(log)
    ensures Fencing.Increasing(log + [t]) <==> forall x <- log :: x < t
  {
    if forall x <- log :: x < t {
      Fencing.Appended(log, t);
    } else {
      var longer := log + [t];
      var i :| 0 <= i < |log| && log[i] >= t;
      assert longer[i] >= longer[|log|];
    }
  }

  lemma {:induction false} IssuedGrows(f: Fleet, moves: seq<Move>)
    ensures f.issued <= Run(f, moves).issued
    decreases |moves|
  {
    if moves != [] {
      IssuedGrows(Step(f, moves[0]), moves[1..]);
    }
  }

  /** Over every run, losses included, each token handed out is above all those before it
      exactly when no registration came from behind them: when the database had lost no
      token, or the process had one to present that made up for it. */
  lemma {:induction false} TokensRise(f: Fleet, moves: seq<Move>)
    requires Fencing.Increasing(f.issued)
    ensures Fencing.Increasing(Run(f, moves).issued) <==> NoneBehind(f, moves)
    decreases |moves|
  {
    if moves != [] {
      var next := Step(f, moves[0]);
      if Registers(f, moves[0]) {
        IssuedAbove(f, moves[0]);
        RisesOnce(f.issued, IssuedTo(f, moves[0]));
      }
      if Fencing.Increasing(next.issued) {
        TokensRise(next, moves[1..]);
      } else {
        IssuedGrows(next, moves[1..]);
        PrefixRises(next.issued, Run(next, moves[1..]).issued);
      }
    }
  }

  lemma PrefixRises(log: seq<int>, longer: seq<int>)
    requires log <= longer
    ensures Fencing.Increasing(longer) ==> Fencing.Increasing(log)
  {
  }

  // ---- After a loss ----

  /** A process whose token the database is behind, or whose row is gone. */
  predicate Unknown(f: Fleet, p: ProcId) {
    Rests(f, p) && !f.procs[p].needsRegister && (f.w !in f.db.workers || f.db.workers[f.w].token < f.procs[p].token)
  }

  lemma LearnsOfLoss(f: Fleet, p: ProcId, b: Cluster.Beat, now: Time)
    requires Unknown(f, p) && b.w == f.w && b.token == f.procs[p].token
    ensures var g := Step(Step(f, CallBeat(p, b, now)), See(p));
            g == f.(procs := f.procs[p := Proc(f.procs[p].token, true, Resting)])
  {
  }

  lemma RegistersAnew(f: Fleet, p: ProcId, report: Report, now: Time)
    requires Rests(f, p) && f.procs[p].needsRegister
    ensures var g := Step(Step(f, CallRegister(p, report, now)), Learn(p));
            && p in g.procs && g.procs[p] == Proc(RowToken(g), false, Resting) && g.w == f.w && g.w in g.db.workers
            && RowToken(g) > f.procs[p].token && RowToken(g) > RowToken(f)
  {
  }

  /** A process the database has lost learns so by its next heartbeat, registers anew, and
      is accepted from then on, under a token above the one it held. */
  lemma LossIsMended(f: Fleet, p: ProcId, b: Cluster.Beat, report: Report, now: Time)
    requires Unknown(f, p) && b.w == f.w && b.token == f.procs[p].token
    ensures var learnt := Step(Step(f, CallBeat(p, b, now)), See(p));
            var g := Step(Step(learnt, CallRegister(p, report, now)), Learn(p));
            && p in g.procs && !g.procs[p].needsRegister && g.procs[p].token > f.procs[p].token
            && Refused(g.db, g.w, g.procs[p].token) == None
  {
    LearnsOfLoss(f, p, b, now);
    RegistersAnew(Step(Step(f, CallBeat(p, b, now)), See(p)), p, report, now);
  }

  lemma {:induction false} RunThen(f: Fleet, moves: seq<Move>, m: Move)
    ensures Run(f, moves + [m]) == Step(Run(f, moves), m)
    decreases |moves|
  {
    if moves == [] {
      assert [m][1..] == [];
    } else {
      RunThen(Step(f, moves[0]), moves[1..], m);
      assert (moves + [m])[1..] == moves[1..] + [m];
    }
  }

  /** A process that starts while the worker has no row gets token 1. */
  lemma FirstToken(f: Fleet, moves: seq<Move>, report: Report, now: Time) returns (more: seq<Move>)
    requires var g := Run(f, moves); g.w !in g.db.workers && g.next !in g.procs
    ensures var g, after := Run(f, moves), Run(f, more);
            && after.procs == g.procs[g.next := Proc(1, false, Resting)] && after.next == g.next + 1 && after.w == g.w
            && RowToken(after) == 1 && after.w in after.db.workers && after.issued == g.issued + [1]
  {
    var g := Run(f, moves);
    var p := g.next;
    more := moves + [Start];
    RunThen(f, moves, Start);
    RunThen(f, more, CallRegister(p, report, now));
    more := more + [CallRegister(p, report, now)];
    RunThen(f, more, Learn(p));
    more := more + [Learn(p)];
  }

  /** A database that lost the worker's row can hand out a token that is still held: the
      next process to start has none to present, gets the first one's, and both are
      accepted under it. */
  lemma SharedToken(f: Fleet, report: Report, now: Time) returns (moves: seq<Move>)
    requires Init(f)
    ensures var g := Run(f, moves);
            && f.next in g.procs && f.next + 1 in g.procs && g.procs[f.next].token == g.procs[f.next + 1].token == 1
            && Refused(g.db, g.w, 1) == None
    ensures !NoneBehind(f, moves)
  {
    moves := FirstToken(f, [], report, now);
    RunThen(f, moves, World(f.db));
    moves := moves + [World(f.db)];
    moves := FirstToken(f, moves, report, now);
    var issued := Run(f, moves).issued;
    assert issued[0] == issued[1];
    TokensRise(f, moves);
  }
}
