/** The shim's exit protocol: the shim that watches over one VM, the connections to its
    socket, and the handles that wait at their other end.

    A step is one critical section, one file or socket operation. The shim may be killed
    between any two, and any write to a socket may be cut short. */
module Shim {
  import opened Collections
  import opened ExitText
  import opened Decimals

  type ConnId = nat

  /** Where the shim is: its VM runs, is over, its exit was recorded (or could not be),
      clients are being told, all were told, the listener is closed, the shim is gone. */
  datatype Phase = Running | VmOver | Written | Telling(todo: seq<ConnId>) | Told | Unlistening | Gone

  /** Where a connection is at the shim: in the socket's queue, accepted, a client,
      accepted after the exit, or closed. */
  datatype Place = Queued | Accepted | Client | Late | Closed

  /** Where a handle is: waiting for the line, about to look into the exit file, or at
      its end with a code or an error. */
  datatype Waiting = Reading | NoLine | Ended(result: Option<int>)

  /** `received` is what arrived at the handle. A disowned handle was closed by its owner. */
  datatype Conn = Conn(place: Place, received: string, handle: Waiting, disowned: bool)

  datatype Sys = Sys(
    phase: Phase,
    code: Option<int>,
    recorded: Option<bool>,
    file: Option<string>,
    final: string,
    clients: seq<ConnId>,
    conns: map<ConnId, Conn>,
    next: ConnId)

  datatype Action =
    | VmExit(code: int)
    | WriteExit(ok: bool)
    | FinishBegin
    | Tell(n: nat)
    | FinishEnd
    | CloseListener
    | Die
    | Dial
    | Accept(c: ConnId)
    | Register(c: ConnId)
    | Reply(c: ConnId, n: nat)
    | ReadLine(c: ConnId)
    | ReadEnd(c: ConnId)
    | ReadFile(c: ConnId)
    | Disown(c: ConnId)

  predicate At(s: Sys, c: ConnId, place: Place) {
    c in s.conns && s.conns[c].place == place
  }

  predicate Listening(s: Sys) {
    !s.phase.Unlistening? && !s.phase.Gone?
  }

  predicate Enabled(s: Sys, a: Action) {
    match a
    case VmExit(code) => s.phase.Running? && IsInt(code)
    case WriteExit(_) => s.phase.VmOver?
    case FinishBegin => s.phase.Written?
    case Tell(n) => s.phase.Telling? && s.phase.todo != [] && n <= |s.final|
    case FinishEnd => s.phase == Telling([])
    case CloseListener => s.phase.Told?
    case Die => !s.phase.Gone?
    case Dial => Listening(s)
    case Accept(c) => Listening(s) && At(s, c, Queued)
    case Register(c) => !s.phase.Telling? && !s.phase.Gone? && At(s, c, Accepted)
    case Reply(c, n) => !s.phase.Gone? && At(s, c, Late) && n <= |s.final|
    case ReadLine(c) => c in s.conns && s.conns[c].handle.Reading? && HasLine(s.conns[c].received)
    case ReadEnd(c) =>
      c in s.conns && s.conns[c].handle.Reading? &&
      (s.conns[c].disowned || (s.conns[c].place == Closed && !HasLine(s.conns[c].received)))
    case ReadFile(c) => c in s.conns && s.conns[c].handle.NoLine?
    case Disown(c) => c in s.conns
  }

  function PhaseAfter(s: Sys, a: Action): Phase
    requires Enabled(s, a)
  {
    match a
    case VmExit(_) => VmOver
    case WriteExit(_) => Written
    case FinishBegin => Telling(s.clients)
    case Tell(_) => Telling(s.phase.todo[1..])
    case FinishEnd => Told
    case CloseListener => Unlistening
    case Die => Gone
    case _ => s.phase
  }

  /** The connections for which `which` holds, closed by the shim. */
  function Drop(conns: map<ConnId, Conn>, which: Conn -> bool): map<ConnId, Conn> {
    map c | c in conns :: if which(conns[c]) then conns[c].(place := Closed) else conns[c]
  }

  /** A connection that was sent `n` characters of the line and closed. */
  function Answered(conn: Conn, line: string, n: nat): Conn
    requires n <= |line|
  {
    conn.(received := line[..n], place := Closed)
  }

  function ReadFrom(file: Option<string>): Option<int> {
    match file
    case None => None
    case Some(contents) => ReadExit(contents)
  }

  function HandleAfter(s: Sys, c: ConnId, a: Action): Waiting
    requires c in s.conns
  {
    if a == ReadLine(c) then
      var code := ParseExitedLine(s.conns[c].received);
      if code.Some? then Ended(code) else NoLine
    else if a == ReadEnd(c) then NoLine
    else if a == ReadFile(c) then Ended(ReadFrom(s.file))
    else s.conns[c].handle
  }

  function ConnsAfter(s: Sys, a: Action): map<ConnId, Conn>
    requires Enabled(s, a)
  {
    match a
    case Tell(n) =>
      var c := s.phase.todo[0];
      if c in s.conns then s.conns[c := Answered(s.conns[c], s.final, n)] else s.conns
    case CloseListener => Drop(s.conns, (conn: Conn) => conn.place == Queued)
    case Die => Drop(s.conns, conn => true)
    case Dial => s.conns[s.next := Conn(Queued, "", Reading, false)]
    case Accept(c) => s.conns[c := s.conns[c].(place := Accepted)]
    case Register(c) => s.conns[c := s.conns[c].(place := if s.final != "" then Late else Client)]
    case Reply(c, n) => s.conns[c := Answered(s.conns[c], s.final, n)]
    case ReadLine(c) => s.conns[c := s.conns[c].(handle := HandleAfter(s, c, a))]
    case ReadEnd(c) => s.conns[c := s.conns[c].(handle := HandleAfter(s, c, a))]
    case ReadFile(c) => s.conns[c := s.conns[c].(handle := HandleAfter(s, c, a))]
    case Disown(c) => s.conns[c := s.conns[c].(disowned := true)]
    case _ => s.conns
  }

  function Step(s: Sys, a: Action): Sys {
    if !Enabled(s, a) then s
    else
      Sys(
        PhaseAfter(s, a),
        if a.VmExit? then Some(a.code) else s.code,
        if a.WriteExit? then Some(a.ok) else s.recorded,
        if a.WriteExit? && a.ok && s.code.Some? then Some(ExitContents(s.code.value)) else s.file,
        if a.FinishBegin? && s.code.Some? then ExitedLine(s.code.value) else s.final,
        if a.FinishEnd? then []
        else if a.Register? && s.final == "" then s.clients + [a.c] else s.clients,
        ConnsAfter(s, a),
        if a.Dial? then s.next + 1 else s.next)
  }

  function Run(s: Sys, actions: seq<Action>): Sys
    decreases |actions|
  {
    if actions == [] then s else Run(Step(s, actions[0]), actions[1..])
  }

  /** A shim that has just begun to listen; Spawn has removed an older exit file. */
  const Started := Sys(Running, None, None, None, "", [], map[], 0)

  // ---- The invariant ----

  ghost predicate ShimOk(s: Sys) {
    && (s.code.None? ==> s.phase.Running? || s.phase.Gone?)
    && (s.code.Some? ==> IsInt(s.code.value) && !s.phase.Running?)
    && (s.recorded.None? ==> s.phase.Running? || s.phase.VmOver? || s.phase.Gone?)
    && (s.recorded.Some? ==> s.code.Some? && !s.phase.Running? && !s.phase.VmOver?)
    && s.file == (if s.recorded == Some(true) then Some(ExitContents(s.code.value)) else None)
    && (s.final != "" ==> s.recorded.Some? && s.final == ExitedLine(s.code.value))
  }

  /** The shim has tried to record the exit, or is no more. */
  predicate Past(s: Sys) {
    s.recorded.Some? || s.phase.Gone?
  }

  ghost predicate ConnOk(s: Sys, conn: Conn) {
    && (conn.received != "" ==> s.code.Some? && conn.received <= ExitedLine(s.code.value))
    && (conn.place == Closed || (conn.handle.NoLine? && !conn.disowned) ==> Past(s))
    && (conn.place == Late ==> s.final != "")
    && (conn.handle.Ended? && conn.handle.result.Some? ==> s.code == conn.handle.result)
    && (conn.handle.Ended? && conn.handle.result.None? && !conn.disowned ==> Past(s) && s.recorded != Some(true))
  }

  ghost predicate Inv(s: Sys) {
    ShimOk(s) && forall c <- s.conns :: ConnOk(s, s.conns[c])
  }

  lemma StepShimOk(s: Sys, a: Action)
    requires Inv(s)
    ensures ShimOk(Step(s, a))
  {
  }

  lemma ConnStays(s: Sys, a: Action, conn: Conn)
    requires Inv(s) && ConnOk(s, conn)
    ensures ConnOk(Step(s, a), conn)
  {
  }

  lemma ReadKeeps(s: Sys, a: Action, c: ConnId)
    requires Inv(s) && Enabled(s, a) && c in s.conns && (a == ReadLine(c) || a == ReadEnd(c) || a == ReadFile(c))
    ensures ConnOk(s, s.conns[c].(handle := HandleAfter(s, c, a)))
  {
    assert ConnOk(s, s.conns[c]);
    if a.ReadLine? {
      LineIsWhole(s.code.value, s.conns[c].received);
    }
    if s.code.Some? {
      ExitReadsBack(s.code.value);
    }
  }

  predicate Reads(a: Action, c: ConnId) {
    a == ReadLine(c) || a == ReadEnd(c) || a == ReadFile(c)
  }

  /** What a step other than a read makes of a connection still fits the shim as it was
      before, or as it is after. */
  lemma MovesKeep(s: Sys, a: Action, c: ConnId, conn: Conn)
    requires Inv(s) && Enabled(s, a) && c in ConnsAfter(s, a) && conn == ConnsAfter(s, a)[c] && !Reads(a, c)
    ensures ConnOk(Step(s, a), conn)
  {
    if c in s.conns {
      ConnStays(s, a, s.conns[c]);
    }
  }

  lemma StepConn(s: Sys, a: Action, c: ConnId)
    requires Inv(s) && Enabled(s, a) && c in ConnsAfter(s, a)
    ensures ConnOk(Step(s, a), ConnsAfter(s, a)[c])
  {
    if Reads(a, c) {
      ReadKeeps(s, a, c);
      ConnStays(s, a, s.conns[c].(handle := HandleAfter(s, c, a)));
    } else {
      MovesKeep(s, a, c, ConnsAfter(s, a)[c]);
    }
  }

  lemma StepInv(s: Sys, a: Action)
    requires Inv(s)
    ensures Inv(Step(s, a))
  {
    if Enabled(s, a) {
      StepShimOk(s, a);
      forall c <- ConnsAfter(s, a) ensures ConnOk(Step(s, a), ConnsAfter(s, a)[c]) {
        StepConn(s, a, c);
      }
    }
  }

  lemma {:induction false} RunInv(s: Sys, actions: seq<Action>)
    requires Inv(s)
    ensures Inv(Run(s, actions))
    decreases |actions|
  {
    if actions != [] {
      StepInv(s, actions[0]);
      RunInv(Step(s, actions[0]), actions[1..]);
    }
  }

  // ---- What every handle learns ----

  /** Whatever is interleaved, cut short, dropped or killed: a handle its owner did not
      close ends with the VM's exit code if that was recorded, and with an error only
      if the shim died before recording it, or could not. */
  lemma HandlesAgree(actions: seq<Action>, c: ConnId)
    requires c in Run(Started, actions).conns && Run(Started, actions).conns[c].handle.Ended?
    requires !Run(Started, actions).conns[c].disowned
    ensures var s := Run(Started, actions);
            var result := s.conns[c].handle.result;
            && (s.recorded == Some(true) ==> s.code.Some? && result == s.code)
            && (result.Some? ==> result == s.code)
            && (result.None? ==> s.recorded == Some(false) || (s.recorded.None? && s.phase.Gone?))
  {
    RunInv(Started, actions);
    var s := Run(Started, actions);
    assert ConnOk(s, s.conns[c]);
    if s.recorded.Some? && !s.recorded.value {
      assert s.recorded == Some(false);
    }
  }

  // ---- The line alone is enough ----

  /** Nothing arrives before the shim closes the connection, and the handle waits till
      then; a whole line ends it with the code. */
  predicate LineOk(s: Sys, conn: Conn) {
    && (conn.place != Closed ==> conn.received == "" && (conn.handle.Reading? || conn.disowned))
    && (HasLine(conn.received) && !conn.disowned ==> conn.handle.Reading? || (s.code.Some? && conn.handle == Ended(s.code)))
  }

  predicate AllClients(s: Sys, cs: seq<ConnId>) {
    Distinct(cs) && forall c <- cs :: At(s, c, Client)
  }

  /** Whoever is still to be told is a client. */
  predicate ListsOk(s: Sys) {
    && (s.phase.Telling? ==> AllClients(s, s.phase.todo))
    && (!s.phase.Telling? && !s.phase.Gone? ==> AllClients(s, s.clients))
    && (forall c <- s.conns :: c < s.next)
  }

  ghost predicate LinesOk(s: Sys) {
    ListsOk(s) && forall c <- s.conns :: LineOk(s, s.conns[c])
  }

  lemma ReadLineOk(s: Sys, a: Action, c: ConnId)
    requires Inv(s) && Enabled(s, a) && Reads(a, c) && c in s.conns && LineOk(s, s.conns[c])
    ensures LineOk(s, s.conns[c].(handle := HandleAfter(s, c, a)))
  {
    assert ConnOk(s, s.conns[c]);
    if a.ReadLine? {
      LineIsWhole(s.code.value, s.conns[c].received);
      ExitReadsBack(s.code.value);
    }
  }

  lemma CodeStays(s: Sys, a: Action, conn: Conn)
    requires Inv(s) && Enabled(s, a) && LineOk(s, conn)
    ensures s.code.Some? ==> Step(s, a).code == s.code
    ensures LineOk(Step(s, a), conn)
  {
  }

  /** What a step other than a read makes of a connection, before the shim itself moves. */
  lemma MovedLineOk(s: Sys, a: Action, c: ConnId)
    requires LinesOk(s) && Enabled(s, a) && !Reads(a, c) && c in ConnsAfter(s, a)
    ensures LineOk(s, ConnsAfter(s, a)[c])
  {
    if c in s.conns {
      assert LineOk(s, s.conns[c]);
      if a.Tell? { assert s.phase.todo[0] in s.phase.todo; }
    }
  }

  lemma MoveLineOk(s: Sys, a: Action, c: ConnId)
    requires Inv(s) && LinesOk(s) && Enabled(s, a) && !Reads(a, c) && c in ConnsAfter(s, a)
    ensures LineOk(Step(s, a), ConnsAfter(s, a)[c])
  {
    MovedLineOk(s, a, c);
    CodeStays(s, a, ConnsAfter(s, a)[c]);
  }

  lemma StepLine(s: Sys, a: Action, c: ConnId)
    requires Inv(s) && LinesOk(s) && Enabled(s, a) && c in ConnsAfter(s, a)
    ensures LineOk(Step(s, a), ConnsAfter(s, a)[c])
  {
    if Reads(a, c) {
      ReadLineOk(s, a, c);
      CodeStays(s, a, s.conns[c].(handle := HandleAfter(s, c, a)));
    } else {
      MoveLineOk(s, a, c);
    }
  }

  lemma StepNext(s: Sys, a: Action)
    requires ListsOk(s) && Enabled(s, a)
    ensures forall c <- Step(s, a).conns :: c < Step(s, a).next
  {
  }

  /** A client stays one until it is told or the shim dies. */
  lemma ClientStays(s: Sys, a: Action, c: ConnId)
    requires ListsOk(s) && Enabled(s, a) && At(s, c, Client) && !a.Die? && !(a.Tell? && c == s.phase.todo[0])
    ensures c in ConnsAfter(s, a) && ConnsAfter(s, a)[c].place == Client
  {
  }

  lemma ClientsStay(s: Sys, a: Action, s': Sys, cs: seq<ConnId>)
    requires ListsOk(s) && Enabled(s, a) && s'.conns == ConnsAfter(s, a) && AllClients(s, cs)
    requires !a.Die? && (a.Tell? ==> s.phase.todo[0] !in cs)
    ensures AllClients(s', cs)
  {
    forall c <- cs ensures At(s', c, Client) { ClientStays(s, a, c); }
  }

  lemma TellLists(s: Sys, a: Action, s': Sys)
    requires ListsOk(s) && a.Tell? && Enabled(s, a) && s'.conns == ConnsAfter(s, a)
    ensures AllClients(s', s.phase.todo[1..])
  {
    var rest := s.phase.todo[1..];
    assert forall i :: 0 <= i < |rest| ==> rest[i] == s.phase.todo[i + 1];
    assert AllClients(s, rest) by {
      forall c <- rest ensures At(s, c, Client) { assert c in s.phase.todo; }
    }
    ClientsStay(s, a, s', rest);
  }

  lemma RegisterLists(s: Sys, a: Action, s': Sys)
    requires ListsOk(s) && a.Register? && Enabled(s, a) && s.final == "" && s'.conns == ConnsAfter(s, a)
    ensures AllClients(s', s.clients + [a.c])
  {
    ClientsStay(s, a, s', s.clients);
    assert a.c !in s.clients;
    var longer := s.clients + [a.c];
    assert forall i :: 0 <= i < |s.clients| ==> longer[i] == s.clients[i] && longer[i] in s.clients;
  }

  lemma StepLists(s: Sys, a: Action)
    requires ListsOk(s) && Enabled(s, a)
    ensures ListsOk(Step(s, a))
  {
    var s' := Step(s, a);
    StepNext(s, a);
    if a.Tell? {
      TellLists(s, a, s');
    } else if a.Register? && s.final == "" {
      RegisterLists(s, a, s');
    } else if !a.Die? && !a.FinishEnd? && !s.phase.Gone? {
      ClientsStay(s, a, s', if s.phase.Telling? then s.phase.todo else s.clients);
    }
  }

  lemma StepLines(s: Sys, a: Action)
    requires Inv(s) && LinesOk(s)
    ensures LinesOk(Step(s, a))
  {
    if Enabled(s, a) {
      StepLists(s, a);
      forall c <- ConnsAfter(s, a) ensures LineOk(Step(s, a), ConnsAfter(s, a)[c]) {
        StepLine(s, a, c);
      }
    }
  }

  lemma {:induction false} RunLines(s: Sys, actions: seq<Action>)
    requires Inv(s) && LinesOk(s)
    ensures LinesOk(Run(s, actions))
    decreases |actions|
  {
    if actions != [] {
      StepInv(s, actions[0]);
      StepLines(s, actions[0]);
      RunLines(Step(s, actions[0]), actions[1..]);
    }
  }

  /** A handle its owner did not close, and that got the whole line, ends with the VM's
      exit code, whether or not that could be recorded. */
  lemma WholeLineIsEnough(actions: seq<Action>, c: ConnId)
    requires c in Run(Started, actions).conns && Run(Started, actions).conns[c].handle.Ended?
    requires !Run(Started, actions).conns[c].disowned && HasLine(Run(Started, actions).conns[c].received)
    ensures Run(Started, actions).code.Some? && Run(Started, actions).conns[c].handle.result == Run(Started, actions).code
  {
    RunLines(Started, actions);
    assert LineOk(Run(Started, actions), Run(Started, actions).conns[c]);
  }

  /** A worker that finds no shim to connect to any more reads the same code. */
  lemma LateSpawnAgrees(actions: seq<Action>)
    ensures var s := Run(Started, actions);
            if s.recorded == Some(true) then s.code.Some? && ReadFrom(s.file) == s.code else ReadFrom(s.file) == None
  {
    RunInv(Started, actions);
    var s := Run(Started, actions);
    if s.recorded == Some(true) {
      ExitReadsBack(s.code.value);
    }
  }

  lemma RunOne(s: Sys, a: Action)
    ensures Run(s, [a]) == Step(s, a)
  {
    assert [a][1..] == [];
  }

  lemma FileEnds(s: Sys, c: ConnId) returns (steps: seq<Action>)
    requires c in s.conns && !s.conns[c].handle.Reading?
    ensures |steps| <= 1 && c in Run(s, steps).conns && Run(s, steps).conns[c].handle.Ended?
  {
    if s.conns[c].handle.Ended? {
      steps := [];
    } else {
      steps := [ReadFile(c)];
      RunOne(s, ReadFile(c));
    }
  }

  /** Once the shim has closed a connection, its handle ends within two of its own
      steps. */
  lemma HandlesEnd(s: Sys, c: ConnId) returns (steps: seq<Action>)
    requires c in s.conns && s.conns[c].place == Closed
    ensures |steps| <= 2 && c in Run(s, steps).conns && Run(s, steps).conns[c].handle.Ended?
  {
    if s.conns[c].handle.Reading? {
      var first := if HasLine(s.conns[c].received) then ReadLine(c) else ReadEnd(c);
      var rest := FileEnds(Step(s, first), c);
      steps := [first] + rest;
      assert steps[1..] == rest;
    } else {
      steps := FileEnds(s, c);
    }
  }

  ghost predicate AllClosed(s: Sys) {
    s.phase.Gone? ==> forall c <- s.conns :: s.conns[c].place == Closed
  }

  lemma {:induction false} GoneClosesAll(s: Sys, actions: seq<Action>)
    requires AllClosed(s)
    ensures AllClosed(Run(s, actions))
    decreases |actions|
  {
    if actions != [] {
      GoneClosesAll(Step(s, actions[0]), actions[1..]);
    }
  }

  ghost predicate NoneQueued(s: Sys) {
    !Listening(s) ==> forall c <- s.conns :: s.conns[c].place != Queued
  }

  lemma {:induction false} StaysUnqueued(s: Sys, actions: seq<Action>)
    requires NoneQueued(s)
    ensures NoneQueued(Run(s, actions))
    decreases |actions|
  {
    if actions != [] {
      StaysUnqueued(Step(s, actions[0]), actions[1..]);
    }
  }

  /** Once the listener is closed nobody waits in its queue: who had dialled but was not
      accepted is turned away, and finds the exit file. */
  lemma NobodyLeftDialling(actions: seq<Action>, c: ConnId)
    requires !Listening(Run(Started, actions)) && c in Run(Started, actions).conns
    ensures Run(Started, actions).conns[c].place != Queued
  {
    StaysUnqueued(Started, actions);
  }

  lemma EveryHandleEnds(actions: seq<Action>, c: ConnId) returns (steps: seq<Action>)
    requires Run(Started, actions).phase.Gone? && c in Run(Started, actions).conns
    ensures |steps| <= 2
    ensures c in Run(Run(Started, actions), steps).conns && Run(Run(Started, actions), steps).conns[c].handle.Ended?
  {
    RunInv(Started, actions);
    GoneClosesAll(Started, actions);
    steps := HandlesEnd(Run(Started, actions), c);
  }

  // ---- The server ----

  predicate CutWithin(through: seq<nat>, line: string) {
    forall i :: 0 <= i < |through| ==> through[i] <= |line|
  }

  /** The connections after each of `todo` was sent its share of the line and closed. */
  function TellAll(conns: map<ConnId, Conn>, todo: seq<ConnId>, line: string, through: seq<nat>): map<ConnId, Conn>
    requires |through| == |todo| && CutWithin(through, line)
    decreases |todo|
  {
    if todo == [] then conns
    else
      var c := todo[0];
      TellAll(if c in conns then conns[c := Answered(conns[c], line, through[0])] else conns, todo[1..], line, through[1..])
  }

  lemma {:induction false} TellAllTellsEach(conns: map<ConnId, Conn>, todo: seq<ConnId>, line: string, through: seq<nat>)
    requires |through| == |todo| && CutWithin(through, line) && Distinct(todo) && forall c <- todo :: c in conns
    ensures var told := TellAll(conns, todo, line, through);
            && told.Keys == conns.Keys
            && (forall k :: 0 <= k < |todo| ==> told[todo[k]] == Answered(conns[todo[k]], line, through[k]))
            && (forall c <- conns :: c !in todo ==> told[c] == conns[c])
    decreases |todo|
  {
    if todo != [] {
      var first := conns[todo[0] := Answered(conns[todo[0]], line, through[0])];
      TellAllTellsEach(first, todo[1..], line, through[1..]);
      var told := TellAll(conns, todo, line, through);
      forall k | 0 <= k < |todo| ensures told[todo[k]] == Answered(conns[todo[k]], line, through[k]) {
        if k > 0 {
          assert todo[k] == todo[1..][k - 1] && through[k] == through[1..][k - 1];
        }
      }
    }
  }

  function Tells(through: seq<nat>): seq<Action> {
    seq(|through|, i requires 0 <= i < |through| => Tell(through[i]))
  }

  lemma {:induction false} TellsTellAll(s: Sys, through: seq<nat>)
    requires s.phase.Telling? && |through| == |s.phase.todo| && CutWithin(through, s.final)
    ensures Run(s, Tells(through)) ==
              s.(phase := Telling([]), conns := TellAll(s.conns, s.phase.todo, s.final, through))
    decreases |through|
  {
    if through != [] {
      assert Tells(through)[1..] == Tells(through[1..]);
      TellsTellAll(Step(s, Tell(through[0])), through[1..]);
    }
  }

  /** The steps of the machine a call of Accepts stands for. */
  function AcceptSteps(final: string, c: ConnId, n: nat): seq<Action> {
    if final == "" then [Register(c)] else [Register(c), Reply(c, n)]
  }

  function FinishSteps(s: Sys, through: seq<nat>): Sys {
    Step(Run(Step(s, FinishBegin), Tells(through)), FinishEnd)
  }

  lemma FinishTellsAll(s: Sys, through: seq<nat>)
    requires s.phase.Written? && s.code.Some? && |through| == |s.clients|
    requires CutWithin(through, ExitedLine(s.code.value))
    ensures var line := ExitedLine(s.code.value);
            FinishSteps(s, through) ==
              s.(phase := Told, final := line, clients := [], conns := TellAll(s.conns, s.clients, line, through))
  {
    TellsTellAll(Step(s, FinishBegin), through);
  }

  /** The part of the shim its server holds: the two critical sections are methods, each
      proved to be a few steps of the machine, whatever the rest of the shim is. */
  class Server {
    var clients: seq<ConnId>
    var final: string
    var conns: map<ConnId, Conn>

    ghost predicate Valid()
      reads this
    {
      && (forall c <- clients :: c in conns)
      && Distinct(clients)
    }

    /** A shim whose server this is. */
    ghost function Within(rest: Sys): Sys
      reads this
    {
      rest.(clients := clients, final := final, conns := conns)
    }

    constructor ()
      ensures Valid() && Within(Started) == Started
    {
      clients, final, conns := [], "", map[];
    }

    /** What accept does with a connection: a client, until the VM is over; then it is
        told at once. `n` characters get through. */
    method Accepts(c: ConnId, n: nat)
      requires Valid() && c in conns && conns[c].place == Accepted && c !in clients && n <= |final|
      modifies this
      ensures Valid()
      ensures forall rest: Sys | !rest.phase.Telling? && !rest.phase.Gone? ::
                Within(rest) == Run(old(Within(rest)), AcceptSteps(old(final), c, n))
    {
      ghost var before, was, line := conns, clients, final;
      if final != "" {
        conns := conns[c := Answered(conns[c], final, n)];
      } else {
        conns := conns[c := conns[c].(place := Client)];
        clients := clients + [c];
      }
      forall rest: Sys | !rest.phase.Telling? && !rest.phase.Gone?
        ensures Within(rest) == Run(old(Within(rest)), AcceptSteps(line, c, n))
      {
        AcceptRuns(rest.(clients := was, final := line, conns := before), c, n);
      }
    }

    /** Tells every client and disconnects it. `through[k]` characters reach client `k`. */
    method Finish(line: string, through: seq<nat>)
      requires Valid() && |through| == |clients| && CutWithin(through, line)
      modifies this
      ensures Valid()
      ensures forall rest: Sys | rest.phase.Written? && rest.code.Some? && ExitedLine(rest.code.value) == line ::
                Within(rest.(phase := Told)) == FinishSteps(old(Within(rest)), through)
      ensures conns.Keys == old(conns).Keys
      ensures forall k :: 0 <= k < |old(clients)| ==>
                conns[old(clients)[k]] == Answered(old(conns)[old(clients)[k]], line, through[k])
      ensures forall c <- conns :: c !in old(clients) ==> conns[c] == old(conns)[c]
    {
      ghost var before, was := conns, clients;
      final := line;
      var k := 0;
      while k < |clients|
        invariant 0 <= k <= |clients| && clients == was && final == line && conns.Keys == before.Keys
        invariant TellAll(conns, clients[k..], line, through[k..]) == TellAll(before, was, line, through)
      {
        var c := clients[k];
        conns := conns[c := Answered(conns[c], line, through[k])];
        assert clients[k..][1..] == clients[k + 1..] && through[k..][1..] == through[k + 1..];
        k := k + 1;
      }
      TellAllTellsEach(before, was, line, through);
      clients := [];
      forall rest: Sys | rest.phase.Written? && rest.code.Some? && ExitedLine(rest.code.value) == line
        ensures Within(rest.(phase := Told)) == FinishSteps(old(Within(rest)), through)
      {
        FinishTellsAll(rest.(clients := was, conns := before, final := old(final)), through);
      }
    }
  }

  lemma RegisterClient(s: Sys, c: ConnId)
    requires !s.phase.Telling? && !s.phase.Gone? && At(s, c, Accepted) && s.final == ""
    ensures Step(s, Register(c)) == s.(conns := s.conns[c := s.conns[c].(place := Client)], clients := s.clients + [c])
  {
  }

  lemma RegisterLate(s: Sys, c: ConnId)
    requires !s.phase.Telling? && !s.phase.Gone? && At(s, c, Accepted) && s.final != ""
    ensures Step(s, Register(c)) == s.(conns := s.conns[c := s.conns[c].(place := Late)])
  {
  }

  lemma ReplyCloses(s: Sys, c: ConnId, n: nat)
    requires !s.phase.Gone? && At(s, c, Late) && n <= |s.final|
    ensures Step(s, Reply(c, n)) == s.(conns := s.conns[c := Answered(s.conns[c], s.final, n)])
  {
  }

  lemma LateRuns(s: Sys, c: ConnId, n: nat)
    requires !s.phase.Telling? && !s.phase.Gone? && At(s, c, Accepted) && s.final != "" && n <= |s.final|
    ensures Run(s, [Register(c), Reply(c, n)]) == s.(conns := s.conns[c := Answered(s.conns[c], s.final, n)])
  {
    var late := Step(s, Register(c));
    RegisterLate(s, c);
    ReplyCloses(late, c, n);
    RunTwo(s, Register(c), Reply(c, n));
    var conn := s.conns[c];
    assert Answered(conn.(place := Late), s.final, n) == Answered(conn, s.final, n);
  }

  lemma RunTwo(s: Sys, a: Action, b: Action)
    ensures Run(s, [a, b]) == Step(Step(s, a), b)
  {
    assert [a, b][1..] == [b];
    RunOne(Step(s, a), b);
  }

  lemma AcceptRuns(s: Sys, c: ConnId, n: nat)
    requires !s.phase.Telling? && !s.phase.Gone? && At(s, c, Accepted) && n <= |s.final|
    ensures Run(s, AcceptSteps(s.final, c, n)) ==
              if s.final == "" then s.(conns := s.conns[c := s.conns[c].(place := Client)], clients := s.clients + [c])
              else s.(conns := s.conns[c := Answered(s.conns[c], s.final, n)])
  {
    if s.final == "" {
      RegisterClient(s, c);
      RunOne(s, Register(c));
    } else {
      LateRuns(s, c, n);
    }
  }
}
