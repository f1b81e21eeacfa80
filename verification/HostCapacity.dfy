/** How many sandboxes a worker host comes to hold. */
module HostCapacity {
  import opened Books
  import opened Collections
  import opened Host
  import opened HostInvariants
  import HostTheorems
  import opened Thin

  function Hosted(b: Book): nat {
    |b.services| + |b.deleting|
  }

  /** A create adds one to the sandboxes hosted, those being removed included, and never
      takes them over a capacity that limits them. */
  lemma CreateRespectsCapacity(s: Sys, id: Id)
    requires Enabled(s, CreateBegin(id))
    ensures var b' := BookAfter(s, CreateBegin(id));
            Hosted(b') == Hosted(s.book) + 1 && (b'.capacity <= 0 || Hosted(b') <= b'.capacity)
  {
  }

  lemma CallsAddNone(s: Sys, a: Action)
    requires (a.CreateEnd? || a.RemoveBegin? || a.RemoveEnd?) && Enabled(s, a) && Disjoint(s.book)
    ensures Hosted(BookAfter(s, a)) <= Hosted(s.book)
  {
    if a.CreateEnd? {
      SmallerMap(s.book.services, s.calls[a.c].id);
    } else if a.RemoveBegin? {
      RemovedKey(s.book.services, a.id);
    } else {
      SmallerSet(s.book.deleting - {s.calls[a.c].id}, s.book.deleting);
    }
  }

  /** Nothing else adds one, but an audit's claim and an adoption at start-up. */
  lemma OthersAddNone(s: Sys, a: Action)
    requires Core(s) && Enabled(s, a) && !a.CreateBegin? && !a.AuditClaim? && !a.RecoverAdopt?
    ensures Hosted(BookAfter(s, a)) <= Hosted(s.book)
  {
    if ActorAction(a) {
      ActorAddsNone(s, a);
    } else if a.CreateEnd? || a.RemoveBegin? || a.RemoveEnd? {
      CallsAddNone(s, a);
    } else if a.AuditRelease? {
      SmallerSet(s.book.deleting - {s.audit.job.value.id}, s.book.deleting);
    } else if a.CheckLiveness? {
      SameKeys(s.book.services, BookAfter(s, a).services);
    }
  }

  lemma ActorAddsNone(s: Sys, a: Action)
    requires ActorAction(a) && Enabled(s, a)
    ensures Hosted(BookAfter(s, a)) <= Hosted(s.book)
  {
    var st := HostTheorems.ActorReports(s, a);
    SameKeys(s.book.services, Reported(s.book, s.actors[a.svc].id, a.svc, st).services);
  }

  lemma SameKeys(m: map<Id, Entry>, m': map<Id, Entry>)
    requires m.Keys == m'.Keys
    ensures |m| == |m'|
  {
    assert |m| == |m.Keys| && |m'| == |m'.Keys|;
  }

  lemma RemovedKey(m: map<Id, Entry>, id: Id)
    requires id in m
    ensures |m - {id}| == |m| - 1
  {
    assert (m - {id}).Keys == m.Keys - {id};
    assert |m| == |m.Keys| && |m - {id}| == |(m - {id}).Keys|;
  }

  lemma SmallerMap(m: map<Id, Entry>, id: Id)
    ensures |m - {id}| <= |m|
  {
    if id in m {
      RemovedKey(m, id);
    } else {
      assert m - {id} == m;
    }
  }

  // ---- Over whole runs ----

  /** The sandboxes the audit has claimed and not yet released. */
  function Swept(audit: Audit): set<Id> {
    if audit.Sweeping? then audit.claimed else {}
  }

  /** Every create the run lets through meets a capacity that limits it, to `limit` at
      most. */
  predicate Limited(s: Sys, actions: seq<Action>, limit: nat)
    requires 0 < s.first <= MAX_THIN_ID
    decreases |actions|
  {
    actions == [] ||
    (&& (Enabled(s, actions[0]) && actions[0].CreateBegin? ==> 0 < s.book.capacity <= limit)
     && Limited(Step(s, actions[0]), actions[1..], limit))
  }

  /** The adoptions since the worker last started, `n` of them before this run. */
  function Adopted(s: Sys, actions: seq<Action>, n: nat): nat
    requires 0 < s.first <= MAX_THIN_ID
    decreases |actions|
  {
    if actions == [] then n
    else Adopted(Step(s, actions[0]), actions[1..], AdoptedBy(s, actions[0], n))
  }

  function AdoptedBy(s: Sys, a: Action, n: nat): nat {
    if a.Crash? then 0 else if a.RecoverAdopt? && Enabled(s, a) then n + 1 else n
  }

  function Larger(a: nat, b: nat): nat {
    if a < b then b else a
  }

  ghost predicate Bounded(s: Sys, limit: nat, n: nat) {
    && Hosted(s.book) <= Larger(limit, n) + |Swept(s.audit)|
    && (s.recovery.Recovering? ==> Hosted(s.book) <= n)
  }

  /** What this argument needs of a step. */
  predicate Follows(s: Sys, a: Action, s': Sys) {
    Enabled(s, a) && s'.book == BookAfter(s, a) && s'.audit == AuditAfter(s, a) && s'.recovery == RecoveryAfter(s, a)
  }

  lemma CreateBounded(s: Sys, a: Action, s': Sys, limit: nat, n: nat)
    requires Bounded(s, limit, n) && a.CreateBegin? && Follows(s, a, s') && 0 < s.book.capacity <= limit
    ensures Bounded(s', limit, n)
  {
    CreateRespectsCapacity(s, a.id);
  }

  lemma ClaimBounded(s: Sys, a: Action, s': Sys, limit: nat, n: nat)
    requires Core(s) && Bounded(s, limit, n) && a.AuditClaim? && Follows(s, a, s')
    ensures Bounded(s', limit, n)
  {
    var orphans := Orphans(s.book, s.audit.ids);
    assert |s.book.deleting + orphans| == |s.book.deleting| + |orphans|;
  }

  lemma ReleaseBounded(s: Sys, a: Action, s': Sys, limit: nat, n: nat)
    requires Core(s) && Bounded(s, limit, n) && a.AuditRelease? && Follows(s, a, s')
    ensures Bounded(s', limit, n)
  {
    var id := s.audit.job.value.id;
    assert id in s.audit.claimed && id in s.book.deleting;
  }

  lemma AdoptBounded(s: Sys, a: Action, s': Sys, limit: nat, n: nat)
    requires RecoveryOk(s) && Bounded(s, limit, n) && a.RecoverAdopt? && Follows(s, a, s')
    ensures Bounded(s', limit, n + 1)
  {
    assert s'.book.services - {a.id} == s.book.services;
    RemovedKey(s'.book.services, a.id);
  }

  lemma OtherBounded(s: Sys, a: Action, s': Sys, limit: nat, n: nat)
    requires Core(s) && Bounded(s, limit, n) && Follows(s, a, s')
    requires !a.CreateBegin? && !a.AuditClaim? && !a.AuditRelease? && !a.RecoverAdopt? && !a.Crash?
    ensures Bounded(s', limit, n)
  {
    OthersAddNone(s, a);
    assert Swept(s'.audit) == Swept(s.audit);
  }

  lemma CrashBounded(s: Sys, a: Action, s': Sys, limit: nat)
    requires a.Crash? && Follows(s, a, s')
    ensures Bounded(s', limit, 0)
  {
  }

  predicate AuditMarks(a: Action) {
    a.AuditClaim? || a.AuditRelease?
  }

  lemma AuditBounded(s: Sys, a: Action, s': Sys, limit: nat, n: nat)
    requires Core(s) && Bounded(s, limit, n) && Follows(s, a, s') && AuditMarks(a)
    ensures Bounded(s', limit, n)
  {
    if a.AuditClaim? { ClaimBounded(s, a, s', limit, n); } else { ReleaseBounded(s, a, s', limit, n); }
  }

  lemma StepBounded(s: Sys, a: Action, s': Sys, limit: nat, n: nat)
    requires Core(s) && Bounded(s, limit, n) && Follows(s, a, s')
    requires a.CreateBegin? ==> 0 < s.book.capacity <= limit
    ensures Bounded(s', limit, AdoptedBy(s, a, n))
  {
    if a.CreateBegin? {
      CreateBounded(s, a, s', limit, n);
    } else if a.Crash? {
      CrashBounded(s, a, s', limit);
    } else if a.RecoverAdopt? {
      AdoptBounded(s, a, s', limit, n);
    } else if AuditMarks(a) {
      AuditBounded(s, a, s', limit, n);
    } else {
      OtherBounded(s, a, s', limit, n);
    }
  }

  lemma StepKeepsBounded(s: Sys, a: Action, limit: nat, n: nat)
    requires Core(s) && Bounded(s, limit, n)
    requires Enabled(s, a) && a.CreateBegin? ==> 0 < s.book.capacity <= limit
    ensures Bounded(Step(s, a), limit, AdoptedBy(s, a, n))
  {
    if Enabled(s, a) {
      StepBounded(s, a, Step(s, a), limit, n);
    } else {
      assert !a.Crash?;
    }
  }

  lemma {:induction false} RunBounded(s: Sys, actions: seq<Action>, limit: nat, n: nat)
    requires Core(s) && Bounded(s, limit, n) && Limited(s, actions, limit)
    ensures Bounded(Run(s, actions), limit, Adopted(s, actions, n))
    decreases |actions|
  {
    if actions != [] {
      var a := actions[0];
      StepCore(s, a);
      StepKeepsBounded(s, a, limit, n);
      RunBounded(Step(s, a), actions[1..], limit, AdoptedBy(s, a, n));
    }
  }

  /** A worker hosts no more than the largest capacity its creates met, or than it adopted
      when it started if that is more, besides the sandboxes its audit is reaping. */
  lemma HostedWithinCapacity(s: Sys, actions: seq<Action>, limit: nat)
    requires Init(s) && Limited(s, actions, limit)
    ensures var s' := Run(s, actions);
            |s'.book.services| + |s'.book.deleting| <= Larger(limit, Adopted(s, actions, 0)) + |Swept(s'.audit)|
  {
    InitCore(s);
    RunBounded(s, actions, limit, 0);
  }
}
