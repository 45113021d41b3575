/** Free calls of one user: a stored counter, an allowance from the configuration or the
    service metadata, and a lock that is taken only after the counter has been read. */
module FreeCalls {

  const UNLIMITED := -1

  /** What the daemon reports to an unlimited user. */
  const PLENTY := 99999999

  function Allowance(configured: int, metadata: int): int {
    if configured == 0 then metadata else configured
  }

  /** The check a call has to pass. */
  predicate Accepts(configured: int, metadata: int, made: int) {
    var allowed := Allowance(configured, metadata);
    allowed == UNLIMITED || made < allowed
  }

  /** The number of calls the state service says are left. */
  function Forecast(configured: int, metadata: int, made: int): nat {
    if configured == UNLIMITED then PLENTY
    else if configured > 0 then (if configured - made < 0 then 0 else configured - made)
    else if metadata - made < 0 then 0 else metadata - made
  }

  /** The state service computes its answer on other branches than the check. The two
      agree exactly when an allowance is configured for the address, or none is and the
      metadata do not say unlimited, or the configured value is a negative number other
      than -1 and the metadata allow no more either. */
  lemma ForecastIsExactIff(configured: int, metadata: int, made: nat)
    ensures (forall n :: made <= n ==>
               (Accepts(configured, metadata, n) <==> n - made < Forecast(configured, metadata, made)))
       <==> || configured > 0
            || (configured == 0 && metadata != UNLIMITED)
            || (configured < UNLIMITED && metadata <= made)
    // An unlimited user is shown a fixed large number.
    ensures configured == -1 ==> Forecast(configured, metadata, made) == 99999999
  {
    var k := Forecast(configured, metadata, made);
    if configured == UNLIMITED || (configured == 0 && metadata == UNLIMITED) {
      assert Accepts(configured, metadata, made + k);
    } else if configured < UNLIMITED && metadata > made {
      assert !Accepts(configured, metadata, made);
    }
  }

  // ---------------------------------------------------------------------------
  // The service, one call at a time

  /** A call that was let in: it keeps the lock and the counter it has read. */
  datatype Transaction = Transaction(key: string, made: nat)

  datatype StartResult = Started(transaction: Transaction) | Busy | Exceeded

  class UserService {
    var made: map<string, nat>        // the counter storage
    var locked: set<string>
    const configured: int
    const metadata: int

    constructor (configured: int, metadata: int)
      ensures made == map[] && locked == {} && this.configured == configured && this.metadata == metadata
    {
      this.configured, this.metadata := configured, metadata;
      made, locked := map[], {};
    }

    function Made(key: string): nat
      reads this
    {
      if key in made then made[key] else 0
    }

    /** The part of a start that follows the reading of the counter. */
    method LockAndCheck(key: string, seen: nat) returns (r: StartResult)
      modifies this
      ensures made == old(made)
      ensures r.Busy? <==> key in old(locked)
      ensures r.Started? <==> key !in old(locked) && Accepts(configured, metadata, seen)
      ensures r.Started? ==> r.transaction == Transaction(key, seen)
      ensures locked == if r.Started? then old(locked) + {key} else old(locked)
    {
      if key in locked {
        return Busy;
      }
      locked := locked + {key};
      var allowed := configured;
      if allowed == 0 {
        allowed := metadata;
      }
      if allowed != UNLIMITED {
        if seen >= allowed {
          locked := locked - {key};
          return Exceeded;
        }
      }
      r := Started(Transaction(key, seen));
    }

    /** A start during which nobody else is active. */
    method StartFreeCallUserTransaction(key: string) returns (r: StartResult)
      modifies this
      ensures made == old(made)
      ensures r.Busy? <==> key in old(locked)
      ensures r.Started? <==> key !in old(locked) && Accepts(configured, metadata, Made(key))
      ensures r.Started? ==> r.transaction == Transaction(key, Made(key))
      ensures locked == if r.Started? then old(locked) + {key} else old(locked)
    {
      var seen := Made(key);
      r := LockAndCheck(key, seen);
    }

    /** Counts the call from the value read at its start, and releases the lock whether
        or not the counter could be stored. */
    method Commit(t: Transaction, stored: bool)
      requires t.key in locked
      modifies this
      ensures made == if stored then old(made)[t.key := t.made + 1] else old(made)
      ensures locked == old(locked) - {t.key}
    {
      if stored {
        made := made[t.key := t.made + 1];
      }
      locked := locked - {t.key};
    }

    method Rollback(t: Transaction)
      requires t.key in locked
      modifies this
      ensures made == old(made) && locked == old(locked) - {t.key}
    {
      locked := locked - {t.key};
    }

    /** A user calls again and again, one call after the other; true stands for a call
        that succeeds. Exactly as many calls are counted as the forecast promised, and a
        further call would be let in exactly while fewer have succeeded. */
    method Session(key: string, outcomes: seq<bool>) returns (counted: nat)
      requires key !in locked
      requires
        || configured > 0
        || (configured == 0 && metadata != UNLIMITED)
        || (configured < UNLIMITED && metadata <= Made(key))
      modifies this
      ensures locked == old(locked)
      ensures counted == Min(Successes(outcomes), Forecast(configured, metadata, old(Made(key))))
      ensures Made(key) == old(Made(key)) + counted
      ensures forall other :: other != key ==> Made(other) == old(Made(other))
      ensures Accepts(configured, metadata, Made(key))
         <==> Successes(outcomes) < Forecast(configured, metadata, old(Made(key)))
    {
      counted := 0;
      ForecastIsExactIff(configured, metadata, Made(key));
      for i := 0 to |outcomes|
        invariant locked == old(locked)
        invariant counted == Min(Successes(outcomes[..i]), Forecast(configured, metadata, old(Made(key))))
        invariant Made(key) == old(Made(key)) + counted
        invariant forall other :: other != key ==> Made(other) == old(Made(other))
      {
        assert outcomes[..i + 1][..i] == outcomes[..i];
        var r := StartFreeCallUserTransaction(key);
        if r.Started? {
          if outcomes[i] {
            Commit(r.transaction, true);
            counted := counted + 1;
          } else {
            Rollback(r.transaction);
          }
        }
      }
      assert outcomes[..|outcomes|] == outcomes;
    }
  }

  function Min(a: nat, b: nat): nat {
    if a <= b then a else b
  }

  function Successes(outcomes: seq<bool>): nat {
    if outcomes == [] then 0
    else Successes(outcomes[..|outcomes| - 1]) + if outcomes[|outcomes| - 1] then 1 else 0
  }

  // ---------------------------------------------------------------------------
  // Interleaved calls of one user

  /** at is the number of counted calls when the counter was read. */
  datatype Phase = Idle | Seen(made: nat, at: nat) | Running(made: nat, at: nat)

  datatype State = State(
    made: nat,
    locked: bool,
    procs: map<nat, Phase>,
    counted: nat,           // history: calls whose commit was stored
    overtaken: bool)        // history: one of them had read the counter before another was stored

  datatype Label =
    | Read(p: nat)
    | Lock(p: nat)
    | Commit(p: nat, stored: bool)
    | Rollback(p: nat)

  function Next(configured: int, metadata: int, s: State, l: Label): State {
    if l.p !in s.procs then s
    else
      var ph := s.procs[l.p];
      match l
      case Read(p) => if ph == Idle then s.(procs := s.procs[p := Seen(s.made, s.counted)]) else s
      case Lock(p) =>
        if !ph.Seen? then s
        else if s.locked || !Accepts(configured, metadata, ph.made) then s.(procs := s.procs[p := Idle])
        else s.(locked := true, procs := s.procs[p := Running(ph.made, ph.at)])
      case Commit(p, stored) =>
        if !ph.Running? then s
        else if stored then
          State(ph.made + 1, false, s.procs[p := Idle], s.counted + 1, s.overtaken || ph.at < s.counted)
        else s.(locked := false, procs := s.procs[p := Idle])
      case Rollback(p) =>
        if ph.Running? then s.(locked := false, procs := s.procs[p := Idle]) else s
  }

  function Run(configured: int, metadata: int, s: State, labels: seq<Label>): State
    decreases |labels|
  {
    if labels == [] then s else Run(configured, metadata, Next(configured, metadata, s, labels[0]), labels[1..])
  }

  ghost predicate Init(s: State) {
    !s.locked && s.counted == 0 && !s.overtaken && forall p :: p in s.procs ==> s.procs[p] == Idle
  }

  ghost predicate PhaseInv(first: nat, configured: int, metadata: int, s: State, ph: Phase) {
    match ph
    case Idle => true
    case _ =>
      && ph.made <= first + ph.at && ph.at <= s.counted
      && (ph.at == s.counted ==> ph.made == s.made)
      && (ph.Running? ==> s.locked && Accepts(configured, metadata, ph.made))
  }

  ghost predicate SomeRuns(s: State) {
    exists p :: p in s.procs && s.procs[p].Running?
  }

  ghost predicate Inv(first: nat, configured: int, metadata: int, s: State) {
    && (forall p :: p in s.procs ==> PhaseInv(first, configured, metadata, s, s.procs[p]))
    && (forall p, q :: p in s.procs && q in s.procs && s.procs[p].Running? && s.procs[q].Running? ==> p == q)
    && (s.locked <==> SomeRuns(s))
    && (if s.overtaken then s.made < first + s.counted else s.made == first + s.counted)
    && (Allowance(configured, metadata) != UNLIMITED ==> s.made <= first || s.made <= Allowance(configured, metadata))
  }

  lemma StepKeeps(first: nat, configured: int, metadata: int, s: State, l: Label)
    requires Inv(first, configured, metadata, s)
    ensures Inv(first, configured, metadata, Next(configured, metadata, s, l))
  {
    var t := Next(configured, metadata, s, l);
    if l.p in s.procs {
      assert PhaseInv(first, configured, metadata, s, s.procs[l.p]);
    }
    forall p | p in t.procs ensures PhaseInv(first, configured, metadata, t, t.procs[p]) {
      assert PhaseInv(first, configured, metadata, s, s.procs[p]);
    }
    LockIsHeld(first, configured, metadata, s, l);
  }

  lemma LockIsHeld(first: nat, configured: int, metadata: int, s: State, l: Label)
    requires Inv(first, configured, metadata, s)
    ensures Next(configured, metadata, s, l).locked ==> SomeRuns(Next(configured, metadata, s, l))
  {
    var t := Next(configured, metadata, s, l);
    if t.locked {
      var r :| r in t.procs && (if s.locked then s.procs[r].Running? else r == l.p);
      assert t.procs[r].Running?;
    }
  }

  lemma {:induction false} RunKeeps(first: nat, configured: int, metadata: int, s: State, labels: seq<Label>)
    requires Inv(first, configured, metadata, s)
    ensures Inv(first, configured, metadata, Run(configured, metadata, s, labels))
    decreases |labels|
  {
    if labels != [] {
      StepKeeps(first, configured, metadata, s, labels[0]);
      RunKeeps(first, configured, metadata, Next(configured, metadata, s, labels[0]), labels[1..]);
    }
  }

  /** A call that is left alone, from reading the counter to its end. It is let in exactly
      when the lock is free and the counter it reads is accepted; success counts it, and
      nothing else changes. */
  lemma CallAlone(configured: int, metadata: int, s: State, p: nat, success: bool)
    requires p in s.procs && s.procs[p] == Idle
    ensures
      var t := Run(configured, metadata, s, [Read(p), Lock(p), if success then Commit(p, true) else Rollback(p)]);
      if !s.locked && Accepts(configured, metadata, s.made) && success
      then t == s.(made := s.made + 1, counted := s.counted + 1) else t == s
  {
    var l := [Read(p), Lock(p), if success then Commit(p, true) else Rollback(p)];
    var s1 := Next(configured, metadata, s, l[0]);
    var s2 := Next(configured, metadata, s1, l[1]);
    assert s.procs[p := Idle] == s.procs;
    assert l[1..] == [l[1], l[2]] && l[1..][1..] == [l[2]] && l[1..][1..][1..] == [];
    assert Run(configured, metadata, s, l) == Run(configured, metadata, s1, l[1..])
        == Run(configured, metadata, s2, [l[2]]) == Next(configured, metadata, s2, l[2]);
  }

  /** In every run the lock is held exactly while a call that was let in runs, and the
      counter stays within the allowance, or where it was. It has
      counted every successful call if and only if none of them had read the counter
      before another one was stored; otherwise it has lost some for good. */
  lemma CounterBoundAndDrift(configured: int, metadata: int, s: State, labels: seq<Label>)
    requires Init(s)
    ensures
      var t, allowed := Run(configured, metadata, s, labels), Allowance(configured, metadata);
      && (allowed != UNLIMITED ==> t.made <= s.made || t.made <= allowed)
      && (t.locked <==> SomeRuns(t))
      && t.made <= s.made + t.counted
      && (t.made == s.made + t.counted <==> !t.overtaken)
      && (allowed != UNLIMITED && !t.overtaken ==> t.counted == 0 || s.made + t.counted <= allowed)
  {
    RunKeeps(s.made, configured, metadata, s, labels);
  }

  // ---------------------------------------------------------------------------
  // How far the counter can be evaded

  function Readers(n: nat): seq<Label> {
    if n == 0 then [] else Readers(n - 1) + [Read(n - 1)]
  }

  function Callers(n: nat): seq<Label> {
    if n == 0 then [] else Callers(n - 1) + [Lock(n - 1), Commit(n - 1, true)]
  }

  function PhaseOf(p: nat, m: nat, done: Phase, waiting: Phase): Phase {
    if p < m then done else waiting
  }

  /** Of n processes the first m are done. */
  function Phases(n: nat, m: nat, done: Phase, waiting: Phase): map<nat, Phase> {
    map p: nat | p < n :: PhaseOf(p, m, done, waiting)
  }

  lemma {:induction false} RunConcat(configured: int, metadata: int, s: State, a: seq<Label>, b: seq<Label>)
    ensures Run(configured, metadata, s, a + b)
         == Run(configured, metadata, Run(configured, metadata, s, a), b)
    decreases |a|
  {
    if a == [] {
      assert a + b == b;
    } else {
      assert (a + b)[1..] == a[1..] + b;
      RunConcat(configured, metadata, Next(configured, metadata, s, a[0]), a[1..], b);
    }
  }

  /** The first m of n processes have read the untouched counter. */
  function Reading(n: nat, m: nat): State {
    State(0, false, Phases(n, m, Seen(0, 0), Idle), 0, false)
  }

  lemma {:induction false} ReadersRead(n: nat, m: nat)
    requires m <= n
    ensures Run(1, 0, Reading(n, 0), Readers(m)) == Reading(n, m)
  {
    if m > 0 {
      ReadersRead(n, m - 1);
      RunConcat(1, 0, Reading(n, 0), Readers(m - 1), [Read(m - 1)]);
      var s := Reading(n, m - 1);
      assert Run(1, 0, s, [Read(m - 1)]) == Next(1, 0, s, Read(m - 1));
      assert Next(1, 0, s, Read(m - 1)).procs == Reading(n, m).procs;
    }
  }

  /** The first m of them have made their call. */
  function Serving(n: nat, m: nat): State {
    State(if m == 0 then 0 else 1, false, Phases(n, m, Idle, Seen(0, 0)), m, m > 1)
  }

  lemma {:induction false} CallersCall(n: nat, m: nat)
    requires m <= n
    ensures Run(1, 0, Reading(n, n), Callers(m)) == Serving(n, m)
  {
    if m == 0 {
      assert Reading(n, n).procs == Serving(n, 0).procs;
    } else {
      CallersCall(n, m - 1);
      var l := [Lock(m - 1), Commit(m - 1, true)];
      RunConcat(1, 0, Reading(n, n), Callers(m - 1), l);
      var s := Serving(n, m - 1);
      var s1 := Next(1, 0, s, l[0]);
      assert s1.procs[m - 1] == Running(0, 0);
      assert Next(1, 0, s1, l[1]).procs == Serving(n, m).procs;
      assert l[1..] == [l[1]] && l[1..][1..] == [];
      assert Run(1, 0, s, l) == Run(1, 0, s1, l[1..]) == Run(1, 0, Next(1, 0, s1, l[1]), []);
    }
  }

  /** With an allowance of a single call, any number of calls can be served: all of them
      read the counter first and then go through the lock one after the other. */
  lemma OneFreeCallCanServeAnyNumber(n: nat)
    requires n > 0
    ensures
      var s := State(0, false, Phases(n, 0, Idle, Idle), 0, false);
      var t := Run(1, 0, s, Readers(n) + Callers(n));
      Init(s) && t.counted == n && t.made == 1
  {
    var s := State(0, false, Phases(n, 0, Idle, Idle), 0, false);
    assert s.procs == Reading(n, 0).procs;
    ReadersRead(n, n);
    CallersCall(n, n);
    RunConcat(1, 0, s, Readers(n), Callers(n));
  }
}
