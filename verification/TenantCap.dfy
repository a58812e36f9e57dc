/** Concurrent claims. A claim runs as three separate steps: its first statement picks a tenant
    from a snapshot that may be stale and takes the tenant's advisory lock; its second statement
    counts the tenant's live leases in a fresh snapshot; its update then commits and releases the
    lock. Any other statement, of any client, may run between the three. */
module TenantCap {
  import opened Support
  import opened Jobs
  import JobRuns

  type SessionId = nat

  /** A claim in progress; the tenant's advisory lock is held throughout. */
  datatype Phase =
    | Chosen(org: Org)
    | Counted(org: Org, live: nat)

  datatype State = State(jobs: map<Id, Job>, sessions: map<SessionId, Phase>, now: Time)

  datatype Move =
    | Tick(to: Time)
    | Admit(id: Id, job: Job)
    | Statement(id: Id, event: JobRuns.Event)
    | Choose(session: SessionId, org: Org)
    | Count(session: SessionId)
    | Commit(session: SessionId, pick: Option<Id>, worker: string, token: string, sources: set<Source>)

  function LiveSet(jobs: map<Id, Job>, org: Org, now: Time): set<Id> {
    set id | id in jobs && jobs[id].org == org && Live(jobs[id], now)
  }

  predicate Locked(s: State, org: Org) {
    exists k | k in s.sessions :: s.sessions[k].org == org
  }

  /** `ck_ingestion_jobs_unlocked_state` */
  predicate LeaseColumns(j: Job) {
    Leased(j.status) || j.leaseExpiresAt.None?
  }

  /** A move that is not enabled changes nothing. The chosen tenant is unconstrained: the first snapshot promises nothing. */
  function Next(s: State, m: Move): State {
    match m
    case Tick(to) =>
      if s.now <= to then s.(now := to) else s
    case Admit(id, job) =>
      if id !in s.jobs && !Leased(job.status) && LeaseColumns(job) then s.(jobs := s.jobs[id := job]) else s
    case Statement(id, event) =>
      if id in s.jobs && !event.EClaim? then
        s.(jobs := s.jobs[id := Coalesce(JobRuns.Apply(s.jobs[id], event, s.now), s.jobs[id])])
      else s
    case Choose(session, org) =>
      if session !in s.sessions && !Locked(s, org) then s.(sessions := s.sessions[session := Chosen(org)]) else s
    case Count(session) =>
      if session in s.sessions && s.sessions[session].Chosen? then
        var org := s.sessions[session].org;
        s.(sessions := s.sessions[session := Counted(org, |LiveSet(s.jobs, org, s.now)|)])
      else s
    case Commit(session, pick, worker, token, sources) =>
      if session in s.sessions && s.sessions[session].Counted? then
        var p := s.sessions[session];
        var claims := && pick.Some? && p.live < TENANT_CAP && pick.value in s.jobs
                      && s.jobs[pick.value].org == p.org && Claimable(s.jobs[pick.value], sources, s.now);
        State(if claims then s.jobs[pick.value := Claim(s.jobs[pick.value], worker, token, s.now)] else s.jobs,
              s.sessions - {session}, s.now)
      else s
  }

  function Run(s: State, moves: seq<Move>): State
    decreases |moves|
  {
    if moves == [] then s else Run(Next(s, moves[0]), moves[1..])
  }

  /** The cap. */
  ghost predicate Capped(s: State) {
    forall org :: |LiveSet(s.jobs, org, s.now)| <= TENANT_CAP
  }

  /** What makes it inductive: one lock holder per tenant, and a count already read can only be too high. */
  ghost predicate Inv(s: State) {
    && Capped(s)
    && (forall id | id in s.jobs :: LeaseColumns(s.jobs[id]))
    && (forall a, b | a in s.sessions && b in s.sessions && a != b :: s.sessions[a].org != s.sessions[b].org)
    && (forall k | k in s.sessions && s.sessions[k].Counted? ::
          |LiveSet(s.jobs, s.sessions[k].org, s.now)| <= s.sessions[k].live)
  }

  /** No statement but a claim makes a lease live: a heartbeat renews only a live one. */
  lemma OnlyClaimsMakeLeasesLive(j: Job, e: JobRuns.Event, now: Time)
    requires !e.EClaim? && LeaseColumns(j)
    ensures var after := Coalesce(JobRuns.Apply(j, e, now), j);
            LeaseColumns(after) && after.org == j.org && (Live(after, now) ==> Live(j, now))
  {
  }

  /** Fewer live leases for every tenant keeps the invariant. */
  lemma FewerLeases(s: State, t: State)
    requires Inv(s) && t.sessions == s.sessions
    requires forall id | id in t.jobs :: LeaseColumns(t.jobs[id])
    requires forall org :: LiveSet(t.jobs, org, t.now) <= LiveSet(s.jobs, org, s.now)
    ensures Inv(t)
  {
    forall org ensures |LiveSet(t.jobs, org, t.now)| <= |LiveSet(s.jobs, org, s.now)| {
      SubsetCard(LiveSet(t.jobs, org, t.now), LiveSet(s.jobs, org, s.now));
    }
  }

  lemma StatementKeepsInv(s: State, id: Id, e: JobRuns.Event)
    requires Inv(s) && id in s.jobs && !e.EClaim?
    ensures Inv(Next(s, Statement(id, e)))
  {
    OnlyClaimsMakeLeasesLive(s.jobs[id], e, s.now);
    FewerLeases(s, Next(s, Statement(id, e)));
  }

  /** A commit that claims adds exactly its job to the live leases of its own tenant. */
  lemma CommitAddsOne(s: State, m: Move)
    requires m.Commit? && m.session in s.sessions && s.sessions[m.session].Counted?
    requires Next(s, m).jobs != s.jobs
    ensures m.pick.Some? && m.pick.value in s.jobs
    ensures var id := m.pick.value;
            && s.jobs[id].org == s.sessions[m.session].org && s.sessions[m.session].live < TENANT_CAP
            && Next(s, m).jobs == s.jobs[id := Claim(s.jobs[id], m.worker, m.token, s.now)]
            && forall org :: id !in LiveSet(s.jobs, org, s.now)
                          && LiveSet(Next(s, m).jobs, org, s.now)
                             == LiveSet(s.jobs, org, s.now) + (if org == s.jobs[id].org then {id} else {})
  {
  }

  lemma CommitKeepsInv(s: State, m: Move)
    requires Inv(s) && m.Commit?
    ensures Inv(Next(s, m))
  {
    if Next(s, m).jobs != s.jobs {
      CommitAddsOne(s, m);
    }
  }

  lemma NextKeepsInv(s: State, m: Move)
    requires Inv(s)
    ensures Inv(Next(s, m))
  {
    match m
    case Tick(_) => FewerLeases(s, Next(s, m));
    case Admit(_, _) => FewerLeases(s, Next(s, m));
    case Statement(id, e) =>
      if id in s.jobs && !e.EClaim? {
        StatementKeepsInv(s, id, e);
      }
    case Choose(_, _) =>
    case Count(_) =>
    case Commit(_, _, _, _, _) => CommitKeepsInv(s, m);
  }

  /** The tenant cap: from a state with no claim in progress and no tenant over the cap, whatever the
      interleaving of any number of claims with any other statements, no tenant ever has more than
      four live leases. */
  lemma {:induction false} CapHolds(s: State, moves: seq<Move>)
    requires Inv(s)
    ensures Capped(Run(s, moves)) && Inv(Run(s, moves))
    decreases |moves|
  {
    if moves != [] {
      NextKeepsInv(s, moves[0]);
      CapHolds(Next(s, moves[0]), moves[1..]);
    }
  }

  lemma CapHoldsFromRest(s: State, moves: seq<Move>)
    requires s.sessions == map[] && Capped(s) && forall id | id in s.jobs :: LeaseColumns(s.jobs[id])
    ensures Capped(Run(s, moves))
  {
    CapHolds(s, moves);
  }

  /** The cap on the columns: at no point of such a run are more than four jobs of one tenant processing or cancel-requested with an expiry
      still ahead. */
  lemma NeverMoreThanFour(s: State, moves: seq<Move>, org: Org)
    requires s.sessions == map[] && Capped(s) && forall id | id in s.jobs :: LeaseColumns(s.jobs[id])
    ensures var t := Run(s, moves);
            |set id | id in t.jobs && t.jobs[id].org == org && (t.jobs[id].status.Processing? || t.jobs[id].status.CancelRequested?)
                   && t.jobs[id].leaseExpiresAt.Some? && t.jobs[id].leaseExpiresAt.value > t.now| <= 4
  {
    CapHoldsFromRest(s, moves);
    var t := Run(s, moves);
    assert LiveSet(t.jobs, org, t.now)
        == set id | id in t.jobs && t.jobs[id].org == org && (t.jobs[id].status.Processing? || t.jobs[id].status.CancelRequested?)
                 && t.jobs[id].leaseExpiresAt.Some? && t.jobs[id].leaseExpiresAt.value > t.now;
  }

  /** Why the lock is needed: two claims that had both counted three live leases of one tenant, a state
      the lock excludes, would take it to five. */
  lemma WithoutTheLockTheCapFails(s: State, a: SessionId, b: SessionId, org: Org, x: Id, y: Id,
                                  worker: string, first: string, second: string, sources: set<Source>)
    requires a in s.sessions && b in s.sessions && a != b && x != y
    requires s.sessions[a] == Counted(org, 3) && s.sessions[b] == Counted(org, 3)
    requires |LiveSet(s.jobs, org, s.now)| == 3
    requires x in s.jobs && s.jobs[x].org == org && Claimable(s.jobs[x], sources, s.now)
    requires y in s.jobs && s.jobs[y].org == org && Claimable(s.jobs[y], sources, s.now)
    ensures var t := Run(s, [Commit(a, Some(x), worker, first, sources), Commit(b, Some(y), worker, second, sources)]);
            |LiveSet(t.jobs, org, t.now)| == 5
  {
    var m1 := Commit(a, Some(x), worker, first, sources);
    var m2 := Commit(b, Some(y), worker, second, sources);
    var s1 := Next(s, m1);
    assert s1.jobs[x].status.Processing?;
    CommitAddsOne(s, m1);
    var s2 := Next(s1, m2);
    assert s2.jobs[y].status.Processing?;
    CommitAddsOne(s1, m2);
    assert [m1, m2][1..] == [m2] && [m2][1..] == [];
    assert Run(s, [m1, m2]) == Run(s1, [m2]) == Run(s2, []) == s2;
  }
}
