/** Whole histories of a release host: any operations, any failures, any kills. */
module DeployRuns {
  import opened Support
  import opened Tags
  import opened Deploy

  datatype Act = Act(request: Request, world: World)

  function Do(h: Host, a: Act): Host {
    Perform(h, a.request, a.world).host
  }

  function Run(h: Host, acts: seq<Act>): Host {
    if acts == [] then h else Do(Run(h, acts[..|acts| - 1]), acts[|acts| - 1])
  }

  /** The host before act `k` of a run. */
  function Before(h: Host, acts: seq<Act>, k: nat): Host
    requires k <= |acts|
  {
    Run(h, acts[..k])
  }

  predicate LeadsIn(h: Host, link: Option<Target>) {
    link.Some? ==> link.value.Release? && link.value.tag in h.releases
  }

  /** Every directory holds the release it is named after. */
  predicate Directories(releases: map<string, Content>) {
    forall t | t in releases :: Readable(releases[t]) && releases[t].value.tag == t
  }

  /** Links lead to releases, and an abandoned copy is no release. */
  predicate Links(h: Host) {
    && (forall t | t in h.staging :: t !in h.releases)
    && LeadsIn(h, h.current) && LeadsIn(h, h.previous) && (h.previous.Some? ==> h.current.Some?)
  }

  predicate Inv(h: Host) {
    Directories(h.releases) && Links(h)
  }

  // ---- one act, stage by stage ----------------------------------------------------------------------

  /** The schema check and the start passed. */
  predicate Up(r: Request, w: World) {
    w.images && !r.operation.Migrate? && w.preflight.Done? && w.startup.Done?
  }

  /** Two hosts that differ only in what serves and what is logged. */
  predicate SameFiles(a: Host, b: Host) {
    a.releases == b.releases && a.staging == b.staging && a.current == b.current && a.previous == b.previous
  }

  lemma OperateEffect(h: Host, r: Request, m: Manifest, w: World)
    ensures var after := Operate(h, r, m, w);
            if Up(r, w) then after == Relink(h, r, m, w)
            else && SameFiles(after.host, h) && h.history <= after.host.history
                 && (r.operation.Migrate? || after.why.Some?)
                 && (r.operation.Migrate? || !w.preflight.Done? ==> after.host.serving == h.serving)
  {
  }

  lemma RelinkEffect(h: Host, r: Request, m: Manifest, w: World)
    requires Links(h) && m.tag in h.releases
    ensures var after := Relink(h, r, m, w).host;
            && after.releases == h.releases && Links(after) && h.history <= after.history
            && after.serving == Some(m.tag)
            && after.current == (if w.linkCurrent && (w.linkPrevious || h.current.None? || h.current == Some(Release(m.tag)))
                                 then Some(Release(m.tag)) else h.current)
            && after.previous == (if w.linkPrevious && h.current.Some? && h.current != Some(Release(m.tag)) then h.current else h.previous)
  {
  }

  /** The act passes its checks and operates on this release. */
  predicate Operates(h: Host, a: Act) {
    && a.world.settings && Readable(a.request.bundle)
    && var m := a.request.bundle.value;
       var placed := Place(h, m, a.world.copy);
       placed.why.None? && Guard(placed.host, a.request, m).None?
  }

  /** The host the act operates on. */
  function Prepared(h: Host, a: Act): Host {
    if a.world.settings && Readable(a.request.bundle) then Place(h, a.request.bundle.value, a.world.copy).host else h
  }

  lemma ActStages(h: Host, a: Act)
    ensures if Operates(h, a) then Perform(h, a.request, a.world) == Operate(Prepared(h, a), a.request, a.request.bundle.value, a.world)
            else Perform(h, a.request, a.world).host == Prepared(h, a) && Perform(h, a.request, a.world).why.Some?
  {
  }

  lemma PreparedEffect(h: Host, a: Act)
    requires Links(h)
    ensures var p := Prepared(h, a);
            && Links(p) && p.current == h.current && p.previous == h.previous && p.serving == h.serving && p.history == h.history
            && (forall t | t in h.releases :: t in p.releases && p.releases[t] == h.releases[t])
            && (Directories(h.releases) ==> Directories(p.releases))
            && (Operates(h, a) ==> a.request.bundle.value.tag in p.releases)
  {
  }

  /** The files after an act: the prepared ones, unless its release came up and the links were replaced. */
  predicate Replaced(h: Host, a: Act) {
    Operates(h, a) && Up(a.request, a.world)
  }

  lemma StepEffect(h: Host, a: Act)
    requires Links(h)
    ensures var p := Prepared(h, a);
            var next := Do(h, a);
            && Links(next) && next.releases == p.releases && h.history <= next.history
            && (if Replaced(h, a) then Perform(h, a.request, a.world) == Relink(p, a.request, a.request.bundle.value, a.world)
                else && SameFiles(next, p)
                     && (a.request.operation.Migrate? || Perform(h, a.request, a.world).why.Some?)
                     && (a.request.operation.Migrate? || !a.world.preflight.Done? ==> next.serving == h.serving))
  {
    ActStages(h, a);
    PreparedEffect(h, a);
    if Operates(h, a) {
      OperateEffect(Prepared(h, a), a.request, a.request.bundle.value, a.world);
      RelinkEffect(Prepared(h, a), a.request, a.request.bundle.value, a.world);
    }
  }

  lemma StepKeepsInv(h: Host, a: Act)
    requires Inv(h)
    ensures Inv(Do(h, a))
  {
    StepEffect(h, a);
    PreparedEffect(h, a);
  }

  lemma {:induction false} RunKeepsInv(h: Host, acts: seq<Act>)
    requires Inv(h)
    ensures Inv(Run(h, acts))
  {
    if acts != [] {
      RunKeepsInv(h, acts[..|acts| - 1]);
      StepKeepsInv(Run(h, acts[..|acts| - 1]), acts[|acts| - 1]);
    }
  }

  // ---- releases are immutable ----------------------------------------------------------------------

  /** Over any run, a release directory is never changed or removed once it exists, and the log only grows. */
  lemma {:induction false} ReleasesNeverChange(h: Host, acts: seq<Act>, t: string)
    requires Inv(h) && t in h.releases
    ensures t in Run(h, acts).releases && Run(h, acts).releases[t] == h.releases[t] && h.history <= Run(h, acts).history
  {
    if acts != [] {
      var before := Run(h, acts[..|acts| - 1]);
      ReleasesNeverChange(h, acts[..|acts| - 1], t);
      RunKeepsInv(h, acts[..|acts| - 1]);
      StepEffect(before, acts[|acts| - 1]);
      PreparedEffect(before, acts[|acts| - 1]);
    }
  }

  // ---- what moves `current` --------------------------------------------------------------------------

  /** The act brought up release `t`: its schema check and its start both passed. */
  predicate Started(a: Act, t: string) {
    && a.request.bundle.Some? && a.request.bundle.value.tag == t
    && a.world.preflight.Done? && a.world.startup.Done? && !a.request.operation.Migrate?
  }

  /** One act: what a change of `current` presupposes and what it leaves. */
  lemma StepMovesCurrent(h: Host, a: Act)
    requires Inv(h) && Do(h, a).current != h.current
    ensures a.request.bundle.Some?
    ensures var t := a.request.bundle.value.tag;
            var next := Do(h, a);
            && Started(a, t) && Perform(h, a.request, a.world).why.None?
            && next.current == Some(Release(t)) && next.serving == Some(t)
            && next.previous == h.current
            && next.history == h.history + [Entry(a.request.operation, t, HealthyRelease)]
  {
    StepEffect(h, a);
    PreparedEffect(h, a);
    RelinkEffect(Prepared(h, a), a.request, a.request.bundle.value, a.world);
  }

  /** Over any run, `current` is either where it was or on a release that some act of the run started successfully. */
  lemma {:induction false} CurrentWasStarted(h: Host, acts: seq<Act>)
    requires Inv(h)
    ensures Run(h, acts).current == h.current
         || exists k | 0 <= k < |acts| :: acts[k].request.bundle.Some? && Started(acts[k], acts[k].request.bundle.value.tag)
                                       && Run(h, acts).current == Some(Release(acts[k].request.bundle.value.tag))
  {
    if acts != [] {
      var n := |acts| - 1;
      var before := acts[..n];
      CurrentWasStarted(h, before);
      RunKeepsInv(h, before);
      if Run(h, acts).current != Run(h, before).current {
        StepMovesCurrent(Run(h, before), acts[n]);
      } else if Run(h, before).current != h.current {
        var k :| 0 <= k < n && before[k].request.bundle.Some? && Started(before[k], before[k].request.bundle.value.tag)
              && Run(h, before).current == Some(Release(before[k].request.bundle.value.tag));
        assert acts[k] == before[k];
      }
    }
  }

  /** An operation that does not start its release leaves both links alone, and a migration or a failed schema check also
      leaves the services alone. */
  lemma FailedStartKeepsLinks(h: Host, a: Act)
    requires Inv(h) && !Up(a.request, a.world)
    ensures Do(h, a).current == h.current && Do(h, a).previous == h.previous
    ensures a.request.operation.Migrate? || !a.world.preflight.Done? ==> Do(h, a).serving == h.serving
    ensures !a.request.operation.Migrate? ==> Perform(h, a.request, a.world).why.Some?
  {
    StepEffect(h, a);
    PreparedEffect(h, a);
  }

  /** After a start that raised, the old release serves again if and only if it was recovered: its schema is the new one's
      and both its checks passed. */
  lemma RecoveryServesTheOld(h: Host, r: Request, m: Manifest, w: World)
    requires Inv(h) && w.images && !r.operation.Migrate? && w.preflight.Done? && w.startup.Raised?
    ensures var after := Operate(h, r, m, w).host;
            && (after.serving.Some? ==> h.current == Some(Release(after.serving.value)))
            && (after.serving.Some? <==>
                  && h.current.Some? && h.releases[h.current.value.tag].value.migrations == m.migrations
                  && w.recheck.Done? && w.restart.Done?)
            && (after.serving.Some? <==> after.history[|after.history| - 1].status.Recovered?)
  {
  }

  // ---- versions ------------------------------------------------------------------------------------------

  /** The first link leads to a release that is not older than the one of the second. */
  ghost predicate AtLeast(a: Option<Target>, b: Option<Target>) {
    b.Some? ==>
      && a.Some? && a.value.Release? && b.value.Release? && IsTag(a.value.tag) && IsTag(b.value.tag)
      && !Older(a.value.tag, b.value.tag)
  }

  /** The second link leads to an older release than the first. */
  ghost predicate Above(a: Option<Target>, b: Option<Target>) {
    a.Some? && b.Some? && a.value.Release? && b.value.Release? && IsTag(a.value.tag) && IsTag(b.value.tag)
    && Older(b.value.tag, a.value.tag)
  }

  lemma GuardOrdersVersions(h: Host, r: Request, m: Manifest)
    requires Inv(h) && IsTag(m.tag) && Guard(h, r, m).None?
    ensures r.operation.Deploy? ==> AtLeast(Some(Release(m.tag)), h.current)
    ensures r.operation.Rollback? ==> Above(h.current, Some(Release(m.tag)))
  {
    if h.current.Some? {
      assert Readable(h.releases[h.current.value.tag]);
      OlderIsLower(m.tag, h.current.value.tag);
    }
  }

  lemma AtLeastItself(h: Host)
    requires Inv(h)
    ensures AtLeast(h.current, h.current)
  {
    if h.current.Some? {
      assert Readable(h.releases[h.current.value.tag]);
      OlderIsLower(h.current.value.tag, h.current.value.tag);
    }
  }

  lemma AboveIsAtLeast(a: Option<Target>, b: Option<Target>)
    requires Above(a, b)
    ensures AtLeast(a, b)
  {
    OlderIsLower(a.value.tag, b.value.tag);
    OlderIsLower(b.value.tag, a.value.tag);
  }

  /** One act: nothing but a rollback lowers the version, and a rollback that completes strictly lowers it. */
  lemma StepMovesVersion(h: Host, a: Act)
    requires Inv(h)
    ensures !a.request.operation.Rollback? ==> AtLeast(Do(h, a).current, h.current)
    ensures a.request.operation.Rollback? && Perform(h, a.request, a.world).why.None? ==> Above(h.current, Do(h, a).current)
    ensures a.request.operation.Rollback? ==> AtLeast(h.current, Do(h, a).current)
  {
    StepCurrent(h, a);
    AtLeastItself(h);
    if Replaced(h, a) {
      ReplacedOrders(h, a);
      if a.request.operation.Rollback? {
        AboveIsAtLeast(h.current, Some(Release(a.request.bundle.value.tag)));
      }
    }
  }

  lemma StepCurrent(h: Host, a: Act)
    requires Inv(h)
    ensures var next := Do(h, a).current;
            && (next == h.current || (Replaced(h, a) && next == Some(Release(a.request.bundle.value.tag))))
            && (Perform(h, a.request, a.world).why.None? && !a.request.operation.Migrate? ==>
                  Replaced(h, a) && next == Some(Release(a.request.bundle.value.tag)))
  {
    StepEffect(h, a);
    PreparedEffect(h, a);
    if Replaced(h, a) {
      RelinkEffect(Prepared(h, a), a.request, a.request.bundle.value, a.world);
      CompletedIsCurrent(Prepared(h, a), a.request, a.request.bundle.value, a.world);
    }
  }

  lemma CompletedIsCurrent(h: Host, r: Request, m: Manifest, w: World)
    ensures Relink(h, r, m, w).why.None? ==> Relink(h, r, m, w).host.current == Some(Release(m.tag))
  {
  }

  lemma ReplacedOrders(h: Host, a: Act)
    requires Inv(h) && Replaced(h, a)
    ensures var new' := Some(Release(a.request.bundle.value.tag));
            && (a.request.operation.Deploy? ==> AtLeast(new', h.current))
            && (a.request.operation.Rollback? ==> Above(h.current, new'))
  {
    PreparedEffect(h, a);
    GuardOrdersVersions(Prepared(h, a), a.request, a.request.bundle.value);
  }

  lemma AtLeastIsTransitive(a: Option<Target>, b: Option<Target>, c: Option<Target>)
    requires AtLeast(a, b) && AtLeast(b, c)
    ensures AtLeast(a, c)
  {
    if c.Some? {
      OlderIsLower(a.value.tag, b.value.tag);
      OlderIsLower(b.value.tag, c.value.tag);
      OlderIsLower(a.value.tag, c.value.tag);
    }
  }

  /** Over any run without rollbacks, whatever fails, the current version never goes down. */
  lemma {:induction false} DeploysNeverLower(h: Host, acts: seq<Act>)
    requires Inv(h) && forall k | 0 <= k < |acts| :: !acts[k].request.operation.Rollback?
    ensures AtLeast(Run(h, acts).current, h.current)
  {
    if acts == [] {
      AtLeastItself(h);
    } else {
      var before := Run(h, acts[..|acts| - 1]);
      DeploysNeverLower(h, acts[..|acts| - 1]);
      RunKeepsInv(h, acts[..|acts| - 1]);
      StepMovesVersion(before, acts[|acts| - 1]);
      AtLeastIsTransitive(Do(before, acts[|acts| - 1]).current, before.current, h.current);
    }
  }

  // ---- `previous` is another release ------------------------------------------------------------------------

  /** The act replaces `previous`: its release came up and another one was current. */
  predicate ReplacesPrevious(h: Host, a: Act) {
    Replaced(h, a) && h.current.Some? && h.current != Some(Release(a.request.bundle.value.tag)) && a.world.linkPrevious
  }

  /** It dies between the two links. */
  predicate CutBetweenLinks(h: Host, a: Act) {
    ReplacesPrevious(h, a) && !a.world.linkCurrent
  }

  /** Rolling back would find the release that is already current. */
  predicate Twin(h: Host) {
    h.previous.Some? && h.previous == h.current
  }

  lemma StepTwin(h: Host, a: Act)
    requires Inv(h)
    ensures Twin(Do(h, a)) <==> CutBetweenLinks(h, a) || (!ReplacesPrevious(h, a) && Twin(h))
  {
    StepEffect(h, a);
    PreparedEffect(h, a);
    if Replaced(h, a) {
      RelinkEffect(Prepared(h, a), a.request, a.request.bundle.value, a.world);
    }
  }

  predicate CutAt(h: Host, acts: seq<Act>, k: nat) {
    && k < |acts| && CutBetweenLinks(Before(h, acts, k), acts[k])
    && forall j | k < j < |acts| :: !ReplacesPrevious(Before(h, acts, j), acts[j])
  }

  lemma SameBefore(h: Host, acts: seq<Act>, n: nat, k: nat)
    requires k <= n <= |acts|
    ensures Before(h, acts[..n], k) == Before(h, acts, k)
  {
    assert acts[..n][..k] == acts[..k];
  }

  lemma CutStays(h: Host, acts: seq<Act>, k: nat)
    requires acts != [] && k < |acts| - 1
    ensures CutAt(h, acts, k) <==> CutAt(h, acts[..|acts| - 1], k) && !ReplacesPrevious(Run(h, acts[..|acts| - 1]), acts[|acts| - 1])
  {
    var n := |acts| - 1;
    forall j | 0 <= j < n ensures ReplacesPrevious(Before(h, acts[..n], j), acts[..n][j]) == ReplacesPrevious(Before(h, acts, j), acts[j]) {
      SameBefore(h, acts, n, j);
    }
    SameBefore(h, acts, n, k);
    assert Before(h, acts, n) == Run(h, acts[..n]) && acts[..n][k] == acts[k];
  }

  /** Exactly when `previous` is the current release: on any run, if and only if the last act that replaced `previous` was cut
      before it replaced `current`. So `previous` differs from `current` after every run in which no act was cut there. */
  lemma {:induction false} PreviousIsAnotherRelease(h: Host, acts: seq<Act>)
    requires Inv(h) && !Twin(h)
    ensures Twin(Run(h, acts)) <==> exists k: nat | k < |acts| :: CutAt(h, acts, k)
  {
    if acts != [] {
      var n := |acts| - 1;
      var before := Run(h, acts[..n]);
      PreviousIsAnotherRelease(h, acts[..n]);
      RunKeepsInv(h, acts[..n]);
      StepTwin(before, acts[n]);
      assert Before(h, acts, n) == before;
      if Twin(Run(h, acts)) {
        if CutBetweenLinks(before, acts[n]) {
          assert CutAt(h, acts, n);
        } else {
          var k: nat :| k < n && CutAt(h, acts[..n], k);
          CutStays(h, acts, k);
        }
      }
      if k: nat :| k < |acts| && CutAt(h, acts, k) {
        if k < n {
          CutStays(h, acts, k);
        }
      }
    }
  }

  /** Completing is not enough to repair it: deploying the current release again completes and leaves both links on it. */
  lemma RedeployKeepsTwin(h: Host, a: Act)
    requires Inv(h) && Twin(h) && a.request.bundle.Some? && h.current == Some(Release(a.request.bundle.value.tag))
    ensures Twin(Do(h, a))
  {
    StepTwin(h, a);
  }

  // ---- abandoned copies --------------------------------------------------------------------------------------

  /** The act dies while copying the files of a release that does not exist yet. */
  predicate CutWhileCopying(h: Host, a: Act, t: string) {
    && a.world.settings && Readable(a.request.bundle) && a.request.bundle.value.tag == t
    && t !in h.releases && t !in h.staging && a.world.copy.Interrupted?
  }

  lemma StepStaging(h: Host, a: Act, t: string)
    requires Inv(h)
    ensures t in Do(h, a).staging <==> t in h.staging || CutWhileCopying(h, a, t)
  {
    StepEffect(h, a);
    StagingAfterStep(h, a);
    PreparedStaging(h, a, t);
  }

  lemma StagingAfterStep(h: Host, a: Act)
    requires Links(h)
    ensures Do(h, a).staging == Prepared(h, a).staging
  {
    StepEffect(h, a);
    if Replaced(h, a) {
      RelinkStaging(Prepared(h, a), a.request, a.request.bundle.value, a.world);
    }
  }

  lemma RelinkStaging(h: Host, r: Request, m: Manifest, w: World)
    ensures Relink(h, r, m, w).host.staging == h.staging
  {
  }

  lemma PreparedStaging(h: Host, a: Act, t: string)
    requires Links(h)
    ensures t in Prepared(h, a).staging <==> t in h.staging || CutWhileCopying(h, a, t)
  {
  }

  lemma {:induction false} StagingStays(h: Host, acts: seq<Act>, t: string)
    requires Inv(h) && t in h.staging
    ensures t in Run(h, acts).staging && t !in Run(h, acts).releases
  {
    RunKeepsInv(h, acts);
    if acts != [] {
      RunKeepsInv(h, acts[..|acts| - 1]);
      StagingStays(h, acts[..|acts| - 1], t);
      StepStaging(Run(h, acts[..|acts| - 1]), acts[|acts| - 1], t);
    }
  }

  /** One copy cut short makes its tag unusable for good: after any further acts the release does not exist and every
      operation on it is refused. */
  lemma AbandonedTagIsLost(h: Host, acts: seq<Act>, a: Act, t: string)
    requires Inv(h) && t in h.staging && a.request.bundle.Some? && a.request.bundle.value.tag == t
    ensures Perform(Run(h, acts), a.request, a.world).why.Some? && Do(Run(h, acts), a) == Run(h, acts)
  {
    StagingStays(h, acts, t);
  }

  /** And nothing else does: on any run, a tag is abandoned if and only if it was before or some act was cut while copying it. */
  lemma {:induction false} AbandonedExactlyByACut(h: Host, acts: seq<Act>, t: string)
    requires Inv(h)
    ensures t in Run(h, acts).staging
       <==> t in h.staging || exists k: nat | k < |acts| :: CutWhileCopying(Before(h, acts, k), acts[k], t)
  {
    if acts != [] {
      var n := |acts| - 1;
      AbandonedExactlyByACut(h, acts[..n], t);
      RunKeepsInv(h, acts[..n]);
      StepStaging(Run(h, acts[..n]), acts[n], t);
      assert Before(h, acts, n) == Run(h, acts[..n]);
      forall k | 0 <= k < n ensures Before(h, acts[..n], k) == Before(h, acts, k) && acts[..n][k] == acts[k] {
        SameBefore(h, acts, n, k);
      }
    }
  }
}
