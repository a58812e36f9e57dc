/** The release host: immutable release directories, the links `current` and `previous`, the containers that serve, and the
    log of operations. Docker, the probes and a process that dies are parameters of every operation. */
module Deploy {
  import opened Support
  import opened Tags

  datatype Manifest = Manifest(tag: string, commit: string, images: map<string, string>, migrations: map<string, string>)

  /** A directory as `read_manifest` sees it; `None` is anything it refuses because of the files themselves. */
  type Content = Option<Manifest>

  predicate Readable(c: Content) {
    c.Some? && IsTag(c.value.tag)
  }

  /** Where a link leads: into the releases directory or out of the deployment root. */
  datatype Target = Release(tag: string) | Outside

  datatype Operation = Deploy | Rollback | Migrate

  datatype Status =
    | HealthyRelease | Migrated | MigrationFailed | PreflightFailed | StartFailed
    | Recovered(of: string) | RecoveryFailed | RecoveryDisabled

  datatype Entry = Entry(operation: Operation, tag: string, status: Status)

  /** `staging` are the tags with an `.incoming` directory; `serving` is the release whose services last passed every probe,
      if nothing has touched them since. */
  datatype Host = Host(
    releases: map<string, Content>, staging: set<string>, current: Option<Target>, previous: Option<Target>,
    serving: Option<string>, history: seq<Entry>)

  datatype Request = Request(operation: Operation, bundle: Content, acknowledgeSchema: bool, backupConfirmed: bool)

  /** How an external step ends: an exception is caught and recorded, a killed process leaves no record. */
  datatype Step = Done | Raised | Killed

  datatype Copy = Copied | NotStarted | Interrupted

  /** What the outside does during one operation. `images` covers the Compose file, the pull and the revision labels; a link is
      false when the operation ends just before replacing it. */
  datatype World = World(
    settings: bool, copy: Copy, images: bool, migration: Step, preflight: Step, startup: Step, recheck: Step, restart: Step,
    linkPrevious: bool, linkCurrent: bool)

  datatype Why =
    | BadSettings | BadBundle | DifferentRelease | StagingExists | CopyInterrupted | EscapesRoot | CurrentUnreadable
    | NotOlder | SchemaNotAcknowledged | UseRollback | BackupNotConfirmed
    | ImagesRejected | MigrationBroke | PreflightBroke | StartBroke | LinkBroke

  // ---- the operation, stage by stage -------------------------------------------------------------

  /** `(root / 'current').resolve()` if it exists: a dangling link counts as none. */
  function CurrentTag(h: Host): Option<string> {
    if h.current.Some? && h.current.value.Release? && h.current.value.tag in h.releases then Some(h.current.value.tag) else None
  }

  datatype Outcome = Outcome(host: Host, why: Option<Why>)

  /** Bring the bundle into the releases directory under its tag. */
  function Place(h: Host, m: Manifest, copy: Copy): Outcome {
    if m.tag in h.releases then Outcome(h, if h.releases[m.tag] == Some(m) then None else Some(DifferentRelease))
    else if m.tag in h.staging || copy.NotStarted? then Outcome(h, Some(StagingExists))
    else if copy.Interrupted? then Outcome(h.(staging := h.staging + {m.tag}), Some(CopyInterrupted))
    else Outcome(h.(releases := h.releases[m.tag := Some(m)]), None)
  }

  /** The checks against the current release. */
  function Guard(h: Host, r: Request, m: Manifest): Option<Why>
    requires IsTag(m.tag)
  {
    var tag := CurrentTag(h);
    if h.current == Some(Outside) then Some(EscapesRoot)
    else if tag.Some? && !Readable(h.releases[tag.value]) then Some(CurrentUnreadable)
    else if r.operation.Rollback? && (tag.None? || !Lower(VersionOf(m.tag), VersionOf(h.releases[tag.value].value.tag))) then Some(NotOlder)
    else if r.operation.Rollback? && h.releases[tag.value].value.migrations != m.migrations && !r.acknowledgeSchema then
      Some(SchemaNotAcknowledged)
    else if r.operation.Deploy? && tag.Some? && Lower(VersionOf(m.tag), VersionOf(h.releases[tag.value].value.tag)) then Some(UseRollback)
    else if r.operation.Migrate? && !r.backupConfirmed then Some(BackupNotConfirmed)
    else None
  }

  function Note(h: Host, r: Request, m: Manifest, status: Status): Host {
    h.(history := h.history + [Entry(r.operation, m.tag, status)])
  }

  /** After a start that raised: the old release is started again when its schema is the same. */
  function Recover(h: Host, r: Request, m: Manifest, w: World): Host {
    var failed := Note(h, r, m, StartFailed).(serving := None);
    var tag := CurrentTag(h);
    if tag.None? then failed
    else if h.releases[tag.value].None? || h.releases[tag.value].value.migrations != m.migrations then Note(failed, r, m, RecoveryDisabled)
    else if w.recheck.Done? && w.restart.Done? then Note(failed, r, m, Recovered(tag.value)).(serving := tag)
    else if w.recheck.Killed? || (w.recheck.Done? && w.restart.Killed?) then failed
    else Note(failed, r, m, RecoveryFailed)
  }

  /** The two links; `previous` only when another release was current. */
  function Relink(h: Host, r: Request, m: Manifest, w: World): Outcome {
    var tag := CurrentTag(h);
    var up := h.(serving := Some(m.tag));
    var moves := tag.Some? && tag.value != m.tag;
    if moves && !w.linkPrevious then Outcome(up, Some(LinkBroke))
    else
      var kept := if moves then up.(previous := Some(Release(tag.value))) else up;
      if !w.linkCurrent then Outcome(kept, Some(LinkBroke))
      else Outcome(Note(kept.(current := Some(Release(m.tag))), r, m, HealthyRelease), None)
  }

  function Operate(h: Host, r: Request, m: Manifest, w: World): Outcome {
    if !w.images then Outcome(h, Some(ImagesRejected))
    else if r.operation.Migrate? then
      (match w.migration
       case Done => Outcome(Note(h, r, m, Migrated), None)
       case Raised => Outcome(Note(h, r, m, MigrationFailed), Some(MigrationBroke))
       case Killed => Outcome(h, Some(MigrationBroke)))
    else if !w.preflight.Done? then Outcome(if w.preflight.Raised? then Note(h, r, m, PreflightFailed) else h, Some(PreflightBroke))
    else if w.startup.Killed? then Outcome(h.(serving := None), Some(StartBroke))
    else if w.startup.Raised? then Outcome(Recover(h, r, m, w), Some(StartBroke))
    else Relink(h, r, m, w)
  }

  function Perform(h: Host, r: Request, w: World): Outcome {
    if !w.settings then Outcome(h, Some(BadSettings))
    else if !Readable(r.bundle) then Outcome(h, Some(BadBundle))
    else
      var m := r.bundle.value;
      var placed := Place(h, m, w.copy);
      if placed.why.Some? then placed
      else
        var guard := Guard(placed.host, r, m);
        if guard.Some? then Outcome(placed.host, guard) else Operate(placed.host, r, m, w)
  }

  // ---- the checks of an operation ------------------------------------------------------------------

  /** `current` leads to a release, and the bundle is an older one. */
  ghost predicate OlderThanCurrent(h: Host, releases: map<string, Content>, m: Manifest) {
    && h.current.Some? && h.current.value.Release? && h.current.value.tag in releases
    && releases[h.current.value.tag].Some? && Older(m.tag, releases[h.current.value.tag].value.tag)
  }

  /** `current` leads to a release with other migrations. */
  predicate OtherSchema(h: Host, releases: map<string, Content>, m: Manifest) {
    && h.current.Some? && h.current.value.Release? && h.current.value.tag in releases
    && releases[h.current.value.tag].Some? && releases[h.current.value.tag].value.migrations != m.migrations
  }

  /** The bundle was rejected or could not be placed. */
  predicate NotPlaced(why: Option<Why>) {
    why == Some(BadSettings) || why == Some(BadBundle) || why == Some(DifferentRelease) || why == Some(StagingExists) || why == Some(CopyInterrupted)
  }

  /** The link `current` could not be followed. */
  predicate NoCurrent(why: Option<Why>) {
    why == Some(EscapesRoot) || why == Some(CurrentUnreadable)
  }

  predicate PlacingLaw(h: Host, r: Request, w: World, why: Option<Why>) {
    && (why == Some(BadSettings) <==> !w.settings)
    && (why == Some(BadBundle) <==> w.settings && (r.bundle.None? || !IsTag(r.bundle.value.tag)))
    && (w.settings && r.bundle.Some? && IsTag(r.bundle.value.tag) ==>
          var tag := r.bundle.value.tag;
          && (why == Some(DifferentRelease) <==> tag in h.releases && h.releases[tag] != r.bundle)
          && (why == Some(StagingExists) <==> tag !in h.releases && (tag in h.staging || w.copy == NotStarted))
          && (why == Some(CopyInterrupted) <==> tag !in h.releases && tag !in h.staging && w.copy == Interrupted))
  }

  /** Once the bundle is placed and `current` is known: a deploy is refused exactly if it is older than the current release, a rollback exactly
      if it is not, or if the schema changes and nobody acknowledged it, and a migration exactly if no backup was confirmed. */
  ghost predicate VersionLaw(h: Host, releases: map<string, Content>, r: Request, why: Option<Why>) {
    !NotPlaced(why) && !NoCurrent(why) ==>
      && r.bundle.Some?
      && var m := r.bundle.value;
         && (why == Some(UseRollback) <==> r.operation == Deploy && OlderThanCurrent(h, releases, m))
         && (why == Some(NotOlder) <==> r.operation == Rollback && !OlderThanCurrent(h, releases, m))
         && (why == Some(SchemaNotAcknowledged) <==>
               r.operation == Rollback && !r.acknowledgeSchema && OlderThanCurrent(h, releases, m) && OtherSchema(h, releases, m))
         && (why == Some(BackupNotConfirmed) <==> r.operation == Migrate && !r.backupConfirmed)
  }

  /** A refused operation changed neither link, nothing that serves and nothing in the log. */
  predicate Refuses(why: Option<Why>) {
    || NotPlaced(why) || NoCurrent(why)
    || why == Some(NotOlder) || why == Some(SchemaNotAcknowledged) || why == Some(UseRollback) || why == Some(BackupNotConfirmed)
    || why == Some(ImagesRejected)
  }

  lemma GuardByVersions(h: Host, r: Request, m: Manifest)
    requires IsTag(m.tag) && h.current != Some(Outside)
    ensures var tag := CurrentTag(h);
            tag.Some? && Readable(h.releases[tag.value]) ==>
              (OlderThanCurrent(h, h.releases, m) <==> Lower(VersionOf(m.tag), VersionOf(h.releases[tag.value].value.tag)))
    ensures CurrentTag(h).None? ==> !OlderThanCurrent(h, h.releases, m)
  {
    var tag := CurrentTag(h);
    if tag.Some? && Readable(h.releases[tag.value]) {
      OlderIsLower(m.tag, h.releases[tag.value].value.tag);
    }
  }

  lemma GuardIsLaw(h: Host, r: Request, m: Manifest, why: Option<Why>)
    requires IsTag(m.tag) && r.bundle == Some(m)
    requires why == Guard(h, r, m) || (Guard(h, r, m).None? && PastChecks(why))
    ensures VersionLaw(h, h.releases, r, why)
  {
    if h.current != Some(Outside) {
      GuardByVersions(h, r, m);
    }
  }

  /** The checks have passed. */
  predicate PastChecks(why: Option<Why>) {
    || why.None? || why == Some(ImagesRejected) || why == Some(MigrationBroke) || why == Some(PreflightBroke)
    || why == Some(StartBroke) || why == Some(LinkBroke)
  }

  lemma OperatingIsAfter(h: Host, r: Request, m: Manifest, w: World)
    ensures var done := Operate(h, r, m, w);
            PastChecks(done.why) && done.host.releases == h.releases && (done.why == Some(ImagesRejected) ==> done.host == h)
  {
  }

  lemma PlacingIsLaw(h: Host, r: Request, w: World)
    requires w.settings && Readable(r.bundle)
    ensures var placed := Place(h, r.bundle.value, w.copy);
            && placed.host == h.(releases := placed.host.releases, staging := placed.host.staging)
            && (placed.why.Some? ==> NotPlaced(placed.why) && PlacingLaw(h, r, w, placed.why))
            && (placed.why.None? ==> forall why | !NotPlaced(why) :: PlacingLaw(h, r, w, why))
  {
  }

  lemma PerformByLaw(h: Host, r: Request, w: World)
    ensures var done := Perform(h, r, w);
            && PlacingLaw(h, r, w, done.why) && VersionLaw(h, done.host.releases, r, done.why)
            && (Refuses(done.why) ==> done.host == h.(releases := done.host.releases, staging := done.host.staging))
            && (!NotPlaced(done.why) ==> (done.why == Some(EscapesRoot) <==> h.current == Some(Outside)))
  {
    if w.settings && Readable(r.bundle) {
      var m := r.bundle.value;
      var placed := Place(h, m, w.copy);
      PlacingIsLaw(h, r, w);
      if placed.why.None? {
        var why := Perform(h, r, w).why;
        OperatingIsAfter(placed.host, r, m, w);
        GuardIsLaw(placed.host, r, m, why);
        SameLaw(placed.host, h, placed.host.releases, r, why);
      }
    }
  }

  lemma SameLaw(a: Host, b: Host, releases: map<string, Content>, r: Request, why: Option<Why>)
    requires a.current == b.current && VersionLaw(a, releases, r, why)
    ensures VersionLaw(b, releases, r, why)
  {
  }

  /** The deployment root. */
  class DeployRoot {
    var releases: map<string, Content>
    var staging: set<string>
    var current: Option<Target>
    var previous: Option<Target>
    var serving: Option<string>
    var history: seq<Entry>

    function Contents(): Host
      reads this
    {
      Host(releases, staging, current, previous, serving, history)
    }

    method PlaceBundle(m: Manifest, copy: Copy) returns (why: Option<Why>)
      modifies this`releases, this`staging
      ensures Outcome(Contents(), why) == Place(old(Contents()), m, copy)
    {
      why := None;
      if m.tag in releases {
        if releases[m.tag] != Some(m) {
          why := Some(DifferentRelease);
        }
        return;
      }
      if m.tag in staging || copy.NotStarted? {
        return Some(StagingExists);
      }
      ghost var before := staging;
      staging := staging + {m.tag};
      if copy.Interrupted? {
        return Some(CopyInterrupted);
      }
      staging := staging - {m.tag};
      assert staging == before;
      releases := releases[m.tag := Some(m)];
    }

    method Record(r: Request, m: Manifest, status: Status)
      modifies this`history
      ensures Contents() == Note(old(Contents()), r, m, status)
    {
      history := history + [Entry(r.operation, m.tag, status)];
    }

    method RecoverOld(r: Request, m: Manifest, w: World)
      modifies this`history, this`serving
      ensures Contents() == Recover(old(Contents()), r, m, w)
    {
      Record(r, m, StartFailed);
      serving := None;
      var tag := CurrentTag(Contents());
      if tag.None? {
        return;
      }
      var old' := releases[tag.value];
      if old'.None? || old'.value.migrations != m.migrations {
        Record(r, m, RecoveryDisabled);
      } else if w.recheck.Done? && w.restart.Done? {
        serving := tag;
        Record(r, m, Recovered(tag.value));
      } else if w.recheck.Raised? || (w.recheck.Done? && w.restart.Raised?) {
        Record(r, m, RecoveryFailed);
      }
    }

    method Activate(r: Request, m: Manifest, w: World) returns (why: Option<Why>)
      modifies this`history, this`serving, this`current, this`previous
      ensures Outcome(Contents(), why) == Relink(old(Contents()), r, m, w)
    {
      serving := Some(m.tag);
      var tag := CurrentTag(Contents());
      if tag.Some? && tag.value != m.tag {
        if !w.linkPrevious {
          return Some(LinkBroke);
        }
        previous := Some(Release(tag.value));
      }
      if !w.linkCurrent {
        return Some(LinkBroke);
      }
      current := Some(Release(m.tag));
      Record(r, m, HealthyRelease);
      why := None;
    }

    /** One operation under the deployment lock; returns why it raised, if it did. */
    method PerformOperation(r: Request, w: World) returns (why: Option<Why>)
      modifies this
      ensures Outcome(Contents(), why) == Perform(old(Contents()), r, w)
      ensures PlacingLaw(old(Contents()), r, w, why) && VersionLaw(old(Contents()), releases, r, why)
      ensures Refuses(why) ==> current == old(current) && previous == old(previous) && serving == old(serving) && history == old(history)
    {
      PerformByLaw(Contents(), r, w);
      if !w.settings {
        return Some(BadSettings);
      }
      if !Readable(r.bundle) {
        return Some(BadBundle);
      }
      var m := r.bundle.value;
      why := PlaceBundle(m, w.copy);
      if why.Some? {
        return;
      }
      why := Guard(Contents(), r, m);
      if why.Some? {
        return;
      }
      if !w.images {
        return Some(ImagesRejected);
      }
      if r.operation.Migrate? {
        if w.migration.Raised? {
          Record(r, m, MigrationFailed);
        }
        if !w.migration.Done? {
          return Some(MigrationBroke);
        }
        Record(r, m, Migrated);
        return None;
      }
      if !w.preflight.Done? {
        if w.preflight.Raised? {
          Record(r, m, PreflightFailed);
        }
        return Some(PreflightBroke);
      }
      if w.startup.Killed? {
        serving := None;
        return Some(StartBroke);
      }
      if w.startup.Raised? {
        RecoverOld(r, m, w);
        return Some(StartBroke);
      }
      why := Activate(r, m, w);
    }
  }
}
