/** Metadata packages of the SAT: the archive worker reserves one item per entry, extracts every entry with a full recount, and only
    then parses the entries, each with a recount of four of the nine counters. Why the partial recounts never leave a false cache,
    whatever other clients do and however often the job is claimed again. */
module Archives {
  import opened Support
  import opened Jobs
  import opened Items

  /** A file of the archive: whether it is a metadata text and whether it is an XML. */
  datatype Entry = Entry(text: bool, xml: bool)

  /** The item of an entry, and whether it had already ended when it was reserved. */
  datatype Reservation = Reservation(item: Id, terminal: bool)

  /** What the holder of the lease has done so far. A claim starts a new one; the fence refuses every statement of the old. */
  datatype Session = Session(entries: seq<Entry>, reserved: seq<Reservation>, extracted: nat)

  datatype State = State(store: Store, sessions: map<Id, Session>)

  datatype Move =
    | Other(m: Items.Move)
    | Begin(job: Id, entries: seq<Entry>)
    | Reserve(job: Id, item: Id, now: Time)
    | Extract(job: Id, now: Time)
    | Parse(job: Id, ordinal: nat, error: Option<string>, now: Time)

  /** Everything else: only the holder of a metadata job writes its items. */
  predicate OtherAllowed(s: Store, metadata: set<Id>, m: Items.Move) {
    match m
    case Put(k, item) => item.job !in metadata && (k in s.items ==> s.items[k].job !in metadata)
    case Drop(k) => k in s.items ==> s.items[k].job !in metadata
    case Admit(job, row) => job in metadata ==> row.source.SatPackage?
    case _ => true
  }

  /** The full recount that ends an extraction. */
  function FullRecount(s: Store, job: Id, now: Time): Store
    requires job in s.jobs
  {
    s.(jobs := s.jobs[job := Recount(s.jobs[job], job, s.items, now)])
  }

  /** The item after its entry was unpacked: a metadata text waits for its parsing, anything else ends here. */
  function Unpacked(i: Item, e: Entry, now: Time): Item {
    if e.text then
      i.(technical := Pending, product := None, errorCode := None, processedAt := None, updatedAt := now, version := i.version + 1)
    else
      i.(technical := Done, product := Some(if e.xml then Invalid else Unsupported),
         errorCode := Some(if e.xml then "INGESTION_FILE_TOO_LARGE" else "ZIP_ENTRY_UNSUPPORTED"),
         processedAt := Some(now), updatedAt := now, version := i.version + 1)
  }

  function Parsed(i: Item, error: Option<string>, now: Time): Item {
    i.(technical := Done, product := Some(if error.Some? then Invalid else Incorporated), errorCode := error, processedAt := Some(now))
  }

  /** `reserve`: the item of the next entry, found by its ordinal or inserted. */
  function ReserveNext(s: State, job: Id, item: Id, now: Time): State
    requires job in s.sessions && job in s.store.jobs
  {
    var x := s.sessions[job];
    var org := s.store.jobs[job].org;
    if |x.reserved| >= |x.entries| then s
    else if item in s.store.items then
      var found := s.store.items[item];
      if found.job != job || found.org != org then s
      else s.(sessions := s.sessions[job := x.(reserved := x.reserved + [Reservation(item, found.technical.Done?)])])
    else
      State(PutItem(s.store, item, Item(org, job, None, Pending, None, None, None, now, 1)),
            s.sessions[job := x.(reserved := x.reserved + [Reservation(item, false)])])
  }

  /** `extracted`: nothing for an entry reserved as ended; else the item, unless it has ended since, and a full recount. */
  function ExtractNext(s: State, job: Id, now: Time): State
    requires job in s.sessions && job in s.store.jobs
  {
    var x := s.sessions[job];
    if |x.reserved| != |x.entries| || x.extracted >= |x.entries| then s
    else
      var r := x.reserved[x.extracted];
      var next := s.sessions[job := x.(extracted := x.extracted + 1)];
      if r.terminal then s.(sessions := next)
      else if r.item !in s.store.items then s
      else
        var i := s.store.items[r.item];
        var written := if i.technical.Done? then s.store else PutItem(s.store, r.item, Unpacked(i, x.entries[x.extracted], now));
        State(FullRecount(written, job, now), next)
  }

  /** The metadata processor on one entry, once every entry has been extracted. */
  function ParseEntry(s: State, job: Id, ordinal: nat, error: Option<string>, now: Time): State
    requires job in s.sessions && job in s.store.jobs
  {
    var x := s.sessions[job];
    if |x.reserved| != |x.entries| || x.extracted != |x.entries| || ordinal >= |x.entries| || !x.entries[ordinal].text then s
    else
      var k := x.reserved[ordinal].item;
      if k !in s.store.items || s.store.items[k].technical.Done? then s
      else
        var written := PutItem(s.store, k, Parsed(s.store.items[k], error, now));
        s.(store := written.(jobs := written.jobs[job := PartialRecount(written.jobs[job], job, written.items, now)]))
  }

  function Next(s: State, metadata: set<Id>, m: Move): State {
    match m
    case Other(other) => if OtherAllowed(s.store, metadata, other) then s.(store := Items.Next(s.store, other)) else s
    case Begin(job, entries) =>
      if job in s.store.jobs && job in metadata then s.(sessions := s.sessions[job := Session(entries, [], 0)]) else s
    case Reserve(job, item, now) => if job in s.sessions && job in s.store.jobs then ReserveNext(s, job, item, now) else s
    case Extract(job, now) => if job in s.sessions && job in s.store.jobs then ExtractNext(s, job, now) else s
    case Parse(job, ordinal, error, now) =>
      if job in s.sessions && job in s.store.jobs then ParseEntry(s, job, ordinal, error, now) else s
  }

  function Run(s: State, metadata: set<Id>, moves: seq<Move>): State
    decreases |moves|
  {
    if moves == [] then s else Run(Next(s, metadata, moves[0]), metadata, moves[1..])
  }

  // ---- the invariant ------------------------------------------------------------------------------------

  /** Some entry that had not ended was extracted in this session: a full recount came after the last reservation. */
  predicate Recounted(x: Session) {
    exists o | 0 <= o < x.extracted :: o < |x.reserved| && !x.reserved[o].terminal
  }

  predicate Reserved(s: Store, id: Id, x: Session)
    requires id in s.jobs
  {
    forall o | 0 <= o < |x.reserved| ::
      && x.reserved[o].item in s.items
      && s.items[x.reserved[o].item].job == id && s.items[x.reserved[o].item].org == s.jobs[id].org
      && (x.reserved[o].terminal ==> s.items[x.reserved[o].item].technical.Done?)
  }

  predicate SessionInv(s: Store, id: Id, x: Session) {
    && id in s.jobs && |x.reserved| <= |x.entries| && x.extracted <= |x.entries|
    && (x.extracted > 0 ==> |x.reserved| == |x.entries|)
    && Reserved(s, id, x)
    && (Recounted(x) ==> Items.Agrees(s.jobs[id], id, s.items))
  }

  /** Metadata jobs are SAT packages, and none of their items is ever being processed: they wait or have ended. */
  predicate Packages(s: Store, metadata: set<Id>) {
    && (forall id | id in s.jobs && id in metadata :: s.jobs[id].source.SatPackage?)
    && (forall k | k in s.items && s.items[k].job in metadata :: !s.items[k].technical.InProgress?)
  }

  predicate Inv(s: State, metadata: set<Id>) {
    && CacheInv(s.store) && Packages(s.store, metadata)
    && forall id | id in s.sessions :: id in metadata && SessionInv(s.store, id, s.sessions[id])
  }

  // ---- what one job sees of the others ----------------------------------------------------------------------

  /** The items of the job are the same rows, and its row has the same tenant and counters. */
  predicate SameView(s: Store, t: Store, id: Id) {
    && id in s.jobs && id in t.jobs && t.jobs[id].org == s.jobs[id].org && t.jobs[id].counters == s.jobs[id].counters
    && (forall k | k in s.items && s.items[k].job == id :: k in t.items && t.items[k] == s.items[k])
    && (forall k | k in t.items && t.items[k].job == id :: k in s.items && t.items[k] == s.items[k])
  }

  lemma SameViewSameCount(s: Store, t: Store, id: Id)
    requires SameView(s, t, id)
    ensures Count(t.items, t.jobs[id].org, id) == Count(s.items, s.jobs[id].org, id)
  {
    var org := s.jobs[id].org;
    assert OfJob(t.items, org, id) == OfJob(s.items, org, id);
    SameCount(s.items, t.items, org, id);
  }

  lemma SameViewKeepsSession(s: Store, t: Store, id: Id, x: Session)
    requires SameView(s, t, id) && SessionInv(s, id, x)
    ensures SessionInv(t, id, x)
  {
    SameViewSameCount(s, t, id);
  }

  lemma PutElsewhere(s: Store, k: Id, item: Item, id: Id)
    requires id in s.jobs && item.job != id && (k in s.items ==> s.items[k].job != id)
    ensures SameView(s, PutItem(s, k, item), id)
  {
  }

  lemma OtherElsewhere(s: Store, metadata: set<Id>, m: Items.Move, id: Id)
    requires OtherAllowed(s, metadata, m) && !m.Repair? && Packages(s, metadata) && id in s.jobs && id in metadata
    ensures SameView(s, Items.Next(s, m), id)
  {
    match m
    case Put(k, item) => PutElsewhere(s, k, item, id);
    case Drop(k) =>
    case Admit(job, row) =>
    case Update(job, row, now) =>
  }

  lemma OtherKeepsPackages(s: Store, metadata: set<Id>, m: Items.Move)
    requires OtherAllowed(s, metadata, m) && Packages(s, metadata)
    ensures Packages(Items.Next(s, m), metadata)
  {
  }

  lemma OtherKeepsInv(s: State, metadata: set<Id>, m: Items.Move)
    requires Inv(s, metadata) && OtherAllowed(s.store, metadata, m)
    ensures Inv(Next(s, metadata, Other(m)), metadata)
  {
    var t := Items.Next(s.store, m);
    NextKeepsCache(s.store, m);
    OtherKeepsPackages(s.store, metadata, m);
    forall id | id in s.sessions ensures SessionInv(t, id, s.sessions[id]) {
      if m.Repair? {
        RepairKeepsSession(s.store, m, id, s.sessions[id]);
      } else {
        OtherElsewhere(s.store, metadata, m, id);
        SameViewKeepsSession(s.store, t, id, s.sessions[id]);
      }
    }
  }

  /** A repair recounts everything, so it leaves a recounted session as true as it was. */
  lemma RepairKeepsSession(s: Store, m: Items.Move, id: Id, x: Session)
    requires m.Repair? && SessionInv(s, id, x)
    ensures SessionInv(Items.Next(s, m), id, x)
  {
  }

  // ---- the worker's steps -------------------------------------------------------------------------------------

  lemma BeginKeepsInv(s: State, metadata: set<Id>, m: Move)
    requires Inv(s, metadata) && m.Begin?
    ensures Inv(Next(s, metadata, m), metadata)
  {
  }

  /** A reservation is noted before anything is extracted, so nothing is claimed about the counters yet. */
  lemma NotingKeepsInv(s: State, metadata: set<Id>, job: Id, r: Reservation)
    requires Inv(s, metadata) && job in s.sessions && |s.sessions[job].reserved| < |s.sessions[job].entries|
    requires r.item in s.store.items && s.store.items[r.item].job == job && s.store.items[r.item].org == s.store.jobs[job].org
    requires r.terminal ==> s.store.items[r.item].technical.Done?
    ensures Inv(s.(sessions := s.sessions[job := s.sessions[job].(reserved := s.sessions[job].reserved + [r])]), metadata)
  {
    var x := s.sessions[job];
    var y := x.(reserved := x.reserved + [r]);
    assert Reserved(s.store, job, x);
    assert SessionInv(s.store, job, y) by {
      assert forall o | 0 <= o < |x.reserved| :: y.reserved[o] == x.reserved[o];
    }
  }

  /** The insertion of a waiting item into a job that has extracted nothing in this session. */
  lemma InsertKeepsInv(s: State, metadata: set<Id>, job: Id, k: Id, item: Item)
    requires Inv(s, metadata) && job in s.sessions && s.sessions[job].extracted == 0 && k !in s.store.items
    requires ItemChecks(item) && item.technical.Pending? && item.job == job
    ensures Inv(s.(store := PutItem(s.store, k, item)), metadata)
  {
    var t := PutItem(s.store, k, item);
    PutKeepsCache(s.store, k, item);
    forall id | id in s.sessions ensures SessionInv(t, id, s.sessions[id]) {
      if id != job {
        PutElsewhere(s.store, k, item, id);
        SameViewKeepsSession(s.store, t, id, s.sessions[id]);
      } else {
        assert Reserved(s.store, id, s.sessions[id]);
      }
    }
  }

  lemma ReserveKeepsInv(s: State, metadata: set<Id>, job: Id, item: Id, now: Time)
    requires Inv(s, metadata) && job in s.sessions
    ensures Inv(Next(s, metadata, Reserve(job, item, now)), metadata)
  {
    var x := s.sessions[job];
    if |x.reserved| < |x.entries| {
      if item in s.store.items {
        var found := s.store.items[item];
        if found.job == job && found.org == s.store.jobs[job].org {
          NotingKeepsInv(s, metadata, job, Reservation(item, found.technical.Done?));
        }
      } else {
        var added := Item(s.store.jobs[job].org, job, None, Pending, None, None, None, now, 1);
        InsertKeepsInv(s, metadata, job, item, added);
        NotingKeepsInv(s.(store := PutItem(s.store, item, added)), metadata, job, Reservation(item, false));
      }
    }
  }

  /** An item of the job is rewritten and the job recounted, so that its cache is true: everybody else sees the same. */
  lemma WrittenKeepsInv(s: State, metadata: set<Id>, job: Id, k: Id, item: Item, row: Job)
    requires Inv(s, metadata) && job in s.store.jobs && job in metadata
    requires ItemChecks(item) && item.job == job && !item.technical.InProgress?
    requires k in s.store.items && s.store.items[k].job == job && !s.store.items[k].technical.Done? && item.org == s.store.items[k].org
    requires row == s.store.jobs[job].(counters := row.counters, reconciledAt := row.reconciledAt)
    requires Items.Agrees(row, job, s.store.items[k := item])
    ensures Inv(s.(store := Store(s.store.jobs[job := row], s.store.items[k := item])), metadata)
  {
    var put := PutItem(s.store, k, item);
    var t := Store(s.store.jobs[job := row], s.store.items[k := item]);
    PutKeepsCache(s.store, k, item);
    forall id | id in t.jobs && t.jobs[id].reconciledAt.Some? ensures Items.Agrees(t.jobs[id], id, t.items) {
      if id != job {
        assert put.jobs[id] == t.jobs[id] && put.items == t.items;
      }
    }
    forall id | id in s.sessions ensures SessionInv(t, id, s.sessions[id]) {
      if id != job {
        assert SameView(s.store, t, id);
        SameViewKeepsSession(s.store, t, id, s.sessions[id]);
      } else {
        assert Reserved(s.store, id, s.sessions[id]);
      }
    }
  }

  lemma RecountKeepsInv(s: State, metadata: set<Id>, job: Id, now: Time)
    requires Inv(s, metadata) && job in s.store.jobs
    ensures Inv(s.(store := FullRecount(s.store, job, now)), metadata)
  {
    OtherKeepsInv(s, metadata, Repair(job, now));
  }

  /** After the recount of an extraction its entry may be counted as extracted. */
  lemma AdvanceKeepsInv(s: State, metadata: set<Id>, job: Id)
    requires Inv(s, metadata) && job in s.sessions && |s.sessions[job].reserved| == |s.sessions[job].entries|
    requires s.sessions[job].extracted < |s.sessions[job].entries|
    requires s.sessions[job].reserved[s.sessions[job].extracted].terminal || Items.Agrees(s.store.jobs[job], job, s.store.items)
    ensures Inv(s.(sessions := s.sessions[job := s.sessions[job].(extracted := s.sessions[job].extracted + 1)]), metadata)
  {
    var x := s.sessions[job];
    var y := x.(extracted := x.extracted + 1);
    if Recounted(y) && x.reserved[x.extracted].terminal {
      var o :| 0 <= o < y.extracted && !y.reserved[o].terminal;
      assert o < x.extracted && !x.reserved[o].terminal;
    }
  }

  /** An extraction of an entry reserved open is the write, if any, with the recount, and one entry more. */
  lemma ExtractNextIs(s: State, job: Id, now: Time)
    requires job in s.sessions && job in s.store.jobs && |s.sessions[job].reserved| == |s.sessions[job].entries|
    requires s.sessions[job].extracted < |s.sessions[job].entries|
    requires var r := s.sessions[job].reserved[s.sessions[job].extracted]; !r.terminal && r.item in s.store.items
    ensures var x := s.sessions[job];
            var k := x.reserved[x.extracted].item;
            var i := s.store.items[k];
            var written := if i.technical.Done? then s.store else PutItem(s.store, k, Unpacked(i, x.entries[x.extracted], now));
            ExtractNext(s, job, now) == Advanced(s.(store := FullRecount(written, job, now)), job)
  {
  }

  lemma NextReserved(s: State, metadata: set<Id>, job: Id)
    requires Inv(s, metadata) && job in s.sessions && |s.sessions[job].reserved| == |s.sessions[job].entries|
    requires s.sessions[job].extracted < |s.sessions[job].entries|
    ensures var k := s.sessions[job].reserved[s.sessions[job].extracted].item;
            k in s.store.items && s.store.items[k].job == job && job in s.store.jobs && s.store.items[k].org == s.store.jobs[job].org
  {
    assert Reserved(s.store, job, s.sessions[job]);
  }

  /** The next entry was open when it was reserved: its item, if it has not ended since, and the recount. */
  lemma ExtractOpenKeepsInv(s: State, metadata: set<Id>, job: Id, now: Time)
    requires Inv(s, metadata) && job in s.sessions && |s.sessions[job].reserved| == |s.sessions[job].entries|
    requires s.sessions[job].extracted < |s.sessions[job].entries| && !s.sessions[job].reserved[s.sessions[job].extracted].terminal
    ensures Inv(ExtractNext(s, job, now), metadata)
  {
    NextReserved(s, metadata, job);
    var x := s.sessions[job];
    var k, e := x.reserved[x.extracted].item, x.entries[x.extracted];
    ExtractNextIs(s, job, now);
    if s.store.items[k].technical.Done? {
      RecountAndAdvance(s, metadata, job, now);
    } else {
      UnpackAndAdvance(s, metadata, job, k, Unpacked(s.store.items[k], e, now), now);
    }
  }

  lemma ExtractKeepsInv(s: State, metadata: set<Id>, job: Id, now: Time)
    requires Inv(s, metadata) && job in s.sessions
    ensures Inv(Next(s, metadata, Extract(job, now)), metadata)
  {
    var x := s.sessions[job];
    if |x.reserved| == |x.entries| && x.extracted < |x.entries| {
      if x.reserved[x.extracted].terminal {
        AdvanceKeepsInv(s, metadata, job);
      } else {
        ExtractOpenKeepsInv(s, metadata, job, now);
      }
    }
  }

  /** What an extraction leaves: a metadata text waits for its parsing; an XML, which should not be there, has ended as invalid and anything
      else as unsupported; and the job shows the counts of its items as they are then. */
  lemma ExtractionWrites(s: State, job: Id, now: Time)
    requires job in s.sessions && job in s.store.jobs && |s.sessions[job].reserved| == |s.sessions[job].entries|
    requires s.sessions[job].extracted < |s.sessions[job].entries|
    requires var r := s.sessions[job].reserved[s.sessions[job].extracted];
             !r.terminal && r.item in s.store.items && s.store.items[r.item].technical != Done
    ensures var x := s.sessions[job];
            var k, e := x.reserved[x.extracted].item, x.entries[x.extracted];
            var t := ExtractNext(s, job, now);
            && k in t.store.items && job in t.store.jobs && job in t.sessions
            && (e.text ==> && t.store.items[k].technical == Pending && t.store.items[k].product == None
                           && t.store.items[k].errorCode == None && t.store.items[k].processedAt == None)
            && (!e.text ==> && t.store.items[k].technical == Done && t.store.items[k].processedAt == Some(now))
            && (!e.text && e.xml ==> && t.store.items[k].product == Some(Invalid)
                                     && t.store.items[k].errorCode == Some("INGESTION_FILE_TOO_LARGE"))
            && (!e.text && !e.xml ==> && t.store.items[k].product == Some(Unsupported)
                                      && t.store.items[k].errorCode == Some("ZIP_ENTRY_UNSUPPORTED"))
            && t.sessions[job].extracted == x.extracted + 1
            && ShowsCounts(t.store.jobs[job].counters, t.store.items, t.store.jobs[job].org, job)
            && t.store.jobs[job].reconciledAt == Some(now)
  {
    CountShows(ExtractNext(s, job, now).store.items, s.store.jobs[job].org, job);
  }

  /** What a parsing leaves: a metadata text whose item had not ended, once everything was extracted, has ended, invalid with its error or
      else incorporated, and no other item has changed. */
  lemma ParsingWrites(s: State, job: Id, ordinal: nat, error: Option<string>, now: Time)
    requires job in s.sessions && job in s.store.jobs && ParseEntry(s, job, ordinal, error, now) != s
    ensures var x := s.sessions[job];
            var t := ParseEntry(s, job, ordinal, error, now);
            && ordinal < |x.reserved| == |x.entries| == x.extracted && x.entries[ordinal].text
            && var k := x.reserved[ordinal].item;
               && k in s.store.items && s.store.items[k].technical != Done && k in t.store.items && job in t.store.jobs
               && t.store.items[k].technical == Done && t.store.items[k].errorCode == error && t.store.items[k].processedAt == Some(now)
               && t.store.items[k].product == (if error == None then Some(Incorporated) else Some(Invalid))
               && (forall other | other in s.store.items && other != k :: other in t.store.items && t.store.items[other] == s.store.items[other])
  {
  }

  function Advanced(s: State, job: Id): State
    requires job in s.sessions
  {
    s.(sessions := s.sessions[job := s.sessions[job].(extracted := s.sessions[job].extracted + 1)])
  }

  lemma RecountAndAdvance(s: State, metadata: set<Id>, job: Id, now: Time)
    requires Inv(s, metadata) && job in s.sessions && |s.sessions[job].reserved| == |s.sessions[job].entries|
    requires s.sessions[job].extracted < |s.sessions[job].entries|
    ensures Inv(Advanced(s.(store := FullRecount(s.store, job, now)), job), metadata)
  {
    RecountKeepsInv(s, metadata, job, now);
    AdvanceKeepsInv(s.(store := FullRecount(s.store, job, now)), metadata, job);
  }

  lemma UnpackAndAdvance(s: State, metadata: set<Id>, job: Id, k: Id, item: Item, now: Time)
    requires Inv(s, metadata) && job in s.sessions && |s.sessions[job].reserved| == |s.sessions[job].entries|
    requires s.sessions[job].extracted < |s.sessions[job].entries|
    requires ItemChecks(item) && item.job == job && !item.technical.InProgress?
    requires k in s.store.items && s.store.items[k].job == job && !s.store.items[k].technical.Done?
    requires item.org == s.store.items[k].org == s.store.jobs[job].org
    ensures Inv(Advanced(s.(store := FullRecount(PutItem(s.store, k, item), job, now)), job), metadata)
  {
    UnpackKeepsInv(s, metadata, job, k, item, now);
    AdvanceKeepsInv(s.(store := FullRecount(PutItem(s.store, k, item), job, now)), metadata, job);
  }

  lemma UnpackKeepsInv(s: State, metadata: set<Id>, job: Id, k: Id, item: Item, now: Time)
    requires Inv(s, metadata) && job in s.store.jobs && job in metadata
    requires ItemChecks(item) && item.job == job && !item.technical.InProgress?
    requires k in s.store.items && s.store.items[k].job == job && !s.store.items[k].technical.Done?
    requires item.org == s.store.items[k].org == s.store.jobs[job].org
    ensures Inv(s.(store := FullRecount(PutItem(s.store, k, item), job, now)), metadata)
    ensures var t := FullRecount(PutItem(s.store, k, item), job, now); Items.Agrees(t.jobs[job], job, t.items)
  {
    var t := FullRecount(PutItem(s.store, k, item), job, now);
    WrittenKeepsInv(s, metadata, job, k, item, t.jobs[job]);
    assert t == Store(s.store.jobs[job := t.jobs[job]], s.store.items[k := item]);
  }

  // ---- parsing ---------------------------------------------------------------------------------------------------

  /** The parsing of this entry would write. */
  predicate Writes(s: State, job: Id, ordinal: nat) {
    && job in s.sessions && job in s.store.jobs
    && var x := s.sessions[job];
       && |x.reserved| == |x.entries| && x.extracted == |x.entries| && ordinal < |x.entries| && x.entries[ordinal].text
       && var k := x.reserved[ordinal].item;
          k in s.store.items && !s.store.items[k].technical.Done?
  }

  /** Before a partial recount all nine cached counters are already the true ones: its item was not ended when it was reserved,
      so extraction recounted the job after the last reservation. */
  lemma ParsingStartsTrue(s: State, metadata: set<Id>, job: Id, ordinal: nat)
    requires Inv(s, metadata) && Writes(s, job, ordinal)
    ensures Items.Agrees(s.store.jobs[job], job, s.store.items)
  {
    var x := s.sessions[job];
    assert Reserved(s.store, job, x);
    assert !x.reserved[ordinal].terminal;
    assert Recounted(x);
  }

  lemma ParseKeepsInv(s: State, metadata: set<Id>, job: Id, ordinal: nat, error: Option<string>, now: Time)
    requires Inv(s, metadata) && Writes(s, job, ordinal)
    ensures var t := ParseEntry(s, job, ordinal, error, now);
            Inv(t, metadata) && Items.Agrees(t.store.jobs[job], job, t.store.items) && t.store.jobs[job].reconciledAt == Some(now)
  {
    var k := s.sessions[job].reserved[ordinal].item;
    assert Reserved(s.store, job, s.sessions[job]);
    var item := Parsed(s.store.items[k], error, now);
    var row := PartialRecount(s.store.jobs[job], job, s.store.items[k := item], now);
    ParsingStartsTrue(s, metadata, job, ordinal);
    ParsedAgrees(s.store.jobs[job], job, s.store.items, k, error, now);
    WrittenKeepsInv(s, metadata, job, k, item, row);
    ParseWrites(s, job, ordinal, error, now);
  }

  /** Parsing one waiting item of a job whose nine counters are true leaves them true. */
  lemma ParsedAgrees(j: Job, id: Id, items: ItemTable, k: Id, error: Option<string>, now: Time)
    requires k in items && items[k].technical.Pending? && items[k].job == id && items[k].org == j.org && ItemChecks(items[k])
    requires Items.Agrees(j, id, items)
    ensures ItemChecks(Parsed(items[k], error, now))
    ensures var after := items[k := Parsed(items[k], error, now)]; Items.Agrees(PartialRecount(j, id, after, now), id, after)
  {
    var after := items[k := Parsed(items[k], error, now)];
    assert Publishes(items, after, k);
    PartialRecountAgreesIff(j, items, after, k, now);
  }

  lemma ParseWrites(s: State, job: Id, ordinal: nat, error: Option<string>, now: Time)
    requires Writes(s, job, ordinal)
    ensures var k := s.sessions[job].reserved[ordinal].item;
            s.store.items[k].job == job && s.store.items[k].org == s.store.jobs[job].org ==>
              var items := s.store.items[k := Parsed(s.store.items[k], error, now)];
              ParseEntry(s, job, ordinal, error, now)
              == s.(store := Store(s.store.jobs[job := PartialRecount(s.store.jobs[job], job, items, now)], items))
  {
  }

  lemma NextKeepsInv(s: State, metadata: set<Id>, m: Move)
    requires Inv(s, metadata)
    ensures Inv(Next(s, metadata, m), metadata)
  {
    match m
    case Other(other) =>
      if OtherAllowed(s.store, metadata, other) {
        OtherKeepsInv(s, metadata, other);
      }
    case Begin(_, _) => BeginKeepsInv(s, metadata, m);
    case Reserve(job, item, now) =>
      if job in s.sessions {
        ReserveKeepsInv(s, metadata, job, item, now);
      }
    case Extract(job, now) =>
      if job in s.sessions {
        ExtractKeepsInv(s, metadata, job, now);
      }
    case Parse(job, ordinal, error, now) =>
      if Writes(s, job, ordinal) {
        ParseKeepsInv(s, metadata, job, ordinal, error, now);
      }
  }

  lemma {:induction false} RunKeepsInv(s: State, metadata: set<Id>, moves: seq<Move>)
    requires Inv(s, metadata)
    ensures Inv(Run(s, metadata, moves), metadata)
    decreases |moves|
  {
    if moves != [] {
      NextKeepsInv(s, metadata, moves[0]);
      RunKeepsInv(Next(s, metadata, moves[0]), metadata, moves[1..]);
    }
  }

  /** Over any interleaving of archive workers, each claimed any number of times and stopped anywhere, with item changes, repairs,
      admissions, job updates and finalisations, every job that is not marked dirty shows all nine true counts. */
  lemma CacheAgrees(s: State, metadata: set<Id>, moves: seq<Move>)
    requires Inv(s, metadata)
    ensures var end := Run(s, metadata, moves).store;
            forall id | id in end.jobs && end.jobs[id].reconciledAt.Some? ::
              && ShowsCounts(end.jobs[id].counters, end.items, end.jobs[id].org, id)
              && end.jobs[id].counters.Parts() == end.jobs[id].counters.total
  {
    RunKeepsInv(s, metadata, moves);
    Items.CacheAgrees(Run(s, metadata, moves).store, []);
  }

  /** The partial recount is enough: after any run, an entry that is parsed finds all nine counters true and leaves all nine true,
      although it recounts four. */
  lemma PartialRecountIsEnough(s: State, metadata: set<Id>, moves: seq<Move>, job: Id, ordinal: nat, error: Option<string>, now: Time)
    requires Inv(s, metadata) && Writes(Run(s, metadata, moves), job, ordinal)
    ensures var before := Run(s, metadata, moves);
            var after := Next(before, metadata, Parse(job, ordinal, error, now));
            && ShowsCounts(before.store.jobs[job].counters, before.store.items, before.store.jobs[job].org, job)
            && job in after.store.jobs && ShowsCounts(after.store.jobs[job].counters, after.store.items, after.store.jobs[job].org, job)
            && after.store.jobs[job].reconciledAt == Some(now)
  {
    RunKeepsInv(s, metadata, moves);
    var before := Run(s, metadata, moves);
    ParsingEndsTrue(before, metadata, job, ordinal, error, now);
    CountShows(before.store.items, before.store.jobs[job].org, job);
    var after := Next(before, metadata, Parse(job, ordinal, error, now));
    CountShows(after.store.items, after.store.jobs[job].org, job);
  }

  lemma ParsingEndsTrue(s: State, metadata: set<Id>, job: Id, ordinal: nat, error: Option<string>, now: Time)
    requires Inv(s, metadata) && Writes(s, job, ordinal)
    ensures var after := Next(s, metadata, Parse(job, ordinal, error, now));
            && Items.Agrees(s.store.jobs[job], job, s.store.items)
            && job in after.store.jobs && Items.Agrees(after.store.jobs[job], job, after.store.items)
            && after.store.jobs[job].reconciledAt == Some(now)
  {
    ParsingStartsTrue(s, metadata, job, ordinal);
    ParseKeepsInv(s, metadata, job, ordinal, error, now);
  }

  /** Such entries are met: a first attempt on a package with one metadata text gets there. */
  lemma FirstAttemptParses(s: State, metadata: set<Id>, job: Id, item: Id, now: Time)
    requires job in s.store.jobs && job in metadata && item !in s.store.items
    ensures var run := [Begin(job, [Entry(true, false)]), Reserve(job, item, now), Extract(job, now)];
            Writes(Run(s, metadata, run), job, 0)
  {
    var m1, m2, m3 := Begin(job, [Entry(true, false)]), Reserve(job, item, now), Extract(job, now);
    var s1 := Next(s, metadata, m1);
    var s2 := Next(s1, metadata, m2);
    var s3 := Next(s2, metadata, m3);
    assert s2.sessions[job].reserved == [Reservation(item, false)];
    assert [m1, m2, m3][1..] == [m2, m3] && [m2, m3][1..] == [m3] && [m3][1..] == [];
    assert Run(s, metadata, [m1, m2, m3]) == Run(s1, metadata, [m2, m3]) == Run(s2, metadata, [m3]) == Run(s3, metadata, []) == s3;
  }
}
