/** The publication boundary over jobs and items together: once the item of a manual_xml job has ended and the job shows it, no
    later writer of items, jobs or counters, in any order, lets the job be cancelled. */
module Publication {
  import opened Support
  import opened Jobs
  import opened Items
  import JobRuns

  /** Every update of an item in the source. */
  datatype Writer =
    | Start(now: Time)
    | Finish(result: Product, error: Option<string>, now: Time)
    | Unpack(waits: bool, result: Product, code: string, now: Time)
    | Terminalise(code: string, now: Time)
    | ParseMetadata(error: Option<string>, now: Time)

  /** The row it leaves; `None` when its WHERE does not match. */
  function Written(i: Item, w: Writer): Option<Item> {
    match w
    case Start(now) =>
      if i.technical.Done? then None
      else Some(i.(technical := InProgress, updatedAt := now, version := i.version + 1))
    case Finish(result, code, now) =>
      Some(i.(technical := Done, product := Some(result), errorCode := code, processedAt := Some(now), updatedAt := now,
              version := i.version + 1))
    case Unpack(waits, result, code, now) =>
      if i.technical.Done? then None
      else if waits then
        Some(i.(technical := Pending, product := None, errorCode := None, processedAt := None, updatedAt := now,
                version := i.version + 1))
      else
        Some(i.(technical := Done, product := Some(result), errorCode := Some(code), processedAt := Some(now), updatedAt := now,
                version := i.version + 1))
    case Terminalise(code, now) =>
      if i.technical.Done? then None
      else
        Some(i.(technical := Done, product := Some(InternalError), errorCode := Some(code), processedAt := Some(now), updatedAt := now,
                version := i.version + 1))
    case ParseMetadata(code, now) =>
      Some(i.(technical := Done, product := Some(if code.Some? then Invalid else Incorporated), errorCode := code,
              processedAt := Some(now)))
  }

  /** No writer reopens an item that has ended, or moves it to another job. */
  lemma EndedStaysEnded(i: Item, w: Writer)
    requires Written(i, w).Some?
    ensures var after := Written(i, w).value;
            after.org == i.org && after.job == i.job && (i.technical.Done? ==> after.technical.Done?)
  {
  }

  /** Where a writer takes a row that satisfies the item CHECKs, when PostgreSQL accepts the row it leaves: only an open item is started, unpacked
      or terminalised; a result needs an error code exactly if the item was neither incorporated nor a duplicate. */
  lemma WritersLeave(i: Item, w: Writer)
    requires ItemChecks(i) && Written(i, w).Some? && ItemChecks(Written(i, w).value)
    ensures var row := Written(i, w).value;
            && row.objectId == i.objectId && row.version >= i.version
            && (w.Start? || w.Unpack? || w.Terminalise? ==> i.technical == Pending || i.technical == InProgress)
            && (w.Start? ==> row == i.(technical := InProgress, updatedAt := w.now, version := i.version + 1))
            && (w.Unpack? && w.waits ==> row.technical == Pending && row.product == None && row.errorCode == None)
            && (w.Terminalise? ==> row.product == Some(InternalError) && row.errorCode == Some(w.code) && row.processedAt == Some(w.now))
            && (w.ParseMetadata? ==> row.product == Some(if w.error == None then Incorporated else Invalid) && row.errorCode == w.error)
            && (w.Finish? || (w.Unpack? && !w.waits) ==> row.product == Some(w.result) && row.processedAt == Some(w.now))
            && (w.Finish? ==> row.errorCode == w.error && (w.error == None <==> w.result == Incorporated || w.result == Duplicate))
            && (w.Unpack? && !w.waits ==> row.errorCode == Some(w.code) && w.result != Incorporated && w.result != Duplicate)
  {
  }

  datatype Move =
    | Admit(id: Id, row: Job, items: ItemTable)
    | Insert(k: Id, item: Item)
    | WriteItem(k: Id, writer: Writer)
    | Statement(id: Id, event: JobRuns.Event, now: Time)
    | RecountAll(id: Id, now: Time)

  /** A manual_xml job gets its item when it is admitted; only archive workers insert items later, into their own jobs. */
  function Next(s: Store, m: Move): Store {
    match m
    case Admit(id, row, items) =>
      if id in s.jobs || exists k :: k in items && (k in s.items || items[k].job != id) then s
      else Store(s.jobs[id := row], s.items + items)
    case Insert(k, item) =>
      if k in s.items || item.job !in s.jobs || s.jobs[item.job].source.ManualXml? || !ItemChecks(item) then s else PutItem(s, k, item)
    case WriteItem(k, writer) =>
      if k in s.items && Written(s.items[k], writer).Some? && ItemChecks(Written(s.items[k], writer).value)
      then PutItem(s, k, Written(s.items[k], writer).value) else s
    case Statement(id, event, now) =>
      if id in s.jobs && !event.ERecount? && JobRuns.Apply(s.jobs[id], event, now).Some?
      then UpdateJob(s, id, JobRuns.Apply(s.jobs[id], event, now).value, now) else s
    case RecountAll(id, now) =>
      if id in s.jobs then s.(jobs := s.jobs[id := Recount(s.jobs[id], id, s.items, now)]) else s
  }

  function Run(s: Store, moves: seq<Move>): Store
    decreases |moves|
  {
    if moves == [] then s else Run(Next(s, moves[0]), moves[1..])
  }

  predicate Uncancelled(j: Job) {
    j.cancelRequestedAt.None? && !j.status.CancelRequested? && !j.status.Cancelled?
  }

  predicate AllEnded(s: Store, id: Id) {
    forall k | k in s.items && s.items[k].job == id :: s.items[k].technical.Done?
  }

  /** A published job: it shows that it is finished, and it is. */
  predicate Final(s: Store, id: Id) {
    && id in s.jobs && Published(s.jobs[id]) && Uncancelled(s.jobs[id])
    && |OfJob(s.items, s.jobs[id].org, id)| > 0
    && AllEnded(s, id)
  }

  /** What a statement on the job itself leaves. */
  lemma StatementKeepsPublished(j: Job, e: JobRuns.Event, now: Time)
    requires Published(j) && Uncancelled(j) && !e.ERecount? && JobRuns.Apply(j, e, now).Some?
    ensures var row := JobRuns.Apply(j, e, now).value;
            Published(row) && Uncancelled(row) && row.org == j.org && row.source == j.source && !e.ECancel? && !e.ESatCancel?
  {
  }

  lemma StatementKeepsScope(j: Job, e: JobRuns.Event, now: Time)
    requires !e.ERecount? && JobRuns.Apply(j, e, now).Some?
    ensures JobRuns.Apply(j, e, now).value.source == j.source
  {
  }

  lemma MoreItems(before: Store, after: Store, id: Id)
    requires Final(before, id) && id in after.jobs && after.jobs[id].org == before.jobs[id].org
    requires forall k | k in before.items && before.items[k].job == id ::
               k in after.items && after.items[k].job == id && after.items[k].org == before.items[k].org
    ensures |OfJob(after.items, after.jobs[id].org, id)| > 0
  {
    SubsetCard(OfJob(before.items, before.jobs[id].org, id), OfJob(after.items, after.jobs[id].org, id));
  }

  lemma ItemMovesKeepFinal(s: Store, m: Move, id: Id)
    requires Final(s, id) && (m.Admit? || m.Insert? || m.WriteItem?)
    ensures Final(Next(s, m), id)
  {
    if m.WriteItem? && m.k in s.items && Written(s.items[m.k], m.writer).Some? {
      EndedStaysEnded(s.items[m.k], m.writer);
    }
    MoreItems(s, Next(s, m), id);
  }

  lemma StatementKeepsFinal(s: Store, m: Move, id: Id)
    requires Final(s, id) && m.Statement?
    ensures Final(Next(s, m), id)
  {
    var t := Next(s, m);
    if m.id in s.jobs && !m.event.ERecount? && JobRuns.Apply(s.jobs[m.id], m.event, m.now).Some? {
      StatementKeepsScope(s.jobs[m.id], m.event, m.now);
      if m.id == id {
        StatementKeepsPublished(s.jobs[id], m.event, m.now);
        assert t.items == s.items;
      }
    }
    MoreItems(s, t, id);
  }

  lemma RecountKeepsFinal(s: Store, m: Move, id: Id)
    requires Final(s, id) && m.RecountAll?
    ensures Final(Next(s, m), id)
  {
    var org := s.jobs[id].org;
    assert AtStage(s.items, org, id, Pending) == {} && AtStage(s.items, org, id, InProgress) == {};
  }

  lemma {:induction false} RunKeepsFinal(s: Store, moves: seq<Move>, id: Id)
    requires Final(s, id)
    ensures Final(Run(s, moves), id)
    decreases |moves|
  {
    if moves != [] {
      if moves[0].Statement? {
        StatementKeepsFinal(s, moves[0], id);
      } else if moves[0].RecountAll? {
        RecountKeepsFinal(s, moves[0], id);
      } else {
        ItemMovesKeepFinal(s, moves[0], id);
      }
      RunKeepsFinal(Next(s, moves[0]), moves[1..], id);
    }
  }

  /** A manual_xml job whose clean row shows every item finished is never cancelled: over every run of all writers of items, jobs and
      counters its row stays uncancelled, its items stay finished, and every later request is refused. */
  lemma PublishedIsNeverCancelled(s: Store, moves: seq<Move>, id: Id, later: Time)
    requires CacheInv(s) && id in s.jobs && s.jobs[id].reconciledAt.Some? && Published(s.jobs[id]) && Uncancelled(s.jobs[id])
    requires forall k | k in s.items && s.items[k].job == id :: s.items[k].org == s.jobs[id].org
    ensures id in Run(s, moves).jobs && Uncancelled(Run(s, moves).jobs[id]) && AllEnded(Run(s, moves), id)
    ensures RequestCancellation(Run(s, moves).jobs[id], later).None?
  {
    PublishedMeansFinished(s, id);
    forall k | k in s.items && s.items[k].job == id ensures s.items[k].technical.Done? {
      assert k in OfJob(s.items, s.jobs[id].org, id);
    }
    assert Final(s, id);
    RunKeepsFinal(s, moves, id);
  }
}
