// One run of the service-change listener job: claim the process registry row,
// skip and archive the queue entries that do not qualify, hand every pending
// entry in ascending request order to the action handler, archive it as
// processed or mark it as failed by the handler's outcome, and release the
// registry row.
module GmdRequestProcessing {
  import opened Wrappers
  import opened Entities
  import opened Store
  import opened IntSets
  import opened GmdActionHandling

  const InitialStatus := "I"
  const ProcessedStatus := "P"
  const ErrorStatus := "E"
  const SkippedStatus := "S"

  /**
   * The service-history row of a queue entry (same request and contract) whose
   * service is a configured discount: the discount and the valid-from date.
   */
  datatype ServiceChange = ServiceChange(discId: int, discSncode: int, validFrom: int)

  /** What the job takes from outside the tables. */
  datatype JobEnv = JobEnv(
    pid: int,                              // the operating-system process id
    joined: map<int, ServiceChange>,       // by queue request number
    handlerEnvs: int -> HandlerEnv,        // the handler's environment, by request number
    markErrorRaises: bool)                 // markAsError refused: its UPDATE runs with no transaction open

  // ---- the process registry ----

  /**
   * initializeJob: no registry row, or one already holding a process id,
   * refuses; a free row is claimed for this process.
   */
  function InitializeOf(t: Tables, pid: int): (Tables, bool)
  {
    match t.process
    case Some(None) => (t.(process := Some(Some(pid))), true)
    case _ => (t, false)
  }

  /** clearProcessId: frees the row only if this process holds it. */
  function ClearOf(t: Tables, pid: int): Tables
  {
    if t.process == Some(Some(pid)) then t.(process := Some(None)) else t
  }

  // ---- skipping unqualified entries ----

  /**
   * An initial entry is unqualified when it has no configured service change,
   * or an assignment or state row already carries its request number.
   */
  predicate Unqualified(t: Tables, k: int, joined: map<int, ServiceChange>)
    requires k in t.queue
  {
    && t.queue[k].status == InitialStatus
    && (|| k !in joined
        || (exists id :: id in t.assigns && t.assigns[id].gmdRequest == k)
        || (exists s :: s in t.assignStates && t.assignStates[s].gmdRequest == k))
  }

  /** markAllUnqualifiedAsSkipped. */
  function MarkUnqualifiedSkipped(t: Tables, joined: map<int, ServiceChange>): Tables
  {
    t.(queue := map k | k in t.queue ::
                  if Unqualified(t, k, joined) then t.queue[k].(status := SkippedStatus) else t.queue[k])
  }

  function SkippedIds(queue: map<int, QueueItem>): set<int>
  {
    set k | k in queue && queue[k].status == SkippedStatus
  }

  /** One history row per request number, with the given status. */
  function HistoryRows(ids: seq<int>, status: string): (r: seq<QueueHistItem>)
    ensures |r| == |ids|
    ensures forall i :: 0 <= i < |ids| ==> r[i] == QueueHistItem(ids[i], status)
  {
    seq(|ids|, i requires 0 <= i < |ids| => QueueHistItem(ids[i], status))
  }

  /** archiveSkippedRequests: every skipped entry, by ascending request number. */
  function ArchiveSkipped(t: Tables): Tables
  {
    t.(queueHistory := t.queueHistory + HistoryRows(SortedElements(SkippedIds(t.queue)), SkippedStatus))
  }

  /** deleteSkippedRequests. */
  function DeleteSkipped(t: Tables): Tables
  {
    t.(queue := map k | k in t.queue && t.queue[k].status != SkippedStatus :: t.queue[k])
  }

  /** skipUnqualifiedAndArchive. */
  function SkipOf(t: Tables, joined: map<int, ServiceChange>): Tables
  {
    DeleteSkipped(ArchiveSkipped(MarkUnqualifiedSkipped(t, joined)))
  }

  // ---- pending entries ----

  function PendingIds(t: Tables, joined: map<int, ServiceChange>): set<int>
  {
    set k | k in t.queue && t.queue[k].status == InitialStatus && k in joined
  }

  /** The request handed to the action handler for a queue entry. */
  function ToRequest(k: int, item: QueueItem, change: ServiceChange): GmdRequest
  {
    GmdRequest(k, item.customerId, item.coId, item.actionId, change.discId, change.discSncode, change.validFrom)
  }

  /** fetchInitialRequests: initial entries with their service change, by ascending request number. */
  function FetchInitialRequests(t: Tables, joined: map<int, ServiceChange>): seq<GmdRequest>
  {
    var ids := SortedElements(PendingIds(t, joined));
    seq(|ids|, i requires 0 <= i < |ids| => ToRequest(ids[i], t.queue[ids[i]], joined[ids[i]]))
  }

  // ---- one entry ----

  /** markAsProcessedAndArchive: status P, a P history row, then out of the queue. */
  function MarkProcessedOf(t: Tables, k: int): Tables
  {
    if k in t.queue then
      t.(queue := t.queue - {k}, queueHistory := t.queueHistory + [QueueHistItem(k, ProcessedStatus)])
    else t
  }

  /** markAsError. */
  function MarkErrorOf(t: Tables, k: int): Tables
  {
    if k in t.queue then t.(queue := t.queue[k := t.queue[k].(status := ErrorStatus)]) else t
  }

  /** One pass of the job's loop: the handler, then the entry's fate by its outcome. */
  function ItemStep(t: Tables, r: GmdRequest, env: JobEnv): Tables
  {
    var h := HandleOf(t, r, env.handlerEnvs(r.request));
    if h.thrown.None? then MarkProcessedOf(h.tables, r.request) else MarkErrorOf(h.tables, r.request)
  }

  /**
   * The job's loop.  When the handler raised and marking the entry E raises
   * too, the fault leaves the loop: the remaining entries are not handled.
   */
  function ItemsRun(t: Tables, rs: seq<GmdRequest>, env: JobEnv): Tables
    decreases |rs|
  {
    if rs == [] then t
    else
      var h := HandleOf(t, rs[0], env.handlerEnvs(rs[0].request));
      if h.thrown.Some? && env.markErrorRaises then h.tables
      else ItemsRun(ItemStep(t, rs[0], env), rs[1..], env)
  }

  /** processJob. */
  function JobOf(t: Tables, env: JobEnv): Tables
  {
    var (t0, initialized) := InitializeOf(t, env.pid);
    if !initialized then t
    else
      var t1 := SkipOf(t0, env.joined);
      ClearOf(ItemsRun(t1, FetchInitialRequests(t1, env.joined), env), env.pid)
  }

  // ---- properties ----

  /** The listener writes assignments, state rows, the queue, its history and the registry row only. */
  predicate ListenerFrame(t: Tables, t': Tables)
  {
    t' == t.(assigns := t'.assigns, assignStates := t'.assignStates, queue := t'.queue,
             queueHistory := t'.queueHistory, process := t'.process)
  }

  /** A registry row held by another process, or none at all, aborts the job with nothing written. */
  lemma OtherOwnerAbortsJob(t: Tables, env: JobEnv)
    requires t.process != Some(None)
    ensures JobOf(t, env) == t
  {
  }

  lemma SkipQueue(t: Tables, joined: map<int, ServiceChange>)
    ensures var t' := SkipOf(t, joined);
      && (forall k :: k in t'.queue <==> k in t.queue && t.queue[k].status != SkippedStatus && !Unqualified(t, k, joined))
      && (forall k :: k in t'.queue ==> t'.queue[k] == t.queue[k])
  {
    var t1 := MarkUnqualifiedSkipped(t, joined);
    var t' := SkipOf(t, joined);
    assert t'.queue == DeleteSkipped(t1).queue;
    forall k | k in t.queue
      ensures k in t'.queue <==> t.queue[k].status != SkippedStatus && !Unqualified(t, k, joined)
    {
      assert k in t1.queue;
    }
  }

  lemma SkipHistory(t: Tables, joined: map<int, ServiceChange>)
    ensures var t' := SkipOf(t, joined);
      && |t.queueHistory| <= |t'.queueHistory| && t'.queueHistory[..|t.queueHistory|] == t.queueHistory
      && (forall k :: k in t.queue && (t.queue[k].status == SkippedStatus || Unqualified(t, k, joined)) ==>
            QueueHistItem(k, SkippedStatus) in t'.queueHistory[|t.queueHistory|..])
  {
    var t1 := MarkUnqualifiedSkipped(t, joined);
    var ids := SortedElements(SkippedIds(t1.queue));
    var rows := HistoryRows(ids, SkippedStatus);
    var t' := SkipOf(t, joined);
    assert t'.queueHistory == t.queueHistory + rows;
    assert t'.queueHistory[|t.queueHistory|..] == rows;
    SortedElementsSpec(SkippedIds(t1.queue));
    forall k | k in t.queue && (t.queue[k].status == SkippedStatus || Unqualified(t, k, joined))
      ensures QueueHistItem(k, SkippedStatus) in rows
    {
      assert k in SkippedIds(t1.queue);
      var i :| 0 <= i < |ids| && ids[i] == k;
      assert rows[i] == QueueHistItem(k, SkippedStatus);
    }
  }

  /** Skipping removes exactly the skipped and unqualified entries, archives each, and keeps the rest as they were. */
  lemma SkipArchivesUnqualified(t: Tables, joined: map<int, ServiceChange>)
    ensures var t' := SkipOf(t, joined);
      && ListenerFrame(t, t')
      && t'.assigns == t.assigns && t'.assignStates == t.assignStates && t'.process == t.process
      && (forall k :: k in t'.queue <==> k in t.queue && t.queue[k].status != SkippedStatus && !Unqualified(t, k, joined))
      && (forall k :: k in t'.queue ==> t'.queue[k] == t.queue[k])
      && |t.queueHistory| <= |t'.queueHistory| && t'.queueHistory[..|t.queueHistory|] == t.queueHistory
      && (forall k :: k in t.queue && (t.queue[k].status == SkippedStatus || Unqualified(t, k, joined)) ==>
            QueueHistItem(k, SkippedStatus) in t'.queueHistory[|t.queueHistory|..])
  {
    SkipQueue(t, joined);
    SkipHistory(t, joined);
  }

  /** The fetched requests: each pending entry once, by ascending request number, with its own fields. */
  lemma FetchInitialRequestsSpec(t: Tables, joined: map<int, ServiceChange>)
    ensures var rs := FetchInitialRequests(t, joined);
      && (forall i, j :: 0 <= i < j < |rs| ==> rs[i].request < rs[j].request)
      && (forall i :: 0 <= i < |rs| ==>
            var k := rs[i].request;
            k in t.queue && t.queue[k].status == InitialStatus && k in joined
            && rs[i] == ToRequest(k, t.queue[k], joined[k]))
      && (forall k :: k in t.queue && t.queue[k].status == InitialStatus && k in joined ==>
            exists i :: 0 <= i < |rs| && rs[i].request == k)
  {
    var ids := SortedElements(PendingIds(t, joined));
    var rs := FetchInitialRequests(t, joined);
    SortedElementsSpec(PendingIds(t, joined));
    assert forall i :: 0 <= i < |rs| ==> rs[i].request == ids[i];
    forall k | k in t.queue && t.queue[k].status == InitialStatus && k in joined
      ensures exists i :: 0 <= i < |rs| && rs[i].request == k
    {
      assert k in PendingIds(t, joined);
      var i :| 0 <= i < |ids| && ids[i] == k;
      assert rs[i].request == k;
    }
  }

  /**
   * The entry's fate follows the handler's outcome: handled without a fault,
   * it leaves the queue with one P history row; otherwise it stays, marked E.
   * The handler itself never touches the queue.
   */
  lemma ItemFate(t: Tables, r: GmdRequest, env: JobEnv)
    requires r.request in t.queue
    ensures var h := HandleOf(t, r, env.handlerEnvs(r.request));
      var t' := ItemStep(t, r, env);
      && t'.assigns == h.tables.assigns && t'.assignStates == h.tables.assignStates
      && (h.thrown.None? ==>
            && t'.queue == t.queue - {r.request}
            && t'.queueHistory == t.queueHistory + [QueueHistItem(r.request, ProcessedStatus)])
      && (h.thrown.Some? ==>
            && t'.queue == t.queue[r.request := t.queue[r.request].(status := ErrorStatus)]
            && t'.queueHistory == t.queueHistory)
  {
    HandlerFrame(t, r, env.handlerEnvs(r.request));
  }

  /** One pass changes the queue at the entry's own request number only, and leaves it P-archived or E. */
  lemma ItemStepQueue(t: Tables, r: GmdRequest, env: JobEnv)
    ensures var t' := ItemStep(t, r, env);
      && ListenerFrame(t, t') && t'.process == t.process
      && (forall k :: k in t'.queue ==> k in t.queue)
      && (forall k :: k in t'.queue && k != r.request ==> t'.queue[k] == t.queue[k])
      && (r.request in t'.queue ==> t'.queue[r.request].status == ErrorStatus)
  {
    HandlerFrame(t, r, env.handlerEnvs(r.request));
  }

  lemma {:induction false} ItemsRunFrame(t: Tables, rs: seq<GmdRequest>, env: JobEnv)
    ensures ListenerFrame(t, ItemsRun(t, rs, env)) && ItemsRun(t, rs, env).process == t.process
    decreases |rs|
  {
    if rs != [] {
      HandlerFrame(t, rs[0], env.handlerEnvs(rs[0].request));
      ItemStepQueue(t, rs[0], env);
      ItemsRunFrame(ItemStep(t, rs[0], env), rs[1..], env);
    }
  }

  /**
   * When marking an entry E succeeds, every initial entry among the requests
   * handed over leaves the initial status.
   */
  lemma {:induction false} ItemsRunClearsInitials(t: Tables, rs: seq<GmdRequest>, env: JobEnv)
    requires forall k :: k in t.queue && t.queue[k].status == InitialStatus ==>
      exists i :: 0 <= i < |rs| && rs[i].request == k
    ensures !env.markErrorRaises ==>
      forall k :: k in ItemsRun(t, rs, env).queue ==> ItemsRun(t, rs, env).queue[k].status != InitialStatus
    decreases |rs|
  {
    if rs != [] && !env.markErrorRaises {
      var t' := ItemStep(t, rs[0], env);
      ItemStepQueue(t, rs[0], env);
      forall k | k in t'.queue && t'.queue[k].status == InitialStatus
        ensures exists i :: 0 <= i < |rs[1..]| && rs[1..][i].request == k
      {
        assert k != rs[0].request;
        var i :| 0 <= i < |rs| && rs[i].request == k;
        assert rs[1..][i - 1].request == k;
      }
      ItemsRunClearsInitials(t', rs[1..], env);
    }
  }

  /**
   * When the handler raises and marking the entry E raises as well, the loop
   * ends there: the queue is as it was before the entry, which stays as it
   * was, and no later entry is handled.
   */
  lemma ErrorMarkFaultEndsLoop(t: Tables, rs: seq<GmdRequest>, env: JobEnv)
    requires rs != [] && env.markErrorRaises
    requires HandleOf(t, rs[0], env.handlerEnvs(rs[0].request)).thrown.Some?
    ensures ItemsRun(t, rs, env) == HandleOf(t, rs[0], env.handlerEnvs(rs[0].request)).tables
    ensures ItemsRun(t, rs, env).queue == t.queue && ItemsRun(t, rs, env).queueHistory == t.queueHistory
  {
    HandlerFrame(t, rs[0], env.handlerEnvs(rs[0].request));
  }

  /**
   * A job that claims the registry row writes only the listener's tables and
   * frees the row again; when marking an entry E succeeds, no queue entry is
   * still initial afterwards.
   */
  lemma JobSettlesQueue(t: Tables, env: JobEnv)
    requires t.process == Some(None)
    ensures var t' := JobOf(t, env);
      && ListenerFrame(t, t')
      && t'.process == Some(None)
      && (!env.markErrorRaises ==> forall k :: k in t'.queue ==> t'.queue[k].status != InitialStatus)
  {
    var t0 := t.(process := Some(Some(env.pid)));
    var t1 := SkipOf(t0, env.joined);
    var rs := FetchInitialRequests(t1, env.joined);
    assert JobOf(t, env) == ClearOf(ItemsRun(t1, rs, env), env.pid);
    SkipArchivesUnqualified(t0, env.joined);
    ItemsRunFrame(t1, rs, env);
    if !env.markErrorRaises {
      FetchCoversPending(t0, env.joined);
      ItemsRunClearsInitials(t1, rs, env);
    }
  }

  /** After skipping, every entry still initial is among the fetched requests. */
  lemma FetchCoversPending(t0: Tables, joined: map<int, ServiceChange>)
    ensures var t1 := SkipOf(t0, joined);
      var rs := FetchInitialRequests(t1, joined);
      forall k :: k in t1.queue && t1.queue[k].status == InitialStatus ==> exists i :: 0 <= i < |rs| && rs[i].request == k
  {
    var t1 := SkipOf(t0, joined);
    var rs := FetchInitialRequests(t1, joined);
    SkipArchivesUnqualified(t0, joined);
    FetchInitialRequestsSpec(t1, joined);
    forall k | k in t1.queue && t1.queue[k].status == InitialStatus
      ensures exists i :: 0 <= i < |rs| && rs[i].request == k
    {
      assert !Unqualified(t0, k, joined);
      assert k in joined;
    }
  }

  // ---- the service ----

  /** initializeJob. */
  method InitializeJob(pid: int, db: Database) returns (initialized: bool)
    modifies db
    ensures (db.tables, initialized) == InitializeOf(old(db.tables), pid)
  {
    if db.tables.process != Some(None) {
      return false;
    }
    db.tables := db.tables.(process := Some(Some(pid)));
    initialized := true;
  }

  /** clearProcessId. */
  method ClearProcessId(pid: int, db: Database)
    modifies db
    ensures db.tables == ClearOf(old(db.tables), pid)
  {
    if db.tables.process == Some(Some(pid)) {
      db.tables := db.tables.(process := Some(None));
    }
  }

  /** skipUnqualifiedAndArchive: the three statements in one transaction. */
  method SkipUnqualifiedAndArchive(joined: map<int, ServiceChange>, db: Database)
    modifies db
    ensures db.tables == SkipOf(old(db.tables), joined)
  {
    db.tables := MarkUnqualifiedSkipped(db.tables, joined);
    db.tables := ArchiveSkipped(db.tables);
    db.tables := DeleteSkipped(db.tables);
  }

  /** markAsProcessedAndArchive. */
  method MarkAsProcessedAndArchive(k: int, db: Database)
    modifies db
    ensures db.tables == MarkProcessedOf(old(db.tables), k)
  {
    if k in db.tables.queue {
      db.tables := db.tables.(queue := db.tables.queue - {k},
                              queueHistory := db.tables.queueHistory + [QueueHistItem(k, ProcessedStatus)]);
    }
  }

  /** markAsError; refused when no transaction is open around it. */
  method MarkAsError(k: int, refused: bool, db: Database) returns (thrown: bool)
    modifies db
    ensures thrown == refused
    ensures db.tables == if refused then old(db.tables) else MarkErrorOf(old(db.tables), k)
  {
    thrown := refused;
    if !refused && k in db.tables.queue {
      db.tables := db.tables.(queue := db.tables.queue[k := db.tables.queue[k].(status := ErrorStatus)]);
    }
  }

  /** processJob. */
  method ProcessJob(env: JobEnv, db: Database)
    modifies db
    ensures db.tables == JobOf(old(db.tables), env)
  {
    var initialized := InitializeJob(env.pid, db);
    if !initialized {
      return;
    }
    SkipUnqualifiedAndArchive(env.joined, db);
    var initialRequests := FetchInitialRequests(db.tables, env.joined);
    ghost var t1 := db.tables;
    ghost var target := ItemsRun(t1, initialRequests, env);
    var i := 0;
    var stopped := false;
    while i < |initialRequests| && !stopped
      invariant 0 <= i <= |initialRequests|
      invariant !stopped ==> ItemsRun(db.tables, initialRequests[i..], env) == target
      invariant stopped ==> db.tables == target
    {
      var request := initialRequests[i];
      var thrown := HandleAction(request, env.handlerEnvs(request.request), db);
      if thrown.None? {
        MarkAsProcessedAndArchive(request.request, db);
      } else {
        stopped := MarkAsError(request.request, env.markErrorRaises, db);
      }
      assert initialRequests[i..][1..] == initialRequests[i + 1..];
      i := i + 1;
    }
    if !stopped {
      assert initialRequests[i..] == [];
    }
    ClearProcessId(env.pid, db);
  }
}
