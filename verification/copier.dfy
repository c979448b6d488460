/**
 * The copier itself (`TempoWorklogCopier` in tempo-copy-worklog.py): the fetch
 * window, the status check on a create request, and the batch loop of
 * `copy_week`. The remote worklog API is an object whose answers are fixed
 * functions chosen by the environment; it records every create request it
 * receives, so "no remote change" is a statement about that record.
 */
module Copier {
  import opened Wrappers
  import opened CivilDate
  import opened Worklogs

  /** What the operator is told about one record. */
  datatype Report =
    | WouldCreate(payload: Payload)              // dry run: the payload that would be sent
    | Created(payload: Payload)                  // live: the API accepted it
    | CreateFailed(payload: Payload, status: int) // live: the API answered with another status

  /** Why the fetch produced no records: the window end is past 9999-12-31, or the API refused. */
  datatype FetchError = WindowOutOfRange | FetchRejected

  /** How a `copy_week` run ends. `Aborted` is an exception raised by the transform of record `index`. */
  datatype CopyOutcome =
    | FetchFailed(reason: FetchError)
    | NothingToCopy
    | Finished
    | Aborted(index: nat, error: TransformError)

  /** The API's answer to a worklog query for (account id, from, to), None for a non-2xx answer. */
  type FetchAnswer = (string, string, string) -> Option<seq<SourceWorklog>>
  /** The HTTP status the API answers to a create request, given the requests it received before. */
  type CreateAnswer = (seq<Payload>, Payload) -> int

  class WorklogApi {
    const worklogsFor: FetchAnswer
    const respond: CreateAnswer
    /** Every create request received so far, in order. */
    var received: seq<Payload>

    constructor (worklogsFor: FetchAnswer, respond: CreateAnswer)
      ensures this.worklogsFor == worklogsFor && this.respond == respond && received == []
    {
      this.worklogsFor := worklogsFor;
      this.respond := respond;
      received := [];
    }

    /** One POST to the create endpoint. */
    method Create(p: Payload) returns (status: int)
      modifies this
      ensures received == old(received) + [p]
      ensures status == respond(old(received), p)
    {
      status := respond(received, p);
      received := received + [p];
    }
  }

  // ---------------------------------------------------------------------------
  // The fetch window and the status check
  // ---------------------------------------------------------------------------

  /** The last day of the week starting at `start`; None where Python's date arithmetic overflows. */
  function WeekEnd(start: Date): (r: Option<Date>)
    requires Valid(start)
    ensures r.Some? <==> InRange(start, 6)
    ensures r.Some? ==> Valid(r.value) && DaysBetween(start, r.value) == 6
  {
    if InRange(start, 6) then Some(AddDays(start, 6)) else None
  }

  /** The window is exactly the seven calendar days from `start` to its week end, both included. */
  lemma WeekWindow(start: Date, d: Date)
    requires Valid(start) && Valid(d) && WeekEnd(start).Some?
    ensures (!Before(d, start) && !Before(WeekEnd(start).value, d)) <==> 0 <= DaysBetween(start, d) <= 6
  {
    OrdinalOrder(d, start);
    OrdinalOrder(WeekEnd(start).value, d);
  }

  /** A create request succeeded exactly when the status is in 200..299. */
  predicate IsSuccessStatus(status: int) {
    200 <= status <= 299
  }

  /** The report for one create request. */
  function PostReport(p: Payload, status: int): (r: Report)
    ensures r.payload == p && !r.WouldCreate?
    ensures r.Created? <==> 200 <= status <= 299
    ensures r.CreateFailed? ==> r.status == status
  {
    if IsSuccessStatus(status) then Created(p) else CreateFailed(p, status)
  }

  /** The report for one payload: what a dry run would create, or how the create request went. */
  function Dispatched(dryRun: bool, p: Payload, respond: CreateAnswer, history: seq<Payload>): (r: Report)
    ensures r.payload == p
    ensures r.WouldCreate? <==> dryRun
  {
    if dryRun then WouldCreate(p) else PostReport(p, respond(history, p))
  }

  /** The create requests one payload causes: none in a dry run, the payload itself otherwise. */
  function SentFor(dryRun: bool, p: Payload): seq<Payload> {
    if dryRun then [] else [p]
  }

  // ---------------------------------------------------------------------------
  // The batch
  // ---------------------------------------------------------------------------

  /** What a run leaves behind: the reports, the create requests sent, and how it ended. */
  datatype BatchRun = BatchRun(reports: seq<Report>, sent: seq<Payload>, outcome: CopyOutcome)

  /** ts holds, in order, the transform result of every record of ws. */
  ghost predicate TransformedFrom(ts: seq<Result<Payload, TransformError>>, ws: seq<SourceWorklog>,
                                  delta: int, accountId: string)
  {
    && |ts| == |ws|
    && forall k {:trigger PrepareNewWorklog(ws[k], delta, accountId)} ::
         0 <= k < |ws| ==> ts[k] == PrepareNewWorklog(ws[k], delta, accountId)
  }

  /** The transform applied to every fetched record with the one delta and account id. */
  function Transforms(ws: seq<SourceWorklog>, delta: int, accountId: string): (ts: seq<Result<Payload, TransformError>>)
    ensures TransformedFrom(ts, ws, delta, accountId)
  {
    if ws == [] then []
    else [PrepareNewWorklog(ws[0], delta, accountId)] + Transforms(ws[1..], delta, accountId)
  }

  /** Transforms record i of a fetched batch, whose results are ts. */
  method PrepareAt(ws: seq<SourceWorklog>, i: nat, delta: int, accountId: string,
                   ghost ts: seq<Result<Payload, TransformError>>)
    returns (r: Result<Payload, TransformError>)
    requires i < |ws| && TransformedFrom(ts, ws, delta, accountId)
    ensures r == ts[i]
  {
    r := PrepareNewWorklog(ws[i], delta, accountId);
  }

  /**
   * The loop of `copy_week` from record i on, given the transform results ts
   * of the fetched records: each result is reported (dry run) or sent (live)
   * in turn; an error ends the run at that record, a failed create request
   * does not. `history` is what the API received before this point.
   */
  function RunBatch(ts: seq<Result<Payload, TransformError>>, i: nat, dryRun: bool,
                    respond: CreateAnswer, history: seq<Payload>): BatchRun
    requires i <= |ts|
    decreases |ts| - i
  {
    if i == |ts| then BatchRun([], [], Finished)
    else match ts[i]
      case Err(e) => BatchRun([], [], Aborted(i, e))
      case Ok(p) =>
        var rest := RunBatch(ts, i + 1, dryRun, respond, history + SentFor(dryRun, p));
        BatchRun([Dispatched(dryRun, p, respond, history)] + rest.reports, SentFor(dryRun, p) + rest.sent, rest.outcome)
  }

  /** One step of the batch, with what was reported and sent before it: the form a loop keeps. */
  lemma RunBatchStep(ts: seq<Result<Payload, TransformError>>, i: nat, dryRun: bool, respond: CreateAnswer,
                     history: seq<Payload>, doneReports: seq<Report>, doneSent: seq<Payload>)
    requires i < |ts| && ts[i].Ok?
    ensures var p := ts[i].value;
      var r := RunBatch(ts, i, dryRun, respond, history);
      var rest := RunBatch(ts, i + 1, dryRun, respond, history + SentFor(dryRun, p));
      && doneReports + r.reports == (doneReports + [Dispatched(dryRun, p, respond, history)]) + rest.reports
      && doneSent + r.sent == (doneSent + SentFor(dryRun, p)) + rest.sent
      && r.outcome == rest.outcome
  {
  }

  /** The whole of `copy_week`: window, fetch, the empty case, then the batch with delta = destination - source. */
  function CopyWeekRun(sourceStart: Date, destinationStart: Date, accountId: string, dryRun: bool,
                       worklogsFor: FetchAnswer, respond: CreateAnswer, history: seq<Payload>): BatchRun
    requires Valid(sourceStart) && Valid(destinationStart)
  {
    match WeekEnd(sourceStart)
    case None => BatchRun([], [], FetchFailed(WindowOutOfRange))
    case Some(end) =>
      match worklogsFor(accountId, Format(sourceStart), Format(end))
      case None => BatchRun([], [], FetchFailed(FetchRejected))
      case Some(ws) =>
        if |ws| == 0 then BatchRun([], [], NothingToCopy)
        else RunBatch(Transforms(ws, DaysBetween(sourceStart, destinationStart), accountId), 0, dryRun, respond, history)
  }

  /**
   * Exactly once, in order: the k-th report carries the payload of result
   * i + k, and the run either covers every remaining result or stops at the
   * first error, having reported everything before it.
   */
  lemma {:induction false} RunBatchInOrder(ts: seq<Result<Payload, TransformError>>, i: nat, dryRun: bool,
                                           respond: CreateAnswer, history: seq<Payload>)
    requires i <= |ts|
    ensures var r := RunBatch(ts, i, dryRun, respond, history);
      && (r.outcome.Finished? || r.outcome.Aborted?)
      && (r.outcome.Finished? ==> |r.reports| == |ts| - i)
      && (r.outcome.Aborted? ==>
            && i <= r.outcome.index < |ts| && |r.reports| == r.outcome.index - i
            && ts[r.outcome.index] == Err(r.outcome.error))
      && (forall k :: 0 <= k < |r.reports| ==> ts[i + k] == Ok(r.reports[k].payload))
    decreases |ts| - i
  {
    if i < |ts| && ts[i].Ok? {
      var h' := history + SentFor(dryRun, ts[i].value);
      RunBatchInOrder(ts, i + 1, dryRun, respond, h');
      var rest := RunBatch(ts, i + 1, dryRun, respond, h');
      var r := RunBatch(ts, i, dryRun, respond, history);
      forall k | 0 <= k < |r.reports|
        ensures ts[i + k] == Ok(r.reports[k].payload)
      {
        if k > 0 {
          assert r.reports[k] == rest.reports[k - 1];
          assert i + k == (i + 1) + (k - 1);
        }
      }
    }
  }

  /** A dry run sends nothing and only reports what it would create. */
  lemma {:induction false} RunBatchDry(ts: seq<Result<Payload, TransformError>>, i: nat,
                                       respond: CreateAnswer, history: seq<Payload>)
    requires i <= |ts|
    ensures var r := RunBatch(ts, i, true, respond, history);
      r.sent == [] && forall k :: 0 <= k < |r.reports| ==> r.reports[k].WouldCreate?
    decreases |ts| - i
  {
    if i < |ts| && ts[i].Ok? {
      assert history + SentFor(true, ts[i].value) == history;
      RunBatchDry(ts, i + 1, respond, history);
    }
  }

  /**
   * A live run sends each reported payload once, in order, and reports it by
   * the status the API gave that very request.
   */
  lemma {:induction false} RunBatchLive(ts: seq<Result<Payload, TransformError>>, i: nat,
                                        respond: CreateAnswer, history: seq<Payload>)
    requires i <= |ts|
    ensures var r := RunBatch(ts, i, false, respond, history);
      && |r.sent| == |r.reports|
      && forall k :: 0 <= k < |r.reports| ==>
           r.reports[k] == PostReport(r.sent[k], respond(history + r.sent[..k], r.sent[k]))
    decreases |ts| - i
  {
    if i < |ts| && ts[i].Ok? {
      var p := ts[i].value;
      var h' := history + SentFor(false, p);
      RunBatchLive(ts, i + 1, respond, h');
      var rest := RunBatch(ts, i + 1, false, respond, h');
      var r := RunBatch(ts, i, false, respond, history);
      forall k | 0 <= k < |r.reports|
        ensures r.reports[k] == PostReport(r.sent[k], respond(history + r.sent[..k], r.sent[k]))
      {
        if k > 0 {
          assert r.reports[k] == rest.reports[k - 1] && r.sent[k] == rest.sent[k - 1];
          assert r.sent[..k] == [p] + rest.sent[..k - 1];
          assert history + r.sent[..k] == h' + rest.sent[..k - 1];
        } else {
          assert history + r.sent[..k] == history;
        }
      }
    }
  }

  /** The run finishes exactly when every remaining result is a payload. */
  lemma RunBatchFinishes(ts: seq<Result<Payload, TransformError>>, i: nat, dryRun: bool,
                         respond: CreateAnswer, history: seq<Payload>)
    requires i <= |ts|
    ensures RunBatch(ts, i, dryRun, respond, history).outcome.Finished?
        <==> forall k :: i <= k < |ts| ==> ts[k].Ok?
  {
    RunBatchInOrder(ts, i, dryRun, respond, history);
    var r := RunBatch(ts, i, dryRun, respond, history);
    if r.outcome.Finished? {
      forall k | i <= k < |ts| ensures ts[k].Ok? {
        assert ts[i + (k - i)] == Ok(r.reports[k - i].payload);
      }
    }
  }

  function CountCreated(rs: seq<Report>): (n: nat)
    ensures n <= |rs|
  {
    if rs == [] then 0 else (if rs[0].Created? then 1 else 0) + CountCreated(rs[1..])
  }

  function CountFailed(rs: seq<Report>): (n: nat)
    ensures n <= |rs|
  {
    if rs == [] then 0 else (if rs[0].CreateFailed? then 1 else 0) + CountFailed(rs[1..])
  }

  lemma {:induction false} LiveTally(rs: seq<Report>)
    requires forall k :: 0 <= k < |rs| ==> !rs[k].WouldCreate?
    ensures CountCreated(rs) + CountFailed(rs) == |rs|
  {
    if rs != [] {
      LiveTally(rs[1..]);
    }
  }

  /**
   * A live run over N results that are all payloads makes N create requests
   * and reports each one as either created or failed: K failures leave N - K
   * successes, and the run still finishes.
   */
  lemma LiveRunAccounting(ts: seq<Result<Payload, TransformError>>, respond: CreateAnswer, history: seq<Payload>)
    requires forall k :: 0 <= k < |ts| ==> ts[k].Ok?
    ensures var r := RunBatch(ts, 0, false, respond, history);
      && r.outcome == Finished
      && |r.sent| == |ts|
      && (forall k :: 0 <= k < |ts| ==> r.sent[k] == ts[k].value)
      && CountCreated(r.reports) + CountFailed(r.reports) == |ts|
  {
    RunBatchInOrder(ts, 0, false, respond, history);
    RunBatchLive(ts, 0, respond, history);
    RunBatchFinishes(ts, 0, false, respond, history);
    var r := RunBatch(ts, 0, false, respond, history);
    forall k | 0 <= k < |r.reports| ensures !r.reports[k].WouldCreate? && r.sent[k] == ts[k].value {
      assert r.reports[k] == PostReport(r.sent[k], respond(history + r.sent[..k], r.sent[k]));
      assert ts[0 + k] == Ok(r.reports[k].payload);
    }
    LiveTally(r.reports);
  }

  /** A dry run over N results that are all payloads gives N would-create reports and sends nothing. */
  lemma DryRunAccounting(ts: seq<Result<Payload, TransformError>>, respond: CreateAnswer, history: seq<Payload>)
    requires forall k :: 0 <= k < |ts| ==> ts[k].Ok?
    ensures var r := RunBatch(ts, 0, true, respond, history);
      && r.outcome == Finished
      && r.sent == []
      && |r.reports| == |ts|
      && forall k :: 0 <= k < |ts| ==> r.reports[k] == WouldCreate(ts[k].value)
  {
    RunBatchInOrder(ts, 0, true, respond, history);
    RunBatchDry(ts, 0, respond, history);
    RunBatchFinishes(ts, 0, true, respond, history);
    var r := RunBatch(ts, 0, true, respond, history);
    forall k | 0 <= k < |ts| ensures r.reports[k] == WouldCreate(ts[k].value) {
      assert ts[0 + k] == Ok(r.reports[k].payload);
    }
  }

  /** An empty fetch result or a failed fetch produces no reports and no create requests. */
  lemma CopyWeekNoRecords(sourceStart: Date, destinationStart: Date, accountId: string, dryRun: bool,
                          worklogsFor: FetchAnswer, respond: CreateAnswer, history: seq<Payload>)
    requires Valid(sourceStart) && Valid(destinationStart) && WeekEnd(sourceStart).Some?
    requires worklogsFor(accountId, Format(sourceStart), Format(WeekEnd(sourceStart).value)) in {None, Some([])}
    ensures var r := CopyWeekRun(sourceStart, destinationStart, accountId, dryRun, worklogsFor, respond, history);
      && r.reports == [] && r.sent == []
      && (r.outcome == NothingToCopy || r.outcome == FetchFailed(FetchRejected))
  {
  }

  /** A dry run of `copy_week` sends no create request at all and only reports what it would create. */
  lemma CopyWeekDryRun(sourceStart: Date, destinationStart: Date, accountId: string,
                       worklogsFor: FetchAnswer, respond: CreateAnswer, history: seq<Payload>)
    requires Valid(sourceStart) && Valid(destinationStart)
    ensures var r := CopyWeekRun(sourceStart, destinationStart, accountId, true, worklogsFor, respond, history);
      r.sent == [] && forall k :: 0 <= k < |r.reports| ==> r.reports[k].WouldCreate?
  {
    var end := WeekEnd(sourceStart);
    if end.Some? {
      var answer := worklogsFor(accountId, Format(sourceStart), Format(end.value));
      if answer.Some? && |answer.value| > 0 {
        RunBatchDry(Transforms(answer.value, DaysBetween(sourceStart, destinationStart), accountId), 0, respond, history);
      }
    }
  }

  /**
   * The k-th report of a run is about the k-th fetched record, and its
   * payload is dated that record's start date plus destination_start -
   * source_start calendar days.
   */
  lemma CopyWeekShiftsDates(sourceStart: Date, destinationStart: Date, accountId: string, dryRun: bool,
                            worklogsFor: FetchAnswer, respond: CreateAnswer, history: seq<Payload>,
                            ws: seq<SourceWorklog>, k: nat)
    requires Valid(sourceStart) && Valid(destinationStart) && WeekEnd(sourceStart).Some?
    requires worklogsFor(accountId, Format(sourceStart), Format(WeekEnd(sourceStart).value)) == Some(ws)
    requires k < |CopyWeekRun(sourceStart, destinationStart, accountId, dryRun, worklogsFor, respond, history).reports|
    ensures var delta := DaysBetween(sourceStart, destinationStart);
      var p := CopyWeekRun(sourceStart, destinationStart, accountId, dryRun, worklogsFor, respond, history).reports[k].payload;
      && k < |ws| && PrepareNewWorklog(ws[k], delta, accountId) == Ok(p)
      && p.startDate == Format(AddDays(Parse(ws[k].startDate.value).value, delta))
  {
    var delta := DaysBetween(sourceStart, destinationStart);
    var ts := Transforms(ws, delta, accountId);
    assert CopyWeekRun(sourceStart, destinationStart, accountId, dryRun, worklogsFor, respond, history)
        == RunBatch(ts, 0, dryRun, respond, history);
    RunBatchInOrder(ts, 0, dryRun, respond, history);
    var r := RunBatch(ts, 0, dryRun, respond, history);
    assert ts[0 + k] == Ok(r.reports[k].payload);
    PrepareSucceedsIff(ws[k], delta, accountId);
    PayloadStartDate(ws[k], delta, accountId);
  }

  // ---------------------------------------------------------------------------
  // The copier object
  // ---------------------------------------------------------------------------

  class TempoWorklogCopier {
    const apiToken: string
    const userAccountId: string
    const dryRun: bool
    /** The API endpoint the copier talks to (its base URL and bearer-token headers). */
    const api: WorklogApi
    /** What the copier has reported to the operator, in order. */
    var reports: seq<Report>

    constructor (apiToken: string, userAccountId: string, dryRun: bool, api: WorklogApi)
      ensures this.apiToken == apiToken && this.userAccountId == userAccountId
      ensures this.dryRun == dryRun && this.api == api && reports == []
    {
      this.apiToken := apiToken;
      this.userAccountId := userAccountId;
      this.dryRun := dryRun;
      this.api := api;
      reports := [];
    }

    /** The worklogs of the week starting at `startDate`: a query for [start, start + 6 days]. */
    method GetWorklogsForWeek(startDate: Date) returns (r: Result<seq<SourceWorklog>, FetchError>)
      requires Valid(startDate)
      ensures !InRange(startDate, 6) ==> r == Err(WindowOutOfRange)
      ensures InRange(startDate, 6) ==>
        var answer := api.worklogsFor(userAccountId, Format(startDate), Format(AddDays(startDate, 6)));
        r == if answer.Some? then Ok(answer.value) else Err(FetchRejected)
    {
      var endDate := WeekEnd(startDate);
      if endDate.None? {
        return Err(WindowOutOfRange);
      }
      var answer := api.worklogsFor(userAccountId, Format(startDate), Format(endDate.value));
      if answer.None? {
        return Err(FetchRejected);
      }
      r := Ok(answer.value);
    }

    /** Sends one payload and reports the outcome by its status. */
    method PostWorklog(payload: Payload)
      modifies this, api
      ensures api.received == old(api.received) + [payload]
      ensures reports == old(reports) + [PostReport(payload, api.respond(old(api.received), payload))]
    {
      var status := api.Create(payload);
      if IsSuccessStatus(status) {
        reports := reports + [Created(payload)];
      } else {
        reports := reports + [CreateFailed(payload, status)];
      }
    }

    /** The body of the copy loop for one payload: report it in a dry run, send it otherwise. */
    method Dispatch(payload: Payload)
      modifies this, api
      ensures api.received == old(api.received) + SentFor(dryRun, payload)
      ensures reports == old(reports) + [Dispatched(dryRun, payload, api.respond, old(api.received))]
    {
      if dryRun {
        reports := reports + [WouldCreate(payload)];
      } else {
        PostWorklog(payload);
      }
    }

    /**
     * The loop of `copy_week`: every fetched record is transformed with the one
     * delta and dispatched, in order, until the transform of some record fails.
     */
    method CopyBatch(ws: seq<SourceWorklog>, delta: int, ghost ts: seq<Result<Payload, TransformError>>)
      returns (outcome: CopyOutcome)
      requires TransformedFrom(ts, ws, delta, userAccountId)
      modifies this, api
      ensures var run := RunBatch(ts, 0, dryRun, api.respond, old(api.received));
        && outcome == run.outcome
        && reports == old(reports) + run.reports
        && api.received == old(api.received) + run.sent
    {
      ghost var respond := api.respond;
      ghost var run := RunBatch(ts, 0, dryRun, respond, api.received);
      // The state so far, as reported and as received by the API.
      ghost var shown, received := reports, api.received;
      var i := 0;
      while i < |ws|
        invariant 0 <= i <= |ws|
        invariant reports == shown && api.received == received
        invariant old(reports) + run.reports == shown + RunBatch(ts, i, dryRun, respond, received).reports
        invariant old(api.received) + run.sent == received + RunBatch(ts, i, dryRun, respond, received).sent
        invariant run.outcome == RunBatch(ts, i, dryRun, respond, received).outcome
      {
        var next := PrepareAt(ws, i, delta, userAccountId, ts);
        if next.Err? {
          return Aborted(i, next.error);
        }
        ghost var report := Dispatched(dryRun, next.value, respond, received);
        ghost var sentNow := SentFor(dryRun, next.value);
        RunBatchStep(ts, i, dryRun, respond, received, shown, received);
        Dispatch(next.value);
        shown, received := shown + [report], received + sentNow;
        i := i + 1;
      }
      outcome := Finished;
    }

    /** Copies the worklogs of the source week into the destination week. */
    method CopyWeek(sourceStart: Date, destinationStart: Date) returns (outcome: CopyOutcome)
      requires Valid(sourceStart) && Valid(destinationStart)
      modifies this, api
      ensures var run := CopyWeekRun(sourceStart, destinationStart, userAccountId, dryRun,
                                     api.worklogsFor, api.respond, old(api.received));
        && outcome == run.outcome
        && reports == old(reports) + run.reports
        && api.received == old(api.received) + run.sent
    {
      var fetched := GetWorklogsForWeek(sourceStart);
      if fetched.Err? {
        return FetchFailed(fetched.error);
      }
      var ws := fetched.value;
      if |ws| == 0 {
        return NothingToCopy;
      }
      var delta := DaysBetween(sourceStart, destinationStart);
      outcome := CopyBatch(ws, delta, Transforms(ws, delta, userAccountId));
    }
  }
}
