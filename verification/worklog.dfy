/**
 * From loaded rows to worklog submissions: `load_data`'s derived columns,
 * `process_data`'s rounding and payloads, and `post_worklog_to_jira`'s
 * reduction of the response to its `timeSpent` field.
 */
module Worklog {
  import opened Options
  import opened Rounding
  import opened Tickets
  import opened Grouping

  /** One CSV row: `Description`, `Start date` as written, `Duration` in whole seconds. */
  datatype Row = Row(description: string, startDate: string, seconds: nat)

  /** One row of the grouped frame after the `Rounded Duration` column is added. */
  datatype Aggregate = Aggregate(ticket: string, date: string, total: nat, rounded: nat)

  /** The JSON body of a worklog request. */
  datatype Payload = Payload(comment: string, started: string, timeSpentSeconds: nat)

  /** One POST: the issue it goes to and the body it carries. */
  datatype Call = Call(ticket: string, payload: Payload)

  /** What the operator is told for one aggregate. */
  datatype Report = Report(ticket: string, date: string, timeSpent: string)

  /** Whether the loop ran to the end or an exception ended it. */
  datatype Outcome = Completed | Aborted(error: string)

  /** The decoded JSON object of a response, reduced to its string-valued fields. */
  type Response = map<string, string>

  /** The POST itself, left abstract: it answers with a response or raises. */
  type Poster = (string, Payload) -> Result<Response, string>

  const StartedSuffix: string := "T12:00:00.000+0000"

  const MissingTimeSpent: string := "No timeSpent field in response"

  /** The derived columns `Ticket Number`, `Date` and `Duration` of one row. */
  function LoadEntry(row: Row): Entry
  {
    Entry(ExtractTicket(row.description), row.startDate, row.seconds)
  }

  function LoadEntries(rows: seq<Row>): seq<Entry>
  {
    seq(|rows|, n requires 0 <= n < |rows| => LoadEntry(rows[n]))
  }

  /** `round_up_duration` applied to each group's total. */
  function RoundGroups(gs: seq<Group>, incrementMinutes: nat): seq<Aggregate>
    requires incrementMinutes > 0
  {
    seq(|gs|, i requires 0 <= i < |gs| =>
      Aggregate(gs[i].key.ticket, gs[i].key.date, gs[i].total, RoundUp(gs[i].total, incrementMinutes)))
  }

  /** The grouped and rounded frame `process_data` iterates over. */
  function Aggregates(rows: seq<Row>, incrementMinutes: nat): seq<Aggregate>
    requires incrementMinutes > 0
  {
    RoundGroups(GroupAndSum(LoadEntries(rows)), incrementMinutes)
  }

  function BuildPayload(a: Aggregate): Payload
  {
    Payload("", a.date + StartedSuffix, a.rounded)
  }

  /** Recovers the date from a `started` stamp built by `BuildPayload`. */
  function StartedDate(started: string): Option<string>
  {
    if |started| >= |StartedSuffix| && started[|started| - |StartedSuffix|..] == StartedSuffix
    then Some(started[..|started| - |StartedSuffix|])
    else None
  }

  /** `response_data.get("timeSpent", "No timeSpent field in response")`. */
  function TimeSpentOf(response: Response): string
  {
    if "timeSpent" in response then response["timeSpent"] else MissingTimeSpent
  }

  function AggregateKeys(aggs: seq<Aggregate>): set<Key>
  {
    set i | 0 <= i < |aggs| :: Key(aggs[i].ticket, aggs[i].date)
  }

  function SumRaw(aggs: seq<Aggregate>): nat
  {
    if |aggs| == 0 then 0 else aggs[0].total + SumRaw(aggs[1..])
  }

  function SumRounded(aggs: seq<Aggregate>): nat
  {
    if |aggs| == 0 then 0 else aggs[0].rounded + SumRounded(aggs[1..])
  }

  /**
   * The loop of `process_data`: one POST per aggregate, in order, until a
   * POST raises; that exception ends the run, so later aggregates are never
   * sent.
   */
  method SubmitAll(aggs: seq<Aggregate>, post: Poster)
    returns (calls: seq<Call>, reports: seq<Report>, outcome: Outcome)
    ensures |calls| <= |aggs|
    ensures |calls| == |reports| + (if outcome.Aborted? then 1 else 0)
    ensures outcome.Completed? ==> |calls| == |aggs|
    ensures forall j :: 0 <= j < |calls| ==>
      calls[j] == Call(aggs[j].ticket, Payload("", aggs[j].date + StartedSuffix, aggs[j].rounded))
    ensures forall j :: 0 <= j < |reports| ==>
      && post(calls[j].ticket, calls[j].payload).Success?
      && var response := post(calls[j].ticket, calls[j].payload).value;
         reports[j] == Report(aggs[j].ticket, aggs[j].date,
                              if "timeSpent" in response then response["timeSpent"] else MissingTimeSpent)
    ensures outcome.Aborted? ==> post(calls[|reports|].ticket, calls[|reports|].payload) == Failure(outcome.error)
  {
    calls, reports, outcome := [], [], Completed;
    var i := 0;
    while i < |aggs|
      invariant i <= |aggs|
      invariant |calls| == i && |reports| == i
      invariant forall j :: 0 <= j < i ==>
        calls[j] == Call(aggs[j].ticket, Payload("", aggs[j].date + StartedSuffix, aggs[j].rounded))
      invariant forall j :: 0 <= j < i ==>
        && post(calls[j].ticket, calls[j].payload).Success?
        && var response := post(calls[j].ticket, calls[j].payload).value;
           reports[j] == Report(aggs[j].ticket, aggs[j].date,
                                if "timeSpent" in response then response["timeSpent"] else MissingTimeSpent)
    {
      var a := aggs[i];
      var call := Call(a.ticket, BuildPayload(a));
      calls := calls + [call];
      var answer := post(call.ticket, call.payload);
      match answer {
        case Failure(e) =>
          outcome := Aborted(e);
          return;
        case Success(response) =>
          reports := reports + [Report(a.ticket, a.date, TimeSpentOf(response))];
      }
      i := i + 1;
    }
  }

  /**
   * The whole of `process_data` over loaded rows: group, round, and submit.
   * Every POST goes to a ticket some description really holds, for a whole
   * number of increments, in ascending `(ticket, date)` order.
   */
  method ProcessData(rows: seq<Row>, incrementMinutes: nat, post: Poster)
    returns (calls: seq<Call>, reports: seq<Report>, outcome: Outcome)
    requires incrementMinutes > 0
    ensures var gs := GroupAndSum(LoadEntries(rows));
      && |calls| <= |gs|
      && (outcome.Completed? ==> |calls| == |gs|)
      && forall j :: 0 <= j < |calls| ==>
           calls[j] == Call(gs[j].key.ticket,
                            Payload("", gs[j].key.date + StartedSuffix, RoundUp(gs[j].total, incrementMinutes)))
    ensures forall j :: 0 <= j < |calls| ==>
      && IsTicketShaped(calls[j].ticket)
      && exists n :: 0 <= n < |rows| && ExtractTicket(rows[n].description) == Some(calls[j].ticket)
    ensures forall j :: 0 <= j < |calls| ==>
      calls[j].payload.timeSpentSeconds % IncrementSeconds(incrementMinutes) == 0
    ensures |calls| == |reports| + (if outcome.Aborted? then 1 else 0)
    ensures var aggs := Aggregates(rows, incrementMinutes);
      forall j :: 0 <= j < |reports| ==>
        && post(calls[j].ticket, calls[j].payload).Success?
        && var response := post(calls[j].ticket, calls[j].payload).value;
           reports[j] == Report(aggs[j].ticket, aggs[j].date,
                                if "timeSpent" in response then response["timeSpent"] else MissingTimeSpent)
    ensures outcome.Aborted? ==> post(calls[|reports|].ticket, calls[|reports|].payload) == Failure(outcome.error)
  {
    var entries := LoadEntries(rows);
    var gs := GroupAndSum(entries);
    GroupAndSumCorrect(entries);
    calls, reports, outcome := SubmitAll(RoundGroups(gs, incrementMinutes), post);
    forall j | 0 <= j < |calls|
      ensures exists n :: 0 <= n < |rows| && ExtractTicket(rows[n].description) == Some(calls[j].ticket)
    {
      assert gs[j].key in GroupKeys(gs);
      var n :| 0 <= n < |entries| && HasKey(entries[n], gs[j].key);
      assert ExtractTicket(rows[n].description) == Some(calls[j].ticket);
    }
  }

  /** The date can be read back from the `started` stamp of a payload. */
  lemma StartedRoundTrip(a: Aggregate)
    ensures StartedDate(BuildPayload(a).started) == Some(a.date)
  {
    var started := a.date + StartedSuffix;
    assert started[|started| - |StartedSuffix|..] == StartedSuffix;
    assert started[..|started| - |StartedSuffix|] == a.date;
  }

  lemma {:induction false} SumRawOfRoundGroups(gs: seq<Group>, incrementMinutes: nat)
    requires incrementMinutes > 0
    ensures |RoundGroups(gs, incrementMinutes)| == |gs|
    ensures forall i :: 0 <= i < |gs| ==> RoundGroups(gs, incrementMinutes)[i].total == gs[i].total
    ensures SumRaw(RoundGroups(gs, incrementMinutes)) == SumTotals(gs)
  {
    if |gs| > 0 {
      assert RoundGroups(gs, incrementMinutes)[1..] == RoundGroups(gs[1..], incrementMinutes);
      SumRawOfRoundGroups(gs[1..], incrementMinutes);
    }
  }

  /**
   * Rounding each aggregate separately bills at least the raw time and at
   * most one increment less a second more per aggregate.
   */
  lemma {:induction false} SumRoundedBounds(aggs: seq<Aggregate>, incrementMinutes: nat)
    requires incrementMinutes > 0
    requires forall i :: 0 <= i < |aggs| ==> aggs[i].rounded == RoundUp(aggs[i].total, incrementMinutes)
    ensures SumRaw(aggs) <= SumRounded(aggs)
    ensures SumRounded(aggs) <= SumRaw(aggs) + |aggs| * (IncrementSeconds(incrementMinutes) - 1)
  {
    if |aggs| > 0 {
      SumRoundedBounds(aggs[1..], incrementMinutes);
      var n := |aggs| - 1;
      assert |aggs| * (IncrementSeconds(incrementMinutes) - 1)
          == n * (IncrementSeconds(incrementMinutes) - 1) + (IncrementSeconds(incrementMinutes) - 1);
    }
  }

  /**
   * The aggregates `process_data` submits: one per distinct `(ticket, date)`
   * of the ticketed rows, ascending, each total the sum of its rows and each
   * rounded value the least covering multiple of the increment; the raw
   * totals add up to the ticketed time and the billed time covers it.
   */
  lemma AggregatesCorrect(rows: seq<Row>, incrementMinutes: nat)
    requires incrementMinutes > 0
    ensures var entries := LoadEntries(rows);
      var aggs := Aggregates(rows, incrementMinutes);
      && (forall i, j :: 0 <= i < j < |aggs| ==>
            KeyLess(Key(aggs[i].ticket, aggs[i].date), Key(aggs[j].ticket, aggs[j].date)))
      && (forall i :: 0 <= i < |aggs| ==>
            && aggs[i].total == SumFor(entries, Key(aggs[i].ticket, aggs[i].date))
            && aggs[i].rounded % IncrementSeconds(incrementMinutes) == 0
            && aggs[i].total <= aggs[i].rounded < aggs[i].total + IncrementSeconds(incrementMinutes))
      && (forall k :: k in AggregateKeys(aggs) <==> exists n :: 0 <= n < |entries| && HasKey(entries[n], k))
      && SumRaw(aggs) == TicketedTotal(entries)
      && SumRaw(aggs) <= SumRounded(aggs)
  {
    var entries := LoadEntries(rows);
    var gs := GroupAndSum(entries);
    var aggs := Aggregates(rows, incrementMinutes);
    GroupAndSumCorrect(entries);
    forall i | 0 <= i < |aggs| ensures Key(aggs[i].ticket, aggs[i].date) == gs[i].key { }
    forall k ensures k in AggregateKeys(aggs) <==> k in GroupKeys(gs) {
      if k in GroupKeys(gs) {
        var i :| 0 <= i < |gs| && gs[i].key == k;
        assert Key(aggs[i].ticket, aggs[i].date) == k;
      }
    }
    SumRawOfRoundGroups(gs, incrementMinutes);
    SumRoundedBounds(aggs, incrementMinutes);
  }

  /**
   * The worked example: ten and twenty minutes on ABC-123 and five on XYZ-9,
   * all on one day, billed in quarter hours, give 30 and 15 minutes (the
   * tickets of its descriptions are those of `ExtractTicketExample`).
   */
  lemma AggregatesExample()
    ensures RoundGroups(GroupAndSum([Entry(Some("ABC-123"), "2024-01-01", 600),
                                     Entry(Some("ABC-123"), "2024-01-01", 1200),
                                     Entry(Some("XYZ-9"), "2024-01-01", 300)]), 15)
         == [Aggregate("ABC-123", "2024-01-01", 1800, 1800),
             Aggregate("XYZ-9", "2024-01-01", 300, 900)]
  {
    GroupAndSumExample();
    RoundUpFixesMultiples(1800, 15);
    var r := RoundUp(300, 15);
    RoundUpIsLeast(300, 15, 900);
    MultiplesApart(r, 900, 900);
  }
}
