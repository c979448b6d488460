/**
 * The worklog records the copier reads and the payloads it builds from them
 * (`TempoWorklogCopier.prepare_new_worklog` in tempo-copy-worklog.py).
 * A JSON key that may be missing is an `Option`; a present key always holds a
 * value of the expected shape.
 */
module Worklogs {
  import opened Wrappers
  import opened CivilDate

  /** One custom attribute of a worklog, kept as an opaque key/value pair. */
  datatype Attribute = Attribute(key: string, value: string)

  /** The `attributes` object of a fetched worklog. */
  datatype AttributeSet = AttributeSet(values: Option<seq<Attribute>>)

  /** The `issue` object of a fetched worklog. */
  datatype IssueRef = IssueRef(id: Option<int>)

  /** A worklog as returned by the fetch, with the keys the copier reads. */
  datatype SourceWorklog = SourceWorklog(
    startDate: Option<string>,
    issue: Option<IssueRef>,
    timeSpentSeconds: Option<int>,
    startTime: Option<string>,
    attributes: Option<AttributeSet>,
    description: Option<string>,
    authorAccountId: Option<string>)

  /** The new worklog sent to the creation endpoint. */
  datatype Payload = Payload(
    attributes: seq<Attribute>,
    authorAccountId: string,
    issueId: int,
    timeSpentSeconds: int,
    startDate: string,
    startTime: string,
    description: string)

  /** The exceptions the transform can raise: a missing key, an unreadable date, a date beyond year 9999. */
  datatype TransformError = MissingKey(key: string) | MalformedDate(text: string) | DateOverflow

  const DefaultDescription := "Copied worklog"

  /** The attribute values of `w`: empty when `attributes` or its `values` key is missing. */
  function AttributeValues(w: SourceWorklog): seq<Attribute> {
    match w.attributes
    case None => []
    case Some(a) => a.values.GetOr([])
  }

  /**
   * Builds the payload that copies `w` shifted by `deltaDays` days, attributed to
   * `accountId`. The steps run in the order of the source, so the first failing
   * one decides the error: the start date (missing, unreadable, out of range),
   * then `issue`, `issue.id`, `timeSpentSeconds` and `startTime`.
   */
  function PrepareNewWorklog(w: SourceWorklog, deltaDays: int, accountId: string): (r: Result<Payload, TransformError>)
    ensures r.Ok? ==>
      && w.startDate.Some? && Parse(w.startDate.value).Some?
      && Parse(r.value.startDate).Some?
      && ToOrdinal(Parse(r.value.startDate).value) == ToOrdinal(Parse(w.startDate.value).value) + deltaDays
  {
    if w.startDate.None? then Err(MissingKey("startDate"))
    else
      var original := Parse(w.startDate.value);
      if original.None? then Err(MalformedDate(w.startDate.value))
      else if !InRange(original.value, deltaDays) then Err(DateOverflow)
      else
        var newDate := AddDays(original.value, deltaDays);
        if w.issue.None? then Err(MissingKey("issue"))
        else if w.issue.value.id.None? then Err(MissingKey("id"))
        else if w.timeSpentSeconds.None? then Err(MissingKey("timeSpentSeconds"))
        else if w.startTime.None? then Err(MissingKey("startTime"))
        else
          ParseFormat(newDate);
          Ok(Payload(
            attributes := AttributeValues(w),
            authorAccountId := accountId,
            issueId := w.issue.value.id.value,
            timeSpentSeconds := w.timeSpentSeconds.value,
            startDate := Format(newDate),
            startTime := w.startTime.value,
            description := w.description.GetOr(DefaultDescription)))
  }

  /** A record the transform accepts: every required key present and a readable, shiftable start date. */
  predicate Transformable(w: SourceWorklog, deltaDays: int) {
    && w.startDate.Some?
    && Parse(w.startDate.value).Some?
    && InRange(Parse(w.startDate.value).value, deltaDays)
    && w.issue.Some? && w.issue.value.id.Some?
    && w.timeSpentSeconds.Some?
    && w.startTime.Some?
  }

  /** The transform succeeds exactly on transformable records, whatever the account id. */
  lemma PrepareSucceedsIff(w: SourceWorklog, deltaDays: int, accountId: string)
    ensures PrepareNewWorklog(w, deltaDays, accountId).Ok? <==> Transformable(w, deltaDays)
  {
  }

  /** Which exception a failing record raises, in the order the source evaluates the keys. */
  lemma PrepareErrors(w: SourceWorklog, deltaDays: int, accountId: string)
    ensures w.startDate.None? ==> PrepareNewWorklog(w, deltaDays, accountId) == Err(MissingKey("startDate"))
    ensures w.startDate.Some? && Parse(w.startDate.value).None? ==>
      PrepareNewWorklog(w, deltaDays, accountId) == Err(MalformedDate(w.startDate.value))
    ensures w.startDate.Some? && Parse(w.startDate.value).Some? && !InRange(Parse(w.startDate.value).value, deltaDays) ==>
      PrepareNewWorklog(w, deltaDays, accountId) == Err(DateOverflow)
    ensures w.startDate.Some? && Parse(w.startDate.value).Some? && InRange(Parse(w.startDate.value).value, deltaDays) ==>
      && (w.issue.None? ==> PrepareNewWorklog(w, deltaDays, accountId) == Err(MissingKey("issue")))
      && (w.issue.Some? && w.issue.value.id.None? ==> PrepareNewWorklog(w, deltaDays, accountId) == Err(MissingKey("id")))
      && (w.issue.Some? && w.issue.value.id.Some? && w.timeSpentSeconds.None? ==>
            PrepareNewWorklog(w, deltaDays, accountId) == Err(MissingKey("timeSpentSeconds")))
      && (w.issue.Some? && w.issue.value.id.Some? && w.timeSpentSeconds.Some? && w.startTime.None? ==>
            PrepareNewWorklog(w, deltaDays, accountId) == Err(MissingKey("startTime")))
  {
  }

  /**
   * The new start date is the source date moved by exactly `deltaDays` calendar
   * days, written in zero-padded `YYYY-MM-DD` form.
   */
  lemma PayloadStartDate(w: SourceWorklog, deltaDays: int, accountId: string)
    requires Transformable(w, deltaDays)
    ensures var d := Parse(w.startDate.value).value;
      PrepareNewWorklog(w, deltaDays, accountId).value.startDate == Format(AddDays(d, deltaDays))
  {
  }

  /**
   * The field rules: issue id, duration and time of day copied, attributes
   * taken from `attributes.values` or empty, description kept whenever the key
   * is present (even if empty) or else the default, author always the
   * configured account.
   */
  lemma PayloadFields(w: SourceWorklog, deltaDays: int, accountId: string)
    requires PrepareNewWorklog(w, deltaDays, accountId).Ok?
    ensures var p := PrepareNewWorklog(w, deltaDays, accountId).value;
      && p.issueId == w.issue.value.id.value
      && p.timeSpentSeconds == w.timeSpentSeconds.value
      && p.startTime == w.startTime.value
      && (w.attributes.Some? && w.attributes.value.values.Some? ==> p.attributes == w.attributes.value.values.value)
      && (w.attributes.None? || w.attributes.value.values.None? ==> p.attributes == [])
      && (w.description.Some? ==> p.description == w.description.value)
      && (w.description.None? ==> p.description == DefaultDescription)
      && p.authorAccountId == accountId
  {
  }

  /** The source record's own author never reaches the payload. */
  lemma PrepareIgnoresSourceAuthor(w: SourceWorklog, author: Option<string>, deltaDays: int, accountId: string)
    ensures PrepareNewWorklog(w.(authorAccountId := author), deltaDays, accountId)
         == PrepareNewWorklog(w, deltaDays, accountId)
  {
  }

  /** With a zero delta the payload carries the source's own date string. */
  lemma PrepareZeroDelta(w: SourceWorklog, accountId: string)
    requires PrepareNewWorklog(w, 0, accountId).Ok?
    ensures PrepareNewWorklog(w, 0, accountId).value.startDate == w.startDate.value
  {
    var d := Parse(w.startDate.value).value;
    AddDaysZero(d);
    FormatParse(w.startDate.value);
  }

  /**
   * Shifting by j and then by k gives the same payload as shifting by j + k:
   * copying a copy lands where one combined copy would.
   */
  lemma PrepareTwice(w: SourceWorklog, j: int, k: int, accountId: string)
    requires PrepareNewWorklog(w, j, accountId).Ok?
    requires var p := PrepareNewWorklog(w, j, accountId).value;
      Parse(p.startDate).Some? && InRange(Parse(p.startDate).value, k)
    ensures var p := PrepareNewWorklog(w, j, accountId).value;
      var w2 := w.(startDate := Some(p.startDate), attributes := Some(AttributeSet(Some(p.attributes))),
                   description := Some(p.description));
      PrepareNewWorklog(w2, k, accountId) == PrepareNewWorklog(w, j + k, accountId)
  {
    var d := Parse(w.startDate.value).value;
    var p := PrepareNewWorklog(w, j, accountId).value;
    var w2 := w.(startDate := Some(p.startDate), attributes := Some(AttributeSet(Some(p.attributes))),
                 description := Some(p.description));
    PrepareSucceedsIff(w, j, accountId);
    PayloadStartDate(w, j, accountId);
    ParseFormat(AddDays(d, j));
    AddDaysCompose(d, j, k);
    assert Transformable(w2, k) && Transformable(w, j + k);
    PayloadStartDate(w2, k, accountId);
    PayloadStartDate(w, j + k, accountId);
  }

  /**
   * The dates of the end-to-end example: the week of 2024-06-03 copied to the
   * week of 2024-06-10 is a shift of 7 days, which takes 2024-06-05 to 2024-06-12.
   */
  lemma WeekAheadDates()
    ensures DaysBetween(Date(2024, 6, 3), Date(2024, 6, 10)) == 7
    ensures AddDays(Date(2024, 6, 5), 7) == Date(2024, 6, 12)
  {
    AddDaysByOrdinal(Date(2024, 6, 5), 7, Date(2024, 6, 12));
  }

  /** The two dates of the example as the API writes them. */
  lemma WeekAheadText()
    ensures Format(Date(2024, 6, 5)) == "2024-06-05" && Format(Date(2024, 6, 12)) == "2024-06-12"
  {
    ExampleFields();
  }

  lemma ExampleFields()
    ensures Padded(2024, 4) == "2024"
    ensures Padded(6, 2) == "06" && Padded(5, 2) == "05" && Padded(12, 2) == "12"
  {
    assert Padded(20, 2) == "20";
  }

  /**
   * The end-to-end example: a 2024-06-05 worklog of one hour at 09:00:00 without
   * a description, shifted by those 7 days.
   */
  lemma WeekAheadExample(accountId: string)
    ensures var w := SourceWorklog(Some(Format(Date(2024, 6, 5))), Some(IssueRef(Some(10042))), Some(3600),
                                   Some("09:00:00"), None, None, Some("someone-else"));
      PrepareNewWorklog(w, 7, accountId)
        == Ok(Payload([], accountId, 10042, 3600, Format(Date(2024, 6, 12)), "09:00:00", "Copied worklog"))
  {
    var src := Date(2024, 6, 5);
    var w := SourceWorklog(Some(Format(src)), Some(IssueRef(Some(10042))), Some(3600),
                           Some("09:00:00"), None, None, Some("someone-else"));
    WeekAheadDates();
    ParseFormat(src);
    PayloadStartDate(w, 7, accountId);
    PayloadFields(w, 7, accountId);
  }
}
