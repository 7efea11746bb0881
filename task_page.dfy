/** The add/edit task page of the frontend: which mode it is in, how it prints
    a date for the date input, how its form state changes, and which request a
    submit sends. */
module TaskPage {
  import opened Wrappers
  import opened Decimal

  datatype Mode = Add | Update

  /** `taskId === undefined ? 'add' : 'update'`. */
  function ModeOf(taskId: Option<string>): (m: Mode)
    ensures m == Add <==> taskId.None?
    ensures m == Update <==> taskId.Some?
  {
    if taskId.None? then Add else Update
  }

  /** What a `Date` reports through `getFullYear()`, `getMonth()` (0-based)
      and `getDate()`; `None` is an Invalid Date, whose getters give `NaN`. */
  datatype CalendarFields = CalendarFields(year: int, monthIndex: int, day: int)

  /** `formatDate`: the year, then the 1-based month and the day, each padded
      to two digits, joined by dashes. */
  function FormatDate(d: Option<CalendarFields>): (s: string)
    ensures d.None? ==> s == "NaN-NaN-NaN"
  {
    match d
    case None => "NaN-NaN-NaN"
    case Some(f) => ShowInt(f.year) + "-" + PadStart2(ShowInt(f.monthIndex + 1)) + "-" + PadStart2(ShowInt(f.day))
  }

  /** An integer numeral with an optional minus sign. */
  function ParseSigned(s: string): Option<int>
  {
    if |s| > 1 && s[0] == '-' && AllDigits(s[1..]) then Some(0 - ParseDigits(s[1..]))
    else if s != [] && AllDigits(s) then Some(ParseDigits(s))
    else None
  }

  /** The pieces of a `year-MM-DD` string, counted from its end. */
  function YearText(s: string): string requires |s| >= 6 { s[..|s| - 6] }
  function MonthText(s: string): string requires |s| >= 6 { s[|s| - 5..|s| - 3] }
  function DayText(s: string): string requires |s| >= 6 { s[|s| - 2..] }
  predicate Dashed(s: string) requires |s| >= 6 { s[|s| - 6] == '-' && s[|s| - 3] == '-' }

  /** Reads a `year-MM-DD` string back into calendar fields. */
  function ParseDate(s: string): Option<CalendarFields>
  {
    if |s| < 7 || !Dashed(s) then None
    else if !AllDigits(MonthText(s)) || !AllDigits(DayText(s)) then None
    else
      match ParseSigned(YearText(s))
      case None => None
      case Some(year) => Some(CalendarFields(year, ParseDigits(MonthText(s)) - 1, ParseDigits(DayText(s))))
  }

  lemma ParseSignedShowInt(i: int)
    ensures ParseSigned(ShowInt(i)) == Some(i)
  {
    var s := ShowInt(i);
    if i < 0 {
      var digits := ShowNat(-i);
      assert s == "-" + digits;
      assert s[1..] == digits;
      ParseShowNat(-i);
    } else {
      assert s == ShowNat(i);
      assert IsDigit(s[0]);
      ParseShowNat(i);
    }
  }

  lemma DateTextPieces(y: string, mm: string, dd: string)
    requires |mm| == 2 && |dd| == 2
    ensures var s := y + "-" + mm + "-" + dd;
      && |s| == |y| + 6 && Dashed(s)
      && YearText(s) == y && MonthText(s) == mm && DayText(s) == dd
  {
  }

  /** For a real calendar day the month and the day come out as exactly two
      digits each, the month counted from 1, after the year and a dash. */
  lemma FormatDateFields(f: CalendarFields)
    requires 0 <= f.monthIndex < 12 && 1 <= f.day <= 31
    ensures |FormatDate(Some(f))| == |ShowInt(f.year)| + 6
    ensures Dashed(FormatDate(Some(f)))
    ensures YearText(FormatDate(Some(f))) == ShowInt(f.year)
    ensures |MonthText(FormatDate(Some(f)))| == 2 && AllDigits(MonthText(FormatDate(Some(f))))
    ensures ParseDigits(MonthText(FormatDate(Some(f)))) == f.monthIndex + 1
    ensures |DayText(FormatDate(Some(f)))| == 2 && AllDigits(DayText(FormatDate(Some(f))))
    ensures ParseDigits(DayText(FormatDate(Some(f)))) == f.day
  {
    var month: nat, day: nat := f.monthIndex + 1, f.day;
    var mm, dd := PadStart2(ShowNat(month)), PadStart2(ShowNat(day));
    TwoDigitRoundTrip(month);
    TwoDigitRoundTrip(day);
    assert FormatDate(Some(f)) == ShowInt(f.year) + "-" + mm + "-" + dd;
    DateTextPieces(ShowInt(f.year), mm, dd);
  }

  /** Reading a formatted date back gives the fields it was printed from. */
  lemma FormatDateRoundTrip(f: CalendarFields)
    requires 0 <= f.monthIndex < 12 && 1 <= f.day <= 31
    ensures ParseDate(FormatDate(Some(f))) == Some(f)
  {
    FormatDateFields(f);
    ParseSignedShowInt(f.year);
  }

  /** The text of an Invalid Date reads back as no date at all. */
  lemma InvalidDateRoundTrip()
    ensures ParseDate(FormatDate(None)) == None
  {
    var s := FormatDate(None);
    assert DayText(s) == "aN";
    assert !IsDigit(DayText(s)[1]);
  }

  /** The fields of the task the page loaded in update mode. */
  datatype TaskFields = TaskFields(description: string, tillDate: string, atWhatTime: string)

  /** The form object holding exactly the three fields of a task. */
  function FormOf(t: TaskFields): (form: map<string, string>)
    ensures form.Keys == {"description", "tillDate", "atWhatTime"}
    ensures form["description"] == t.description && form["tillDate"] == t.tillDate
      && form["atWhatTime"] == t.atWhatTime
  {
    map["description" := t.description, "tillDate" := t.tillDate, "atWhatTime" := t.atWhatTime]
  }

  datatype HttpMethod = Post | Put

  datatype Request = Request(verb: HttpMethod, url: string, data: map<string, string>)

  const TasksUrl := "/tasks"

  /** The task id a URL addresses under the `/tasks` routes; `None` for the
      collection itself and for any other URL. */
  function RouteTaskId(url: string): Option<string>
  {
    if |url| >= |TasksUrl| + 1 && url[..|TasksUrl| + 1] == TasksUrl + "/" then Some(url[|TasksUrl| + 1..])
    else None
  }

  /** The request `handleSubmit` sends: a POST to the collection in add mode, a
      PUT to the task's own URL in update mode, both carrying the form. */
  function SubmitRequest(taskId: Option<string>, data: map<string, string>): (r: Request)
    ensures r.data == data
    ensures r.verb == Post <==> ModeOf(taskId) == Add
    ensures r.verb == Post ==> r.url == TasksUrl
    ensures RouteTaskId(r.url) == taskId
  {
    match taskId
    case None => Request(Post, TasksUrl, data)
    case Some(id) =>
      var url := TasksUrl + "/" + id;
      assert url[..|TasksUrl| + 1] == TasksUrl + "/" && url[|TasksUrl| + 1..] == id;
      Request(Put, url, data)
  }

  datatype FieldError = FieldError(field: string, err: string)

  /** No later error in `errors` names the same field as the one at `i`. */
  predicate LastFor(errors: seq<FieldError>, i: int)
    requires 0 <= i < |errors|
  {
    forall j :: i < j < |errors| ==> errors[j].field != errors[i].field
  }

  /** The fields named by `errors`. */
  function Fields(errors: seq<FieldError>): set<string> {
    set i | 0 <= i < |errors| :: errors[i].field
  }

  /** Each field named in `m` holds the last error `errors` reports for it. */
  predicate HoldsLastErrors(m: map<string, string>, errors: seq<FieldError>) {
    forall i :: 0 <= i < |errors| && LastFor(errors, i) ==> errors[i].field in m && m[errors[i].field] == errors[i].err
  }

  /** `errors.reduce((total, ob) => ({ ...total, [ob.field]: ob.err }), {})`:
      one entry per failing field, holding that field's last error. */
  function ErrorMap(errors: seq<FieldError>): (m: map<string, string>)
    ensures m.Keys == Fields(errors)
    ensures HoldsLastErrors(m, errors)
    decreases |errors|
  {
    if errors == [] then map[]
    else
      var init, last := errors[..|errors| - 1], errors[|errors| - 1];
      var prev := ErrorMap(init);
      ErrorMapStep(errors, init, last, prev);
      prev[last.field := last.err]
  }

  /** Adding one more error to the map of the errors before it. */
  lemma {:induction false} ErrorMapStep(errors: seq<FieldError>, init: seq<FieldError>, last: FieldError,
                                        prev: map<string, string>)
    requires errors != [] && init == errors[..|errors| - 1] && last == errors[|errors| - 1]
    requires prev.Keys == Fields(init) && HoldsLastErrors(prev, init)
    ensures prev[last.field := last.err].Keys == Fields(errors)
    ensures HoldsLastErrors(prev[last.field := last.err], errors)
  {
    assert errors == init + [last];
    assert Fields(errors) == Fields(init) + {last.field} by {
      assert forall i :: 0 <= i < |init| ==> errors[i] == init[i];
      assert errors[|init|] == last;
    }
    var m := prev[last.field := last.err];
    forall i | 0 <= i < |errors| && LastFor(errors, i)
      ensures errors[i].field in m && m[errors[i].field] == errors[i].err
    {
      if i < |init| {
        LastForInit(errors, init, last, i);
      }
    }
  }

  /** An error that is the last for its field is not the final one's field,
      and is the last for its field among the errors before the final one. */
  lemma {:induction false} LastForInit(errors: seq<FieldError>, init: seq<FieldError>, last: FieldError, i: int)
    requires errors == init + [last]
    requires 0 <= i < |init| && LastFor(errors, i)
    ensures init[i].field != last.field && LastFor(init, i)
  {
    assert errors[i] == init[i] && errors[|init|] == last;
    forall j | i < j < |init| ensures init[j].field != init[i].field {
      assert errors[j] == init[j];
    }
  }

  /** The page's state: the task id from the route, the loaded task, the form
      and the error messages shown under each field. */
  class TaskForm {
    const taskId: Option<string>
    var task: Option<TaskFields>
    var formData: map<string, string>
    var formErrors: map<string, string>

    constructor (taskId: Option<string>)
      ensures this.taskId == taskId && task == None
      ensures formData == FormOf(TaskFields("", "", "")) && formErrors == map[]
    {
      this.taskId := taskId;
      task := None;
      formData := FormOf(TaskFields("", "", ""));
      formErrors := map[];
    }

    /** The fetch of update mode came back with the task. */
    method Loaded(t: TaskFields)
      modifies this
      ensures task == Some(t) && formData == FormOf(t) && formErrors == old(formErrors)
    {
      task := Some(t);
      formData := FormOf(t);
    }

    /** `handleChange`: the field the event names takes the event's value. */
    method HandleChange(name: string, value: string)
      modifies this
      ensures name in formData && formData[name] == value
      ensures formData.Keys == old(formData).Keys + {name}
      ensures forall k :: k in old(formData) && k != name ==> formData[k] == old(formData)[k]
      ensures task == old(task) && formErrors == old(formErrors)
    {
      formData := formData[name := value];
    }

    /** `handleReset`: back to the loaded task's fields. Before the task has
        loaded, reading its fields throws and nothing changes. */
    method HandleReset() returns (ok: bool)
      modifies this
      ensures ok <==> old(task).Some?
      ensures ok ==> formData == FormOf(old(task).value)
      ensures !ok ==> formData == old(formData)
      ensures task == old(task) && formErrors == old(formErrors)
    {
      if task.None? {
        return false;
      }
      formData := FormOf(task.value);
      ok := true;
    }

    /** `handleSubmit` with the list the validators returned: errors are shown
        and nothing is sent, or the errors are cleared and the request goes out. */
    method HandleSubmit(errors: seq<FieldError>) returns (request: Option<Request>)
      modifies this
      ensures |errors| > 0 ==> request == None && formErrors == ErrorMap(errors)
      ensures |errors| == 0 ==> request == Some(SubmitRequest(taskId, formData)) && formErrors == map[]
      ensures formData == old(formData) && task == old(task)
    {
      formErrors := map[];
      if |errors| > 0 {
        formErrors := ErrorMap(errors);
        return None;
      }
      if ModeOf(taskId) == Add {
        request := Some(Request(Post, TasksUrl, formData));
      } else {
        request := Some(Request(Put, TasksUrl + "/" + taskId.value, formData));
      }
    }
  }
}
