/** The task handlers of the backend (`postTask`, `putTask`, `markTaskComplete`,
    `deleteTask`) and the reminders they leave behind: jobs in the delayed
    e-mail queue, timers armed with `setTimeout`, and the mails the queue worker
    and the timers send.

    The pure part is a function per handler from one `World` (task store, queue,
    timers, sent mail) to the next; `TaskController` is the same behaviour as a
    class whose methods change its fields in place. */
module TaskControllers {
  import opened Wrappers
  import opened Deadline

  type UserId = string
  type TaskId = string

  datatype TaskStatus = Pending | Completed

  datatype Task = Task(owner: UserId, description: string, tillDate: int, atWhatTime: string, status: TaskStatus)

  /** The request body of `postTask` and `putTask`. An absent or empty field is
      the empty string, or `None` for the date: both are falsy. */
  datatype TaskBody = TaskBody(description: string, tillDate: Option<int>, atWhatTime: string)

  /** A pending reminder: the payload to send, and when and with which delay it
      was armed. Only the payload is stored, never the task it came from. */
  datatype Reminder = Reminder(email: string, subject: string, body: string, armedAt: int, delay: int)
  {
    function FireAt(): int { armedAt + delay }
  }

  datatype Mail = Mail(to: string, subject: string, body: string)

  datatype Reply = Ok | MissingFields | InvalidId | NotFound | Forbidden | ServerError
  {
    function Code(): int {
      match this
      case Ok => 200
      case MissingFields => 400
      case InvalidId => 400
      case NotFound => 404
      case Forbidden => 403
      case ServerError => 500
    }
  }

  /** Everything the handlers and the workers read and change. */
  datatype World = World(tasks: map<TaskId, Task>, queue: seq<Reminder>, timers: seq<Reminder>, outbox: seq<Mail>)

  datatype Outcome = Outcome(world: World, reply: Reply)

  /** The result of one worker step: the new world and, when a reminder fired,
      its index in the old queue (or timer list). */
  datatype Dispatch = Dispatch(world: World, fired: Option<nat>)

  function Subject(description: string): string { description + " Pending" }

  function CreateBody(description: string): string { "<html>" + description + " is pending</html>" }

  const UpdateBody := "<html></html>"

  function Payload(r: Reminder): Mail { Mail(r.email, r.subject, r.body) }

  /** `!description || !tillDate || !atWhatTime` is false: an empty string and
      an absent value are both falsy. */
  predicate FieldsPresent(b: TaskBody) {
    b.description != "" && b.tillDate.Some? && b.atWhatTime != ""
  }

  /** Queued jobs always wait a positive delay; timers wait what Node allows. */
  predicate WellFormed(w: World) {
    && (forall i :: 0 <= i < |w.queue| ==> w.queue[i].delay > 0)
    && (forall i :: 0 <= i < |w.timers| ==> 1 <= w.timers[i].delay <= MaxTimerDelay)
  }

  /** The deadline `body` resolves to, and the delay from `now`. */
  function BodyTimeout(body: TaskBody, now: int): Option<int>
    requires body.tillDate.Some?
  {
    Timeout(ResolveDeadline(body.tillDate.value, body.atWhatTime), now)
  }

  /** The id and ownership checks shared by `putTask`, `markTaskComplete` and
      `deleteTask`, in their order: invalid id, then unknown task, then owner. */
  function OwnershipGate(validId: TaskId -> bool, tasks: map<TaskId, Task>, user: UserId, id: TaskId): (r: Reply)
    ensures r == Ok <==> validId(id) && id in tasks && tasks[id].owner == user
    ensures !validId(id) ==> r == InvalidId
    ensures validId(id) && id !in tasks ==> r == NotFound
    ensures r == Forbidden <==> validId(id) && id in tasks && tasks[id].owner != user
  {
    if !validId(id) then InvalidId
    else if id !in tasks then NotFound
    else if tasks[id].owner != user then Forbidden
    else Ok
  }

  /** `postTask`: create the task, then enqueue one reminder job when the
      deadline is strictly in the future. The owner's e-mail is read only on
      that path; a missing user record throws after the task was created. */
  function PostTaskEffect(w: World, emails: map<UserId, string>, user: UserId, body: TaskBody,
                          newId: TaskId, now: int): (o: Outcome)
    ensures !FieldsPresent(body) ==> o == Outcome(w, MissingFields)
    ensures FieldsPresent(body) && newId in w.tasks ==> o == Outcome(w, ServerError)
    ensures FieldsPresent(body) && newId !in w.tasks ==>
      && o.world.tasks == w.tasks[newId := Task(user, body.description, body.tillDate.value, body.atWhatTime, Pending)]
      && (o.reply == Ok <==> !IsPositive(BodyTimeout(body, now)) || user in emails)
      && (o.reply != Ok ==> o.reply == ServerError)
    ensures o.world.timers == w.timers && o.world.outbox == w.outbox
    ensures o.reply == Ok ==>
      && FieldsPresent(body) && newId !in w.tasks
      && o.world.tasks == w.tasks[newId := Task(user, body.description, body.tillDate.value, body.atWhatTime, Pending)]
    ensures |w.queue| <= |o.world.queue| <= |w.queue| + 1 && o.world.queue[..|w.queue|] == w.queue
    ensures |o.world.queue| == |w.queue| + 1 <==>
      FieldsPresent(body) && newId !in w.tasks && user in emails && IsPositive(BodyTimeout(body, now))
    ensures FieldsPresent(body) && !IsPositive(BodyTimeout(body, now)) ==> o.world.queue == w.queue
    ensures |o.world.queue| == |w.queue| + 1 ==>
      var job := o.world.queue[|w.queue|];
      var target := ResolveDeadline(body.tillDate.value, body.atWhatTime).value;
      && o.reply == Ok
      && job.armedAt == now && job.delay == target - now && job.delay > 0 && job.FireAt() == target
      && Payload(job) == Mail(emails[user], Subject(body.description), CreateBody(body.description))
    ensures WellFormed(w) ==> WellFormed(o.world)
  {
    if !FieldsPresent(body) then Outcome(w, MissingFields)
    else if newId in w.tasks then Outcome(w, ServerError)
    else
      var created := w.(tasks := w.tasks[newId := Task(user, body.description, body.tillDate.value, body.atWhatTime, Pending)]);
      var timeout := BodyTimeout(body, now);
      if !IsPositive(timeout) then Outcome(created, Ok)
      else if user !in emails then Outcome(created, ServerError)
      else
        var job := Reminder(emails[user], Subject(body.description), CreateBody(body.description), now, timeout.value);
        Outcome(created.(queue := w.queue + [job]), Ok)
  }

  /** `putTask`: after the checks, overwrite the three fields and arm a timer
      with whatever delay the deadline gives, cancelling nothing. */
  function PutTaskEffect(w: World, emails: map<UserId, string>, validId: TaskId -> bool, user: UserId,
                         id: TaskId, body: TaskBody, now: int): (o: Outcome)
    ensures !FieldsPresent(body) ==> o == Outcome(w, MissingFields)
    ensures FieldsPresent(body) && OwnershipGate(validId, w.tasks, user, id) != Ok ==>
      o == Outcome(w, OwnershipGate(validId, w.tasks, user, id))
    ensures o.reply != Ok ==> o.world == w
    ensures o.reply == Ok <==> FieldsPresent(body) && OwnershipGate(validId, w.tasks, user, id) == Ok && user in emails
    ensures FieldsPresent(body) && OwnershipGate(validId, w.tasks, user, id) == Ok && user !in emails ==>
      o == Outcome(w, ServerError)
    ensures o.world.queue == w.queue && o.world.outbox == w.outbox
    ensures o.reply == Ok ==>
      && |o.world.timers| == |w.timers| + 1
      && var timer := o.world.timers[|w.timers|];
      && o.world.timers == w.timers + [timer]
      && Payload(timer) == Mail(emails[user], Subject(body.description), UpdateBody)
      && timer.armedAt == now && timer.delay == TimerDelay(BodyTimeout(body, now))
      && o.world.tasks == w.tasks[id := w.tasks[id].(description := body.description,
                                                      tillDate := body.tillDate.value,
                                                      atWhatTime := body.atWhatTime)]
    ensures WellFormed(w) ==> WellFormed(o.world)
  {
    if !FieldsPresent(body) then Outcome(w, MissingFields)
    else
      var gate := OwnershipGate(validId, w.tasks, user, id);
      if gate != Ok then Outcome(w, gate)
      else if w.tasks[id].owner !in emails then Outcome(w, ServerError)
      else
        var task := w.tasks[id];
        var edited := task.(description := body.description, tillDate := body.tillDate.value,
                            atWhatTime := body.atWhatTime);
        var timer := Reminder(emails[task.owner], Subject(body.description), UpdateBody,
                              now, TimerDelay(BodyTimeout(body, now)));
        Outcome(w.(tasks := w.tasks[id := edited], timers := w.timers + [timer]), Ok)
  }

  /** `markTaskComplete`: set the status, touch no reminder. */
  function MarkTaskCompleteEffect(w: World, validId: TaskId -> bool, user: UserId, id: TaskId): (o: Outcome)
    ensures o.reply == OwnershipGate(validId, w.tasks, user, id)
    ensures o.world.queue == w.queue && o.world.timers == w.timers && o.world.outbox == w.outbox
    ensures o.reply != Ok ==> o.world == w
    ensures o.reply == Ok ==> o.world.tasks == w.tasks[id := w.tasks[id].(status := Completed)]
  {
    var gate := OwnershipGate(validId, w.tasks, user, id);
    if gate != Ok then Outcome(w, gate)
    else Outcome(w.(tasks := w.tasks[id := w.tasks[id].(status := Completed)]), Ok)
  }

  /** `deleteTask`: remove the task, touch no reminder. */
  function DeleteTaskEffect(w: World, validId: TaskId -> bool, user: UserId, id: TaskId): (o: Outcome)
    ensures o.reply == OwnershipGate(validId, w.tasks, user, id)
    ensures o.world.queue == w.queue && o.world.timers == w.timers && o.world.outbox == w.outbox
    ensures o.reply != Ok ==> o.world == w
    ensures o.reply == Ok ==> id in w.tasks && o.world.tasks == w.tasks - {id}
  {
    var gate := OwnershipGate(validId, w.tasks, user, id);
    if gate != Ok then Outcome(w, gate)
    else Outcome(w.(tasks := w.tasks - {id}), Ok)
  }

  /** The first reminder, in arming order, whose fire time has come. */
  function FirstDue(rs: seq<Reminder>, now: int): (i: Option<nat>)
    ensures i.Some? ==> i.value < |rs| && rs[i.value].FireAt() <= now
    ensures i.Some? ==> forall j :: 0 <= j < i.value ==> rs[j].FireAt() > now
    ensures i.None? ==> forall j :: 0 <= j < |rs| ==> rs[j].FireAt() > now
    decreases |rs|
  {
    if rs == [] then None
    else if rs[0].FireAt() <= now then Some(0)
    else
      match FirstDue(rs[1..], now)
      case None => None
      case Some(k) => Some(k + 1)
  }

  function RemoveAt(rs: seq<Reminder>, i: nat): (r: seq<Reminder>)
    requires i < |rs|
    ensures |r| == |rs| - 1
    ensures multiset(r) + multiset{rs[i]} == multiset(rs)
    ensures forall x :: x in r ==> x in rs
  {
    assert rs == rs[..i] + [rs[i]] + rs[i + 1..];
    rs[..i] + rs[i + 1..]
  }

  /** One step of the queue worker (`emailQueue.process`): take a due job and
      send exactly the e-mail, subject and body stored in it. */
  function ProcessQueue(w: World, now: int): (d: Dispatch)
    ensures d.world.tasks == w.tasks && d.world.timers == w.timers
    ensures d.fired.None? ==> d.world == w && forall j :: 0 <= j < |w.queue| ==> w.queue[j].FireAt() > now
    ensures d.fired.Some? ==>
      var i := d.fired.value;
      && i < |w.queue| && w.queue[i].FireAt() <= now
      && multiset(d.world.queue) + multiset{w.queue[i]} == multiset(w.queue)
      && d.world.outbox == w.outbox + [Payload(w.queue[i])]
    ensures WellFormed(w) ==> WellFormed(d.world)
  {
    match FirstDue(w.queue, now)
    case None => Dispatch(w, None)
    case Some(i) =>
      Dispatch(w.(queue := RemoveAt(w.queue, i), outbox := w.outbox + [Payload(w.queue[i])]), Some(i))
  }

  /** One due `setTimeout` callback of `putTask`: it returns without sending when
      the captured e-mail is empty, and sends the captured payload otherwise. */
  function FireTimer(w: World, now: int): (d: Dispatch)
    ensures d.world.tasks == w.tasks && d.world.queue == w.queue
    ensures d.fired.None? ==> d.world == w && forall j :: 0 <= j < |w.timers| ==> w.timers[j].FireAt() > now
    ensures d.fired.Some? ==>
      var i := d.fired.value;
      && i < |w.timers| && w.timers[i].FireAt() <= now
      && multiset(d.world.timers) + multiset{w.timers[i]} == multiset(w.timers)
      && d.world.outbox == w.outbox + (if w.timers[i].email == "" then [] else [Payload(w.timers[i])])
    ensures WellFormed(w) ==> WellFormed(d.world)
  {
    match FirstDue(w.timers, now)
    case None => Dispatch(w, None)
    case Some(i) =>
      var t := w.timers[i];
      Dispatch(w.(timers := RemoveAt(w.timers, i),
                  outbox := w.outbox + (if t.email == "" then [] else [Payload(t)])), Some(i))
  }

  /** What the worker sends depends on the queued job alone: the task store
      may have changed or lost the task in the meantime. */
  lemma WorkerIgnoresTaskStore(w: World, tasks: map<TaskId, Task>, now: int)
    ensures ProcessQueue(w.(tasks := tasks), now).world.outbox == ProcessQueue(w, now).world.outbox
    ensures ProcessQueue(w.(tasks := tasks), now).world.queue == ProcessQueue(w, now).world.queue
  {
  }

  /** Completing or deleting a task leaves the reminder `postTask` queued for it
      pending, with its payload unchanged. */
  lemma FinishedTaskKeepsReminder(w: World, emails: map<UserId, string>, validId: TaskId -> bool,
                                  user: UserId, body: TaskBody, id: TaskId, now: int)
    requires validId(id)
    requires |PostTaskEffect(w, emails, user, body, id, now).world.queue| == |w.queue| + 1
    ensures var posted := PostTaskEffect(w, emails, user, body, id, now).world;
      var job := posted.queue[|w.queue|];
      && MarkTaskCompleteEffect(posted, validId, user, id).reply == Ok
      && MarkTaskCompleteEffect(posted, validId, user, id).world.tasks[id].status == Completed
      && job in MarkTaskCompleteEffect(posted, validId, user, id).world.queue
      && DeleteTaskEffect(posted, validId, user, id).reply == Ok
      && id !in DeleteTaskEffect(posted, validId, user, id).world.tasks
      && job in DeleteTaskEffect(posted, validId, user, id).world.queue
  {
    var posted := PostTaskEffect(w, emails, user, body, id, now).world;
    assert posted.queue[|w.queue|] in posted.queue;
  }

  /** Updating a task whose creation queued a reminder arms a second one: the
      queued job stays and a timer is added beside it. */
  lemma UpdateAddsSecondReminder(w: World, emails: map<UserId, string>, validId: TaskId -> bool,
                                 user: UserId, body: TaskBody, edit: TaskBody, id: TaskId, now: int, later: int)
    requires validId(id) && FieldsPresent(edit)
    requires |PostTaskEffect(w, emails, user, body, id, now).world.queue| == |w.queue| + 1
    ensures var posted := PostTaskEffect(w, emails, user, body, id, now).world;
      var updated := PutTaskEffect(posted, emails, validId, user, id, edit, later);
      && updated.reply == Ok
      && posted.queue[|w.queue|] in updated.world.queue
      && |updated.world.queue| + |updated.world.timers| == |w.queue| + |w.timers| + 2
  {
    var posted := PostTaskEffect(w, emails, user, body, id, now).world;
    assert posted.queue[|w.queue|] in posted.queue;
  }

  /** `putTask` arms its timer even for a deadline at or before now: the
      reminder fires 1 ms later. */
  lemma PastUpdateFiresAtOnce(w: World, emails: map<UserId, string>, validId: TaskId -> bool,
                              user: UserId, id: TaskId, body: TaskBody, now: int)
    requires PutTaskEffect(w, emails, validId, user, id, body, now).reply == Ok
    requires !IsPositive(BodyTimeout(body, now))
    ensures var o := PutTaskEffect(w, emails, validId, user, id, body, now);
      o.world.timers[|w.timers|].FireAt() == now + 1
  {
  }

  /** A deadline more than 2^31 - 1 ms (about 24.8 days) away overflows Node's
      timer: the update's reminder fires 1 ms later, long before the deadline. */
  lemma FarUpdateFiresEarly(w: World, emails: map<UserId, string>, validId: TaskId -> bool,
                            user: UserId, id: TaskId, body: TaskBody, now: int)
    requires PutTaskEffect(w, emails, validId, user, id, body, now).reply == Ok
    requires ResolveDeadline(body.tillDate.value, body.atWhatTime).Some?
    requires ResolveDeadline(body.tillDate.value, body.atWhatTime).value > now + MaxTimerDelay
    ensures var o := PutTaskEffect(w, emails, validId, user, id, body, now);
      o.world.timers[|w.timers|].FireAt() == now + 1
      && o.world.timers[|w.timers|].FireAt() < ResolveDeadline(body.tillDate.value, body.atWhatTime).value
  {
  }

  /** A task created with a future deadline and deleted before it is due is
      still reminded: once the deadline passes, the worker sends its mail. */
  lemma {:induction false} DeletedTaskStillReminded(w: World, emails: map<UserId, string>, validId: TaskId -> bool,
                                  user: UserId, body: TaskBody, id: TaskId, now: int, later: int)
    requires w.queue == [] && validId(id)
    requires |PostTaskEffect(w, emails, user, body, id, now).world.queue| == 1
    requires later >= ResolveDeadline(body.tillDate.value, body.atWhatTime).value
    ensures var posted := PostTaskEffect(w, emails, user, body, id, now).world;
      var deleted := DeleteTaskEffect(posted, validId, user, id).world;
      var sent := ProcessQueue(deleted, later);
      && id !in deleted.tasks
      && sent.fired == Some(0)
      && sent.world.outbox == w.outbox + [Mail(emails[user], Subject(body.description), CreateBody(body.description))]
  {
    var posted := PostTaskEffect(w, emails, user, body, id, now).world;
    var deleted := DeleteTaskEffect(posted, validId, user, id).world;
    assert |deleted.queue| == 1 && deleted.queue[0].FireAt() <= later;
    assert FirstDue(deleted.queue, later) == Some(0);
  }

  /** The handlers as the server runs them: one object owns the task store,
      the delayed queue, the armed timers and the sent mail, and each handler
      updates them in place. User e-mails (`User.findById`) and
      `validateObjectId` are fixed when the controller is built. */
  class TaskController {
    var tasks: map<TaskId, Task>
    var queue: seq<Reminder>
    var timers: seq<Reminder>
    var outbox: seq<Mail>
    const emails: map<UserId, string>
    const validObjectId: TaskId -> bool

    function State(): World
      reads this
    {
      World(tasks, queue, timers, outbox)
    }

    ghost predicate Valid()
      reads this
    {
      WellFormed(State())
    }

    constructor (emails: map<UserId, string>, validObjectId: TaskId -> bool)
      ensures Valid() && State() == World(map[], [], [], [])
      ensures this.emails == emails && this.validObjectId == validObjectId
    {
      this.emails := emails;
      this.validObjectId := validObjectId;
      tasks, queue, timers, outbox := map[], [], [], [];
    }

    method PostTask(user: UserId, body: TaskBody, newId: TaskId, now: int) returns (reply: Reply)
      requires Valid()
      modifies this
      ensures Valid()
      ensures Outcome(State(), reply) == PostTaskEffect(old(State()), emails, user, body, newId, now)
    {
      if !FieldsPresent(body) {
        return MissingFields;
      }
      if newId in tasks {
        return ServerError;
      }
      var tillDate := body.tillDate.value;
      tasks := tasks[newId := Task(user, body.description, tillDate, body.atWhatTime, Pending)];
      var timeout := Timeout(ResolveDeadline(tillDate, body.atWhatTime), now);
      if timeout.Some? && timeout.value > 0 {
        if user !in emails {
          return ServerError;
        }
        var email := emails[user];
        queue := queue + [Reminder(email, Subject(body.description), CreateBody(body.description), now, timeout.value)];
      }
      reply := Ok;
    }

    method PutTask(user: UserId, id: TaskId, body: TaskBody, now: int) returns (reply: Reply)
      requires Valid()
      modifies this
      ensures Valid()
      ensures Outcome(State(), reply) == PutTaskEffect(old(State()), emails, validObjectId, user, id, body, now)
    {
      if !FieldsPresent(body) {
        return MissingFields;
      }
      if !validObjectId(id) {
        return InvalidId;
      }
      if id !in tasks {
        return NotFound;
      }
      var task := tasks[id];
      if task.owner != user {
        return Forbidden;
      }
      if task.owner !in emails {
        return ServerError;
      }
      var edited := task.(description := body.description, tillDate := body.tillDate.value,
                          atWhatTime := body.atWhatTime);
      var timeout := Timeout(ResolveDeadline(edited.tillDate, body.atWhatTime), now);
      var email := emails[task.owner];
      timers := timers + [Reminder(email, Subject(body.description), UpdateBody, now, TimerDelay(timeout))];
      tasks := tasks[id := edited];
      reply := Ok;
    }

    method MarkTaskComplete(user: UserId, id: TaskId) returns (reply: Reply)
      requires Valid()
      modifies this
      ensures Valid()
      ensures Outcome(State(), reply) == MarkTaskCompleteEffect(old(State()), validObjectId, user, id)
    {
      if !validObjectId(id) {
        return InvalidId;
      }
      if id !in tasks {
        return NotFound;
      }
      if tasks[id].owner != user {
        return Forbidden;
      }
      tasks := tasks[id := tasks[id].(status := Completed)];
      reply := Ok;
    }

    method DeleteTask(user: UserId, id: TaskId) returns (reply: Reply)
      requires Valid()
      modifies this
      ensures Valid()
      ensures Outcome(State(), reply) == DeleteTaskEffect(old(State()), validObjectId, user, id)
    {
      if !validObjectId(id) {
        return InvalidId;
      }
      if id !in tasks {
        return NotFound;
      }
      if tasks[id].owner != user {
        return Forbidden;
      }
      tasks := tasks - {id};
      reply := Ok;
    }

    /** The queue worker takes one due job and sends its stored payload. */
    method ProcessDueJob(now: int) returns (sent: Option<Mail>)
      requires Valid()
      modifies this
      ensures Valid()
      ensures var d := ProcessQueue(old(State()), now);
        && State() == d.world
        && sent == if d.fired.Some? then Some(Payload(old(queue)[d.fired.value])) else None
    {
      var i := FirstDue(queue, now);
      if i.None? {
        return None;
      }
      var job := queue[i.value];
      queue := RemoveAt(queue, i.value);
      outbox := outbox + [Payload(job)];
      sent := Some(Payload(job));
    }

    /** One due timer runs its callback. */
    method FireDueTimer(now: int) returns (sent: Option<Mail>)
      requires Valid()
      modifies this
      ensures Valid()
      ensures var d := FireTimer(old(State()), now);
        && State() == d.world
        && sent == if d.fired.Some? && old(timers)[d.fired.value].email != ""
                   then Some(Payload(old(timers)[d.fired.value])) else None
    {
      var i := FirstDue(timers, now);
      if i.None? {
        return None;
      }
      var timer := timers[i.value];
      timers := RemoveAt(timers, i.value);
      if timer.email == "" {
        return None;
      }
      outbox := outbox + [Payload(timer)];
      sent := Some(Payload(timer));
    }
  }
}
