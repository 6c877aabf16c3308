/**
 * The worker side of the load distributor: one step of `_worker_loop` (pop
 * the head job, submit it, route exactly one outcome to the job's channel)
 * and the heartbeat-gated loop of `_worker` that repeats the step with a
 * one-second sleep after each.
 *
 * The backend's answer and any exception raised while handling a job are
 * inputs (`Reply`); what the worker sends or prints, and its sleeps, are
 * appended to an event log.
 */
module Worker {
  import opened Queueing
  import opened Summary

  datatype Option<T> = None | Some(value: T)

  /** The body of the backend's response: the generation record, or anything else. */
  datatype Response =
    | Generated(params: Params, seed: string, images: seq<string>)
    | Raw(body: string)

  /**
   * What happens when the worker hands the job to its backend: an answer with
   * a status code, or an exception raised inside the `try`, either before the
   * job was popped (`afterPop == false`) or after it.
   */
  datatype Reply =
    | Answer(code: int, response: Response)
    | Fault(afterPop: bool, trace: string)

  /** The exception behind a traceback sent to a job's channel. */
  datatype Error =
    | Raised(trace: string)
    | MissingParameters(response: Response)

  /** A message sent to a job's channel. */
  datatype Message =
    | StatusError(code: int, response: Response)
    | Traceback(error: Error)
    | Result(fields: seq<Field>, image: Option<string>, spoiler: bool)

  /** An observable effect of the worker. */
  datatype Event =
    | Sent(channel: ChannelId, message: Message)
    | Printed(line: string)
    | Slept(seconds: nat)

  /** The status code of a successful generation. */
  const OkStatus := 200

  /** Seconds slept after every step. */
  const PollInterval: nat := 1

  /** Whether the exception was raised before the head job was popped. */
  predicate RaisedBeforePop(reply: Reply)
  {
    reply.Fault? && !reply.afterPop
  }

  /** The image kept by the loop over `response['images']`: the last one, if any. */
  function LastImage(images: seq<string>): (r: Option<string>)
    ensures r.None? <==> images == []
    ensures r.Some? ==> r.value == images[|images| - 1]
  {
    if images == [] then None else Some(images[|images| - 1])
  }

  /** The loop over the images, each one overwriting the previous. */
  method PickImage(images: seq<string>) returns (image: Option<string>)
    ensures image.None? <==> images == []
    ensures image.Some? ==> image.value in images
    ensures image == LastImage(images)
  {
    image := None;
    for i := 0 to |images|
      invariant image == LastImage(images[..i])
    {
      image := Some(images[i]);
    }
    assert images[..|images|] == images;
  }

  /**
   * The message a popped job receives: a non-200 status carries the code and
   * the response; a 200 whose body is not a generation record raises while
   * reading its parameters; an exception after the pop carries its traceback;
   * a generation record becomes the summary with the last image.
   */
  function Outcome(reply: Reply, d: Defaults): (m: Message)
    requires !RaisedBeforePop(reply)
    ensures m.StatusError? <==> reply.Answer? && reply.code != OkStatus
    ensures m.StatusError? ==> m.code == reply.code && m.response == reply.response
    ensures m.Traceback? <==> reply.Fault? || (reply.code == OkStatus && reply.response.Raw?)
    ensures m.Traceback? && reply.Fault? ==> m.error == Raised(reply.trace)
    ensures m.Traceback? && reply.Answer? ==> m.error == MissingParameters(reply.response)
    ensures m.Result? <==> reply.Answer? && reply.code == OkStatus && reply.response.Generated?
    ensures m.Result? ==>
      && m.spoiler == d.wrapSpoiler
      && m.image == LastImage(reply.response.images)
      && m.fields == SummaryFields(reply.response.params, reply.response.seed, d)
  {
    match reply
    case Fault(_, trace) => Traceback(Raised(trace))
    case Answer(code, response) =>
      if code != OkStatus then StatusError(code, response)
      else match response
        case Raw(_) => Traceback(MissingParameters(response))
        case Generated(params, seed, images) =>
          Result(SummaryFields(params, seed, d), LastImage(images), d.wrapSpoiler)
  }

  /** The queue after a step and the events it produced. */
  datatype StepResult = StepResult(queue: seq<Job>, emitted: seq<Event>)

  /**
   * One step of the worker: nothing on an empty queue; otherwise exactly one
   * event, and the head job leaves the queue unless the exception came before
   * the pop. A job that leaves is never put back, and its one message goes to
   * its own channel.
   */
  function Step(q: seq<Job>, reply: Reply, d: Defaults): (r: StepResult)
    ensures q == [] ==> r.queue == [] && r.emitted == []
    ensures q != [] ==> |r.emitted| == 1
    ensures r.queue == q || (q != [] && r.queue == q[1..])
    ensures q != [] && RaisedBeforePop(reply) ==> r.queue == q && r.emitted == [Printed(reply.trace)]
    ensures q != [] && !RaisedBeforePop(reply) ==>
      r.queue == q[1..] && r.emitted == [Sent(q[0].channel, Outcome(reply, d))]
  {
    if q == [] then StepResult(q, [])
    else if RaisedBeforePop(reply) then StepResult(q, [Printed(reply.trace)])
    else StepResult(q[1..], [Sent(q[0].channel, Outcome(reply, d))])
  }

  /** A step keeps every author within the cap. */
  lemma StepKeepsCap(q: seq<Job>, reply: Reply, d: Defaults, max: int)
    requires WithinCap(q, max)
    ensures WithinCap(Step(q, reply, d).queue, max)
  {
  }

  /** The worker's output: channel messages and console lines, in order. */
  class Log {
    var events: seq<Event>

    constructor ()
      ensures events == []
    {
      events := [];
    }
  }

  /**
   * `_worker_loop`: one step against the shared queue. The defaults read from
   * the configuration are parameters.
   */
  method WorkerLoop(dist: LoadDist, log: Log, reply: Reply, d: Defaults)
    requires dist.Valid()
    modifies dist`queue, log`events
    ensures dist.Valid()
    ensures dist.queue == Step(old(dist.queue), reply, d).queue
    ensures log.events == old(log.events) + Step(old(dist.queue), reply, d).emitted
  {
    if dist.queue == [] {
      return;
    }
    if RaisedBeforePop(reply) {
      log.events := log.events + [Printed(reply.trace)];
      return;
    }
    var job := dist.queue[0];
    PopKeepsCap(dist.queue, dist.maxPerUser);
    dist.queue := dist.queue[1..];
    var message: Message;
    match reply {
      case Fault(_, trace) =>
        message := Traceback(Raised(trace));
      case Answer(code, response) =>
        if code != OkStatus {
          message := StatusError(code, response);
        } else if response.Raw? {
          message := Traceback(MissingParameters(response));
        } else {
          var fields := BuildEmbed(response.params, response.seed, d);
          var image := PickImage(response.images);
          message := Result(fields, image, d.wrapSpoiler);
        }
    }
    log.events := log.events + [Sent(job.channel, message)];
  }

  /** `ticks` steps of the draining loop from queue `q`, each followed by a sleep. */
  function Run(q: seq<Job>, ticks: seq<Reply>, d: Defaults): (r: StepResult)
    decreases |ticks|
  {
    if ticks == [] then StepResult(q, [])
    else
      var before := Run(q, ticks[..|ticks| - 1], d);
      var step := Step(before.queue, ticks[|ticks| - 1], d);
      StepResult(step.queue, before.emitted + step.emitted + [Slept(PollInterval)])
  }

  /** The line printed when the heartbeat succeeds. */
  function ConnectedLine(ip: string): string
  {
    "connected to webui at " + ip
  }

  /** The line printed when the heartbeat fails. */
  function FailedLine(ip: string): string
  {
    "Connection to webui " + ip + " failed"
  }

  /**
   * `_worker`: probes the backend once; on failure prints and never touches
   * the queue; on success runs the step and sleeps, once per element of
   * `ticks` (a finite prefix of the endless loop).
   */
  method RunWorker(dist: LoadDist, log: Log, ip: string, heartbeat: bool, ticks: seq<Reply>, d: Defaults)
    requires dist.Valid()
    modifies dist`queue, log`events
    ensures dist.Valid()
    ensures !heartbeat ==>
      dist.queue == old(dist.queue) && log.events == old(log.events) + [Printed(FailedLine(ip))]
    ensures heartbeat ==>
      dist.queue == Run(old(dist.queue), ticks, d).queue
      && log.events == old(log.events) + [Printed(ConnectedLine(ip))] + Run(old(dist.queue), ticks, d).emitted
  {
    if !heartbeat {
      log.events := log.events + [Printed(FailedLine(ip))];
      return;
    }
    log.events := log.events + [Printed(ConnectedLine(ip))];
    ghost var q0 := dist.queue;
    ghost var start := log.events;
    for i := 0 to |ticks|
      invariant dist.Valid()
      invariant dist.queue == Run(q0, ticks[..i], d).queue
      invariant log.events == start + Run(q0, ticks[..i], d).emitted
    {
      assert ticks[..i + 1][..i] == ticks[..i];
      WorkerLoop(dist, log, ticks[i], d);
      log.events := log.events + [Slept(PollInterval)];
    }
    assert ticks[..|ticks|] == ticks;
  }

  /** The channels of `jobs`, in order. */
  function Channels(jobs: seq<Job>): (cs: seq<ChannelId>)
  {
    seq(|jobs|, i requires 0 <= i < |jobs| => jobs[i].channel)
  }

  /** The channels messages were sent to, in order. */
  function Deliveries(events: seq<Event>): seq<ChannelId>
  {
    if events == [] then []
    else
      var last := events[|events| - 1];
      Deliveries(events[..|events| - 1]) + (if last.Sent? then [last.channel] else [])
  }

  /** The number of sleeps among `events`. */
  function Sleeps(events: seq<Event>): nat
  {
    if events == [] then 0
    else Sleeps(events[..|events| - 1]) + (if events[|events| - 1].Slept? then 1 else 0)
  }

  lemma {:induction false} DeliveriesAppend(a: seq<Event>, b: seq<Event>)
    ensures Deliveries(a + b) == Deliveries(a) + Deliveries(b)
    decreases |b|
  {
    if b == [] {
      assert a + b == a;
    } else {
      assert (a + b)[..|a + b| - 1] == a + b[..|b| - 1];
      DeliveriesAppend(a, b[..|b| - 1]);
    }
  }

  lemma {:induction false} SleepsAppend(a: seq<Event>, b: seq<Event>)
    ensures Sleeps(a + b) == Sleeps(a) + Sleeps(b)
    decreases |b|
  {
    if b == [] {
      assert a + b == a;
    } else {
      assert (a + b)[..|a + b| - 1] == a + b[..|b| - 1];
      SleepsAppend(a, b[..|b| - 1]);
    }
  }

  /**
   * One step on a remainder `rest` of `q`: what remains is still a remainder,
   * and the job it removed, if any, is the one whose channel it answered.
   */
  lemma StepExtendsPrefix(q: seq<Job>, rest: seq<Job>, reply: Reply, d: Defaults)
    requires |rest| <= |q| && rest == q[|q| - |rest|..]
    ensures |Step(rest, reply, d).queue| <= |rest|
    ensures Step(rest, reply, d).queue == q[|q| - |Step(rest, reply, d).queue|..]
    ensures Channels(q[..|q| - |Step(rest, reply, d).queue|])
      == Channels(q[..|q| - |rest|]) + Deliveries(Step(rest, reply, d).emitted)
  {
  }

  /**
   * Draining is first-in first-out and answers every job it removes exactly
   * once, on its own channel: after any run, the queue is what remains of
   * the original after removing a prefix, and the messages sent went, in
   * order, to the channels of exactly the jobs of that prefix.
   */
  lemma {:induction false} RunDeliversInOrder(q: seq<Job>, ticks: seq<Reply>, d: Defaults)
    ensures |Run(q, ticks, d).queue| <= |q|
    ensures Run(q, ticks, d).queue == q[|q| - |Run(q, ticks, d).queue|..]
    ensures Deliveries(Run(q, ticks, d).emitted) == Channels(q[..|q| - |Run(q, ticks, d).queue|])
    decreases |ticks|
  {
    if ticks == [] {
      assert q[..0] == [];
    } else {
      var init := ticks[..|ticks| - 1];
      var before := Run(q, init, d);
      RunDeliversInOrder(q, init, d);
      var step := Step(before.queue, ticks[|ticks| - 1], d);
      StepExtendsPrefix(q, before.queue, ticks[|ticks| - 1], d);
      DeliveriesAppend(before.emitted + step.emitted, [Slept(PollInterval)]);
      DeliveriesAppend(before.emitted, step.emitted);
      assert Deliveries([Slept(PollInterval)]) == Deliveries([]) + [];
    }
  }

  /** The loop sleeps once after every step, whether or not it processed a job. */
  lemma {:induction false} RunSleepsAfterEveryStep(q: seq<Job>, ticks: seq<Reply>, d: Defaults)
    ensures Sleeps(Run(q, ticks, d).emitted) == |ticks|
    ensures ticks != [] ==> Run(q, ticks, d).emitted[|Run(q, ticks, d).emitted| - 1] == Slept(PollInterval)
    decreases |ticks|
  {
    if ticks != [] {
      var init := ticks[..|ticks| - 1];
      var before := Run(q, init, d);
      RunSleepsAfterEveryStep(q, init, d);
      var step := Step(before.queue, ticks[|ticks| - 1], d);
      SleepsAppend(before.emitted + step.emitted, [Slept(PollInterval)]);
      SleepsAppend(before.emitted, step.emitted);
      assert Sleeps(step.emitted) == 0 by {
        if step.emitted != [] {
          assert step.emitted[..0] == [];
        }
      }
    }
  }

  /**
   * A 500 answer sends one error carrying the code and the body to the job's
   * channel; the job is gone and is not retried.
   */
  method OutOfMemoryScenario()
  {
    var d := Defaults(512, 512, 7.0, DefaultWrapSpoiler);
    var dist := new LoadDist(DefaultMaxPerUser);
    var log := new Log();
    var status, pos := dist.AddToQueue(Job(7, 100));
    assert status == Queued && pos == 0;
    WorkerLoop(dist, log, Answer(500, Raw("GPU out of memory")), d);
    assert dist.queue == [];
    assert log.events == [Sent(100, StatusError(500, Raw("GPU out of memory")))];
    WorkerLoop(dist, log, Answer(200, Raw("unused")), d);
    assert |log.events| == 1;
  }
}
