# Load distribution core of SuishaBot, in Dafny

SuishaBot queues image-generation requests from chat users and hands them to
a fixed set of remote generation back-ends ("webui" instances). This model
covers the load distributor in `src/LoadDistributionManager.py`:

- **Admission** (`queueing.dfy`, module `Queueing`). `LoadDist` owns the shared FIFO of
  pending jobs. `AddToQueue` scans the queue and counts the jobs of the new
  job's author. It refuses with `InQueue` when that count is at least
  `maxPerUser`. Otherwise it appends the job and answers `Queued`. Either way
  it returns the queue length before the call as the position. The object
  invariant `Valid()` states that every author has at most `maxPerUser`
  queued jobs. Admission and the worker's pop both keep it.
- **One worker step and the worker loop** (`worker.dfy`, module `Worker`).
  `Step` is the specification of one pass of `_worker_loop`, and the method
  `WorkerLoop` implements it against the shared queue and an event log.
  On an empty queue the step does nothing. Otherwise the head job is popped
  and exactly one message goes to that job's channel:
  - a non-200 status gives an error carrying the code and the response;
  - a 200 whose body is not a generation record gives a traceback (reading
    its parameters raises);
  - an exception after the pop gives its traceback;
  - a generation record gives the summary fields and the last image.

  An exception raised before the pop is only printed, and the queue is
  left as it was. `RunWorker` is `_worker`: a failed heartbeat prints one line
  and never touches the queue. A successful one prints one line and then
  repeats step-and-sleep, once per element of a finite sequence of backend
  replies. `RunDeliversInOrder` proves the loop is first-in first-out and
  answers each removed job exactly once, on its own channel.
- **Result summary** (`summary.dfy`, module `Summary`). Prompts longer than
  1020 characters are cut to 1020 characters plus `...`. Height and Width
  appear together, and only when either differs from its default. CFG Scale
  appears only when it differs from its default. Highres Fix appears only
  when it was enabled. Prompt, Negative Prompt, Steps, Sampler and Seed are
  always present, in that order.

Backend calls, exceptions and configuration are inputs. The
backend's reply to `txt_to_img`, or an exception inside the `try`, is a
`Reply` value. `heartbeat()` is a boolean parameter. The configured defaults
(`default_height`, `default_width`, `default_cfg`, `wrap_spoiler`, whose
default is true) form a `Defaults` parameter. `max_per_user` is a constructor
argument; the configuration's default for it is 5 (`DefaultMaxPerUser`).
Messages sent to a channel, lines printed to the console and sleeps are
appended to `Log.events`.

Two behaviours of `_worker` and `_worker_loop` worth noting:

- `_worker` sleeps one second after every step, including steps that
  processed a job.
- The status-error message is the text `Status code: <code>` followed by the
  response. The model keeps the code and the response as data.

## Model

| member | source | states |
|---|---|---|
| `Queueing.Status.Code` | src/LoadDistributionManager.py:143-145 | Queued is 0 and InQueue is 2, and no other status has either value |
| `Queueing.CountAuthorAppend` | src/LoadDistributionManager.py:171-174 | appending a job adds one to its author's count and leaves every other author's count unchanged |
| `Queueing.CountAuthorAbsent` | src/LoadDistributionManager.py:171-174 | an author with no queued job has a count of zero |
| `Queueing.ScanQueue` | src/LoadDistributionManager.py:169-174 | the scan counts exactly the author's jobs, and its position counter ends at the full queue length, not at the author's own count |
| `Queueing.AppendKeepsCap` | src/LoadDistributionManager.py:176-179 | appending a job whose author is below the cap keeps every author within the cap |
| `Queueing.PopKeepsCap` | src/LoadDistributionManager.py:29 | removing the head keeps every author within the cap |
| `Queueing.WithinCapBoundsEveryAuthor` | src/LoadDistributionManager.py:176-179 | under the invariant, no author has more than `maxPerUser` queued jobs, whether or not the author is present |
| `Queueing.LoadDist.constructor` | src/LoadDistributionManager.py:149-163 | the queue starts empty with the given cap, and the invariant holds |
| `Queueing.LoadDist.AddToQueue` | src/LoadDistributionManager.py:165-180 | rejects exactly when the author's count is at least the cap, and then leaves the queue unchanged; otherwise appends at the tail and keeps every earlier entry; the position is the old length in both cases; the cap invariant is preserved |
| `Summary.Truncate` | src/LoadDistributionManager.py:50-57 | a prompt of at most 1020 characters is unchanged; a longer one becomes its first 1020 characters followed by `...`, 1023 characters in all |
| `Summary.TruncateIdempotent` | src/LoadDistributionManager.py:52 | truncating twice gives the same text as truncating once |
| `Summary.SummaryFields` | src/LoadDistributionManager.py:44-83 | the first three fields are Prompt and Negative Prompt (truncated) and Steps; Sampler and Seed are present; the number of fields is 5 plus the optional ones whose conditions hold |
| `Summary.SummaryNames` | src/LoadDistributionManager.py:50-83 | the field names in order: Prompt, Negative Prompt, Steps, then Height and Width if the size is not the default, then Sampler, Seed, then CFG Scale if it is not the default, then Highres Fix if enabled |
| `Summary.SizePresence` | src/LoadDistributionManager.py:63-68 | Height is present iff Width is present, iff height or width differs from its default |
| `Summary.CfgScalePresence` | src/LoadDistributionManager.py:79-80 | CFG Scale is present iff it differs from the default |
| `Summary.HighresPresence` | src/LoadDistributionManager.py:82-83 | Highres Fix is present iff `enable_hr` holds |
| `Summary.BuildEmbed` | src/LoadDistributionManager.py:44-83 | the successive `add_field` calls produce exactly the summary fields |
| `Worker.PickImage` | src/LoadDistributionManager.py:101-103 | the overwriting loop keeps the last image, which is one of the inputs, or none when the list is empty |
| `Worker.Outcome` | src/LoadDistributionManager.py:31-129 | a status error is sent iff the code is not 200, and it carries that code and response; a traceback is sent iff an exception came after the pop or a 200 body has no parameters; a result is sent iff a 200 carries a generation record, with the summary fields, the last image and the spoiler setting |
| `Worker.Step` | src/LoadDistributionManager.py:15-129 | an empty queue gives no change and no event; otherwise exactly one event; only the head can leave and it is never put back; a pre-pop exception leaves the queue and prints the trace; any other reply removes the head and sends its outcome to the head's channel |
| `Worker.StepKeepsCap` | src/LoadDistributionManager.py:29 | a step keeps every author within the cap |
| `Worker.WorkerLoop` | src/LoadDistributionManager.py:15-129 | the imperative step leaves exactly the queue and the log that `Step` specifies, and keeps the cap invariant |
| `Worker.RunWorker` | src/LoadDistributionManager.py:132-140 | a failed heartbeat prints the failure line and leaves the queue untouched; a successful one prints the connected line and then runs step-and-sleep once per reply |
| `Worker.StepExtendsPrefix` | src/LoadDistributionManager.py:16-42 | a step on what remains of a queue removes at most its next job and sends messages only to that job's channel |
| `Worker.RunDeliversInOrder` | src/LoadDistributionManager.py:136-138 | after any number of steps the queue is a suffix of the original, and the messages sent went, in order, to the channels of exactly the removed prefix: FIFO, none lost, none answered twice |
| `Worker.RunSleepsAfterEveryStep` | src/LoadDistributionManager.py:136-138 | the loop sleeps exactly once per step, and the last event of a non-empty run is a sleep |

## Left out

- Threads: `LoadDist.__init__` starts one thread per back-end address. The
  unlocked deque can be drained by another worker between the emptiness
  test and `popleft`. The model is single-threaded. An exception before the
  pop is the input `Fault(afterPop := false, …)`.
- The foreign HTTP calls `WebUi(ip)`, `heartbeat()` and `txt_to_img` are not
  part of this model. Their results are inputs.
- Message rendering: the embed title, colour, description text, footer
  (author name, discriminator, avatar), `discord.File` and
  `event_loop.create_task` are not modelled. A message is a datatype
  appended to the log.
- Base64 decoding of the image, the `split(",", 1)` before it, and
  `json.loads` of `info` for the seed are not modelled. The seed and the
  images are opaque strings.
- `discord.File` given no image (a 200 reply with an empty `images` list) is
  not modelled. The result message then carries `None`.
- Timing: `time.time`, the compute time shown in the footer, and the
  duration of `time.sleep`. A sleep is a `Slept(1)` event.
- Configuration reading (lines 19-25 and 160-163): the defaults and the cap
  are parameters. A missing key at lines 19-21 raises outside the `try`,
  which would end the worker thread. That path is not modelled.
- Floating point: `cfg_scale` and `default_cfg` are Python floats, modelled
  as `real`. A NaN, for which the `!=` test at line 79 is always true, has no
  `real` counterpart.
- Traceback text: an exception is its trace string. A 200 body that is not a
  generation record is the `MissingParameters` error.
- `Worker.RunWorker`: the endless `while True` loop is modelled as a finite
  prefix, one iteration per element of `ticks`.
