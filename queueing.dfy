/**
 * The shared job queue of the load distributor and its per-author admission
 * control (`LoadDist.add_to_queue`, the `Status` enum).
 *
 * A job is identified, for fairness accounting, only by the id of the author
 * of the command that created it; the channel it answers to is carried along
 * untouched so that the worker can route its outcome.
 */
module Queueing {

  type AuthorId = int
  type ChannelId = int

  /** One queued request: `queue_obj.ctx.author.id` and `queue_obj.ctx.channel`. */
  datatype Job = Job(author: AuthorId, channel: ChannelId)

  /** The admission decision; the source's enum values are 0 and 2. */
  datatype Status = Queued | InQueue {
    function Code(): (c: int)
      ensures c == 0 <==> this == Queued
      ensures c == 2 <==> this == InQueue
    {
      match this
      case Queued => 0
      case InQueue => 2
    }
  }

  /** `max_per_user` when the configuration does not set it. */
  const DefaultMaxPerUser: int := 5

  /** Number of jobs in `q` whose author is `a`. */
  function CountAuthor(q: seq<Job>, a: AuthorId): nat
  {
    if q == [] then 0
    else (if q[0].author == a then 1 else 0) + CountAuthor(q[1..], a)
  }

  /** Every author present in `q` has at most `max` jobs in it. */
  ghost predicate WithinCap(q: seq<Job>, max: int)
  {
    forall i :: 0 <= i < |q| ==> CountAuthor(q, q[i].author) <= max
  }

  /** Appending one job adds one to its author's count and nothing to the others'. */
  lemma {:induction false} CountAuthorAppend(q: seq<Job>, j: Job, a: AuthorId)
    ensures CountAuthor(q + [j], a) == CountAuthor(q, a) + (if j.author == a then 1 else 0)
  {
    if q != [] {
      assert (q + [j])[1..] == q[1..] + [j];
      CountAuthorAppend(q[1..], j, a);
    }
  }

  /** An author that has no job in `q` has a zero count. */
  lemma {:induction false} CountAuthorAbsent(q: seq<Job>, a: AuthorId)
    requires forall i :: 0 <= i < |q| ==> q[i].author != a
    ensures CountAuthor(q, a) == 0
  {
    if q != [] {
      CountAuthorAbsent(q[1..], a);
    }
  }

  /**
   * Accepting a job whose author is still under the cap keeps every author
   * within the cap: the `>= max_per_user` test guards the `append`.
   */
  lemma AppendKeepsCap(q: seq<Job>, j: Job, max: int)
    requires WithinCap(q, max)
    requires CountAuthor(q, j.author) < max
    ensures WithinCap(q + [j], max)
  {
    var q' := q + [j];
    forall i | 0 <= i < |q'|
      ensures CountAuthor(q', q'[i].author) <= max
    {
      CountAuthorAppend(q, j, q'[i].author);
      if q'[i].author != j.author {
        assert i < |q| && q'[i] == q[i];
      }
    }
  }

  /** Removing the head (the worker's `popleft`) keeps every author within the cap. */
  lemma PopKeepsCap(q: seq<Job>, max: int)
    requires WithinCap(q, max)
    requires q != []
    ensures WithinCap(q[1..], max)
  {
  }

  /** Under the cap, no author has more than `max` jobs, whether or not present. */
  lemma {:induction false} WithinCapBoundsEveryAuthor(q: seq<Job>, max: int, a: AuthorId)
    requires WithinCap(q, max)
    requires max >= 0
    ensures CountAuthor(q, a) <= max
  {
    if i :| 0 <= i < |q| && q[i].author == a {
    } else {
      CountAuthorAbsent(q, a);
    }
  }

  /**
   * The `for obj in self.queue` scan: walks the whole queue, counting every entry in
   * `pos` and the author's own entries in `num`.
   */
  method ScanQueue(q: seq<Job>, a: AuthorId) returns (num: nat, pos: nat)
    ensures num == CountAuthor(q, a)
    ensures pos == |q|
  {
    num, pos := 0, 0;
    for i := 0 to |q|
      invariant pos == i
      invariant num == CountAuthor(q[..i], a)
    {
      pos := pos + 1;
      assert q[..i + 1] == q[..i] + [q[i]];
      CountAuthorAppend(q[..i], q[i], a);
      if q[i].author == a {
        num := num + 1;
      }
    }
    assert q[..|q|] == q;
  }

  /** The load distributor's shared queue (`LoadDist.queue`, a deque). */
  class LoadDist {
    var queue: seq<Job>
    const maxPerUser: int

    /** The queue keeps every author within the cap at all times. */
    ghost predicate Valid()
      reads this
    {
      WithinCap(queue, maxPerUser)
    }

    /** Starts with an empty queue; the worker threads are not part of this model. */
    constructor (maxPerUser: int)
      ensures Valid()
      ensures queue == [] && this.maxPerUser == maxPerUser
    {
      queue := [];
      this.maxPerUser := maxPerUser;
    }

    /**
     * `add_to_queue`: rejects with `InQueue` exactly when the author already
     * has `maxPerUser` or more queued jobs, leaving the queue as it was;
     * otherwise appends the job at the tail. Either way the position is the
     * queue length before the call.
     */
    method AddToQueue(job: Job) returns (status: Status, pos: int)
      requires Valid()
      modifies this`queue
      ensures Valid()
      ensures status == InQueue <==> CountAuthor(old(queue), job.author) >= maxPerUser
      ensures pos == |old(queue)|
      ensures status == InQueue ==> queue == old(queue)
      ensures status == Queued ==> queue == old(queue) + [job]
    {
      var num, scanned := ScanQueue(queue, job.author);
      if num >= maxPerUser {
        return InQueue, scanned;
      }
      AppendKeepsCap(queue, job, maxPerUser);
      queue := queue + [job];
      return Queued, |queue| - 1;
    }
  }

  /** With a cap of two, an author's third job is refused at position two. */
  method AdmissionScenario()
  {
    var dist := new LoadDist(2);
    var s0, p0 := dist.AddToQueue(Job(7, 100));
    assert s0 == Queued && p0 == 0;
    var s1, p1 := dist.AddToQueue(Job(7, 101));
    assert s1 == Queued && p1 == 1;
    assert dist.queue == [Job(7, 100), Job(7, 101)];
    assert CountAuthor(dist.queue, 7) == 2 by {
      assert dist.queue[1..][1..] == [];
    }
    CountAuthorAbsent(dist.queue, 8);
    var s2, p2 := dist.AddToQueue(Job(7, 102));
    assert s2 == InQueue && p2 == 2 && |dist.queue| == 2;
    var s3, p3 := dist.AddToQueue(Job(8, 103));
    assert s3 == Queued && p3 == 2;
  }
}
