/** The tiered task queue: three bounded FIFO tiers (HIGH, NORMAL, LOW) and
    an unbounded BACKLOG that hands out its lowest-priority task first.
    Submission routes a task by priority, with an overflow policy when the
    home tier is full; taking a task serves the tiers in strict precedence. */
module Scheduler {
  import opened JavaTypes
  import opened TaskTypes
  import opened Tasks

  datatype QueueType = HIGH | NORMAL | LOW | BACKLOG

  const HighPriorityThreshold: int := 10
  const NormalPriorityThreshold: int := 5
  const LowPriorityThreshold: int := 0
  const TaskLevelDownThreshold: int := 3

  /** The tier a priority belongs to before any overflow. */
  function HomeTier(priority: Int32): (q: QueueType)
    ensures q == HIGH <==> HighPriorityThreshold <= priority
    ensures q == NORMAL <==> NormalPriorityThreshold <= priority < HighPriorityThreshold
    ensures q == LOW <==> LowPriorityThreshold <= priority < NormalPriorityThreshold
    ensures q == BACKLOG <==> priority < LowPriorityThreshold
  {
    if priority >= HighPriorityThreshold then HIGH
    else if priority >= NormalPriorityThreshold then NORMAL
    else if priority >= LowPriorityThreshold then LOW
    else BACKLOG
  }

  /** The contents of the four tiers, in the order each one hands them out
      (the backlog as a multiset: its order is by priority). */
  datatype Queues = Queues(high: seq<Task>, normal: seq<Task>, low: seq<Task>, backlog: multiset<Task>)
  {
    function Size(q: QueueType): nat
    {
      match q
      case HIGH => |high|
      case NORMAL => |normal|
      case LOW => |low|
      case BACKLOG => |backlog|
    }

    /** Every task held by some tier, with multiplicity. */
    function Pending(): multiset<Task>
    {
      multiset(high) + multiset(normal) + multiset(low) + backlog
    }

    /** The tiers after `t` joins tier `q` (at the tail, for a bounded tier). */
    function With(q: QueueType, t: Task): (r: Queues)
      ensures r.Pending() == Pending() + multiset{t}
      ensures r.Size(q) == Size(q) + 1
      ensures q != HIGH ==> r.high == high
      ensures q != NORMAL ==> r.normal == normal
      ensures q != LOW ==> r.low == low
      ensures q != BACKLOG ==> r.backlog == backlog
    {
      match q
      case HIGH =>
        AppendMultiset(high, t);
        Queues(high + [t], normal, low, backlog)
      case NORMAL =>
        AppendMultiset(normal, t);
        Queues(high, normal + [t], low, backlog)
      case LOW =>
        AppendMultiset(low, t);
        Queues(high, normal, low + [t], backlog)
      case BACKLOG => Queues(high, normal, low, backlog + multiset{t})
    }
  }

  lemma AppendMultiset(s: seq<Task>, t: Task)
    ensures multiset(s + [t]) == multiset(s) + multiset{t}
  {
  }

  /** `canLevelDown` as written: a HIGH-tier priority never may; a NORMAL-tier
      priority consults the HIGH queue's occupancy, a LOW-tier priority the
      NORMAL queue's, a negative one the LOW queue's (both of the last two
      are never asked). Sizes minus priority are `int` arithmetic. */
  function CanLevelDown(priority: Int32, s: Queues, maxQueueSize: Int32): (b: bool)
    ensures b ==> priority < HighPriorityThreshold
    ensures b && NormalPriorityThreshold <= priority ==> |s.high| < maxQueueSize
    ensures b && LowPriorityThreshold <= priority < NormalPriorityThreshold ==> |s.normal| < maxQueueSize
    ensures b && priority < LowPriorityThreshold ==> |s.low| < maxQueueSize
  {
    if priority >= HighPriorityThreshold then false
    else if priority >= NormalPriorityThreshold then
      |s.high| < maxQueueSize && Wrap32(|s.high| - priority) <= TaskLevelDownThreshold
    else if priority >= LowPriorityThreshold then
      |s.normal| < maxQueueSize && Wrap32(|s.normal| - priority) <= TaskLevelDownThreshold
    else
      |s.low| < maxQueueSize && Wrap32(|s.low| - priority) <= TaskLevelDownThreshold
  }

  /** A task of HIGH priority is never allowed to step down. */
  lemma HighNeverLevelsDown(priority: Int32, s: Queues, maxQueueSize: Int32)
    requires priority >= HighPriorityThreshold
    ensures !CanLevelDown(priority, s, maxQueueSize)
  {
  }

  /** For a NORMAL-tier priority the check reads the HIGH queue, not LOW. */
  lemma NormalLevelDownReadsHigh(priority: Int32, s: Queues, maxQueueSize: Int32)
    requires NormalPriorityThreshold <= priority < HighPriorityThreshold
    ensures CanLevelDown(priority, s, maxQueueSize) <==>
      |s.high| < maxQueueSize && |s.high| - priority <= TaskLevelDownThreshold
  {
  }

  /** A task with the least priority in `b` (`PriorityBlockingQueue.poll`
      under `compareTo`; which of several equal ones is unspecified). */
  method LeastPriority(b: multiset<Task>) returns (t: Task)
    requires b != multiset{}
    ensures t in b
    ensures forall u :: u in b ==> t.priority <= u.priority
  {
    t :| t in b;
    var unseen := set u | u in b;
    unseen := unseen - {t};
    while unseen != {}
      invariant t in b
      invariant forall u :: u in b && u !in unseen ==> t.priority <= u.priority
      decreases unseen
    {
      var u :| u in unseen;
      if u.priority < t.priority {
        t := u;
      }
      unseen := unseen - {u};
    }
  }

  lemma PendingAfterPoll(s: seq<Task>)
    requires s != []
    ensures multiset(s[1..]) + multiset{s[0]} == multiset(s)
  {
    assert s == [s[0]] + s[1..];
  }

  /** Nothing is pending exactly when every tier is empty. */
  lemma EmptyPending(s: Queues)
    ensures s.Pending() == multiset{} <==>
      s.high == [] && s.normal == [] && s.low == [] && s.backlog == multiset{}
  {
    if s.high != [] {
      assert s.high[0] in multiset(s.high);
      assert s.high[0] in s.Pending();
    }
    if s.normal != [] {
      assert s.normal[0] in multiset(s.normal);
      assert s.normal[0] in s.Pending();
    }
    if s.low != [] {
      assert s.low[0] in multiset(s.low);
      assert s.low[0] in s.Pending();
    }
    if s.backlog != multiset{} {
      var x :| x in s.backlog;
      assert x in s.Pending();
    }
  }

  /** Taking the head of a bounded tier, or one backlog task, removes exactly
      that task from what is pending. */
  lemma PollHigh(s: Queues)
    requires s.high != []
    ensures s.(high := s.high[1..]).Pending() + multiset{s.high[0]} == s.Pending()
  {
    PendingAfterPoll(s.high);
  }

  lemma PollNormal(s: Queues)
    requires s.normal != []
    ensures s.(normal := s.normal[1..]).Pending() + multiset{s.normal[0]} == s.Pending()
  {
    PendingAfterPoll(s.normal);
  }

  lemma PollLow(s: Queues)
    requires s.low != []
    ensures s.(low := s.low[1..]).Pending() + multiset{s.low[0]} == s.Pending()
  {
    PendingAfterPoll(s.low);
  }

  lemma PollBacklog(s: Queues, t: Task)
    requires t in s.backlog
    ensures s.(backlog := s.backlog - multiset{t}).Pending() + multiset{t} == s.Pending()
  {
  }

  /** What one take does to the tiers: `r` is `s` with `t` removed from the
      first non-empty tier (the head of a bounded tier, some backlog task),
      or `s` itself with `t` null when every tier is empty. */
  ghost predicate Took(s: Queues, r: Queues, t: Task?)
  {
    if s.high != [] then t == s.high[0] && r == s.(high := s.high[1..])
    else if s.normal != [] then t == s.normal[0] && r == s.(normal := s.normal[1..])
    else if s.low != [] then t == s.low[0] && r == s.(low := s.low[1..])
    else if s.backlog != multiset{} then t != null && t in s.backlog && r == s.(backlog := s.backlog - multiset{t})
    else t == null && r == s
  }

  /** A take removes exactly the returned task from what is pending, and
      returns null exactly when nothing is pending. */
  lemma TookPending(s: Queues, r: Queues, t: Task?)
    requires Took(s, r, t)
    ensures t == null <==> s.Pending() == multiset{}
    ensures t == null ==> r == s
    ensures t != null ==> r.Pending() + multiset{t} == s.Pending()
  {
    EmptyPending(s);
    if s.high != [] {
      PollHigh(s);
    } else if s.normal != [] {
      PollNormal(s);
    } else if s.low != [] {
      PollLow(s);
    } else if s.backlog != multiset{} {
      PollBacklog(s, t);
    }
  }

  class TaskQueueService {
    var high: seq<Task>
    var normal: seq<Task>
    var low: seq<Task>
    var backlog: multiset<Task>
    const maxQueueSize: Int32

    /** The bounded tiers never exceed their capacity, which is positive. */
    ghost predicate Valid()
      reads this
    {
      1 <= maxQueueSize && |high| <= maxQueueSize && |normal| <= maxQueueSize && |low| <= maxQueueSize
    }

    function State(): Queues
      reads this
    {
      Queues(high, normal, low, backlog)
    }

    /** The constructor; a capacity below 1 makes the Java queues throw,
        which `NewTaskQueueService` models. */
    constructor (maxQueueSize: Int32)
      requires 1 <= maxQueueSize
      ensures Valid() && this.maxQueueSize == maxQueueSize
      ensures State() == Queues([], [], [], multiset{})
    {
      this.maxQueueSize := maxQueueSize;
      high, normal, low, backlog := [], [], [], multiset{};
    }

    /** The per-tier size query of `getQueueStatus`. */
    function Size(q: QueueType): (n: nat)
      reads this
      requires Valid()
      ensures n == State().Size(q)
      ensures q != BACKLOG ==> n <= maxQueueSize
    {
      State().Size(q)
    }

    /** `submitTask` as written. Each `offer` to a full bounded queue fails
        and leaves it unchanged. */
    method SubmitTask(task: Task) returns (r: QueueType)
      requires Valid()
      modifies this
      ensures Valid()
      // The home tier has room: the task joins its tail.
      ensures var s := old(State());
        HomeTier(task.priority) != BACKLOG && s.Size(HomeTier(task.priority)) < maxQueueSize ==>
          r == HomeTier(task.priority) && State() == s.With(r, task)
      // Negative priority: always the backlog, whatever the tiers hold.
      ensures HomeTier(task.priority) == BACKLOG ==> r == BACKLOG && State() == old(State()).With(BACKLOG, task)
      // HIGH is full: always the backlog, never NORMAL.
      ensures HomeTier(task.priority) == HIGH && |old(high)| >= maxQueueSize ==>
        r == BACKLOG && State() == old(State()).With(BACKLOG, task)
      // NORMAL is full: LOW exactly when the HIGH queue passes the check.
      ensures HomeTier(task.priority) == NORMAL && |old(normal)| >= maxQueueSize ==>
        (r == LOW <==> |old(high)| < maxQueueSize && |old(high)| - task.priority <= TaskLevelDownThreshold) &&
        (r == LOW || r == BACKLOG) &&
        (r == BACKLOG ==> State() == old(State()).With(BACKLOG, task)) &&
        (r == LOW && |old(low)| < maxQueueSize ==> State() == old(State()).With(LOW, task)) &&
        (r == LOW && |old(low)| >= maxQueueSize ==> State() == old(State()))
      // LOW is full: the backlog.
      ensures HomeTier(task.priority) == LOW && |old(low)| >= maxQueueSize ==>
        r == BACKLOG && State() == old(State()).With(BACKLOG, task)
      // The task is queued, except when a demotion to a full LOW loses it.
      ensures State() == old(State()) || State() == old(State()).With(r, task)
    {
      var priority := task.priority;
      if priority >= HighPriorityThreshold {
        if |high| >= maxQueueSize {
          if CanLevelDown(task.priority, State(), maxQueueSize) {
            // The demotion to NORMAL (offer to NORMAL, return NORMAL) can
            // never run: the check refuses every HIGH-tier priority.
            assert false;
            return NORMAL;
          } else {
            backlog := backlog + multiset{task};
            return BACKLOG;
          }
        } else {
          high := high + [task];
          return HIGH;
        }
      } else if priority >= NormalPriorityThreshold {
        if |normal| >= maxQueueSize {
          if CanLevelDown(task.priority, State(), maxQueueSize) {
            if |low| < maxQueueSize {
              low := low + [task];
            }
            return LOW;
          } else {
            backlog := backlog + multiset{task};
            return BACKLOG;
          }
        } else {
          normal := normal + [task];
          return NORMAL;
        }
      } else if priority >= LowPriorityThreshold {
        if |low| >= maxQueueSize {
          backlog := backlog + multiset{task};
          return BACKLOG;
        } else {
          low := low + [task];
          return LOW;
        }
      } else {
        backlog := backlog + multiset{task};
        return BACKLOG;
      }
    }

    /** `submitTask` with the lost-task defect repaired: a demotion whose
        target queue is full goes to the backlog instead, so the task always
        lands in the tier that is returned. */
    method SubmitTaskIntended(task: Task) returns (r: QueueType)
      requires Valid()
      modifies this
      ensures Valid()
      ensures State() == old(State()).With(r, task)
      ensures State().Pending() == old(State().Pending()) + multiset{task}
      ensures var s := old(State());
        HomeTier(task.priority) != BACKLOG && s.Size(HomeTier(task.priority)) < maxQueueSize ==>
          r == HomeTier(task.priority)
      ensures HomeTier(task.priority) == BACKLOG ==> r == BACKLOG
      ensures var home := HomeTier(task.priority);
        home != NORMAL && old(State()).Size(home) >= maxQueueSize ==> r == BACKLOG
      ensures HomeTier(task.priority) == NORMAL && |old(normal)| >= maxQueueSize ==>
        (r == LOW <==> CanLevelDown(task.priority, old(State()), maxQueueSize) && |old(low)| < maxQueueSize) &&
        (r == LOW || r == BACKLOG)
    {
      var priority := task.priority;
      if priority >= HighPriorityThreshold {
        if |high| >= maxQueueSize {
          backlog := backlog + multiset{task};
          return BACKLOG;
        } else {
          high := high + [task];
          return HIGH;
        }
      } else if priority >= NormalPriorityThreshold {
        if |normal| >= maxQueueSize {
          if CanLevelDown(task.priority, State(), maxQueueSize) && |low| < maxQueueSize {
            low := low + [task];
            return LOW;
          } else {
            backlog := backlog + multiset{task};
            return BACKLOG;
          }
        } else {
          normal := normal + [task];
          return NORMAL;
        }
      } else if priority >= LowPriorityThreshold {
        if |low| >= maxQueueSize {
          backlog := backlog + multiset{task};
          return BACKLOG;
        } else {
          low := low + [task];
          return LOW;
        }
      } else {
        backlog := backlog + multiset{task};
        return BACKLOG;
      }
    }

    /** `takeTask`: the head of the first non-empty tier among HIGH, NORMAL
        and LOW, else a least-priority backlog task, else `null`. */
    method TakeTask() returns (t: Task?)
      requires Valid()
      modifies this
      ensures Valid()
      ensures old(high) != [] ==>
        t == old(high)[0] && high == old(high)[1..] &&
        normal == old(normal) && low == old(low) && backlog == old(backlog)
      ensures old(high) == [] && old(normal) != [] ==>
        t == old(normal)[0] && normal == old(normal)[1..] &&
        high == old(high) && low == old(low) && backlog == old(backlog)
      ensures old(high) == [] && old(normal) == [] && old(low) != [] ==>
        t == old(low)[0] && low == old(low)[1..] &&
        high == old(high) && normal == old(normal) && backlog == old(backlog)
      ensures old(high) == [] && old(normal) == [] && old(low) == [] && old(backlog) != multiset{} ==>
        t != null && t in old(backlog) && (forall u :: u in old(backlog) ==> t.priority <= u.priority) &&
        backlog == old(backlog) - multiset{t} &&
        high == old(high) && normal == old(normal) && low == old(low)
      ensures t == null <==> old(State().Pending()) == multiset{}
      ensures t == null ==> State() == old(State())
      ensures t != null ==> State().Pending() + multiset{t} == old(State().Pending())
    {
      ghost var s := State();
      if high != [] {
        t := high[0];
        high := high[1..];
        assert State() == s.(high := s.high[1..]);
        TookPending(s, State(), t);
      } else if normal != [] {
        t := normal[0];
        normal := normal[1..];
        assert State() == s.(normal := s.normal[1..]);
        TookPending(s, State(), t);
      } else if low != [] {
        t := low[0];
        low := low[1..];
        assert State() == s.(low := s.low[1..]);
        TookPending(s, State(), t);
      } else if backlog != multiset{} {
        var least := LeastPriority(backlog);
        t := least;
        backlog := backlog - multiset{least};
        assert State() == s.(backlog := s.backlog - multiset{least});
        TookPending(s, State(), t);
      } else {
        t := null;
        assert State() == s;
        TookPending(s, State(), t);
      }
    }
  }

  /** Constructing the service: `LinkedBlockingQueue` rejects a capacity
      below 1 with IllegalArgumentException. */
  method NewTaskQueueService(maxQueueSize: Int32) returns (r: Result<TaskQueueService, Exception>)
    ensures r.Failure? <==> maxQueueSize < 1
    ensures r.Failure? ==> r.error.IllegalArgumentException?
    ensures r.Success? ==> fresh(r.value) && r.value.Valid() && r.value.maxQueueSize == maxQueueSize
    ensures r.Success? ==> r.value.State() == Queues([], [], [], multiset{})
  {
    if maxQueueSize < 1 {
      return Failure(IllegalArgumentException("capacity must be positive"));
    }
    var service := new TaskQueueService(maxQueueSize);
    return Success(service);
  }

  /** A fresh service of the given capacity after a LOW-tier and then a
      NORMAL-tier task were submitted: each sits alone in its home tier. */
  method TwoTierSetup(capacity: Int32, lowTask: Task, normalTask: Task) returns (service: TaskQueueService)
    requires 1 <= capacity
    requires LowPriorityThreshold <= lowTask.priority < NormalPriorityThreshold
    requires NormalPriorityThreshold <= normalTask.priority < HighPriorityThreshold
    ensures fresh(service) && service.Valid() && service.maxQueueSize == capacity
    ensures service.State() == Queues([], [normalTask], [lowTask], multiset{})
  {
    service := new TaskQueueService(capacity);
    var r1 := service.SubmitTask(lowTask);
    assert service.State() == Queues([], [], [lowTask], multiset{});
    var r2 := service.SubmitTask(normalTask);
  }

  /** A run of the code as written that loses a task: capacity 1, LOW holds
      a priority-0 task, NORMAL a priority-5 task, HIGH is empty; a second
      priority-5 task passes the check against HIGH, is reported as LOW, and
      is in no queue. */
  method LostTaskScenario() returns (service: TaskQueueService, lost: Task, tier: QueueType)
    ensures service.Valid()
    ensures tier == LOW && lost !in service.State().Pending()
  {
    var lowTask := new Task("low", CustomTask, map[], 0, 0);
    var normalTask := new Task("normal", CustomTask, map[], 5, 0);
    service := TwoTierSetup(1, lowTask, normalTask);
    lost := new Task("lost", CustomTask, map[], 5, 0);
    tier := service.SubmitTask(lost);
    assert service.State() == Queues([], [normalTask], [lowTask], multiset{});
  }

  /** The repaired submission on the same run keeps the task: it lands in
      the backlog and is handed out later. */
  method KeptTaskScenario() returns (service: TaskQueueService, kept: Task, tier: QueueType)
    ensures service.Valid()
    ensures tier == BACKLOG && kept in service.State().Pending()
  {
    var lowTask := new Task("low", CustomTask, map[], 0, 0);
    var normalTask := new Task("normal", CustomTask, map[], 5, 0);
    service := TwoTierSetup(1, lowTask, normalTask);
    kept := new Task("kept", CustomTask, map[], 5, 0);
    tier := service.SubmitTaskIntended(kept);
  }

  /** A LOW, a NORMAL and a HIGH task submitted in that order to a service
      of capacity 10 each land at the tail of their home tier. */
  method PrecedenceSetup() returns (service: TaskQueueService, highTask: Task, normalTask: Task, lowTask: Task)
    ensures fresh(service) && service.Valid()
    ensures service.State() == Queues([highTask], [normalTask], [lowTask], multiset{})
  {
    highTask := new Task("high", ImageScaling, map[], 15, 0);
    normalTask := new Task("normal", ImageScaling, map[], 7, 0);
    lowTask := new Task("low", ImageScaling, map[], 3, 0);
    service := TwoTierSetup(10, lowTask, normalTask);
    var r3 := service.SubmitTask(highTask);
  }

  /** Tier precedence on one run: after the setup above, the tasks come back
      HIGH first, then NORMAL, then LOW. */
  method PrecedenceScenario() returns (first: Task?, second: Task?, third: Task?, highTask: Task, normalTask: Task, lowTask: Task)
    ensures first == highTask && second == normalTask && third == lowTask
  {
    var service;
    service, highTask, normalTask, lowTask := PrecedenceSetup();
    first := service.TakeTask();
    assert [highTask][1..] == [];
    second, third := DrainTwo(service, normalTask, lowTask);
  }

  /** The last two takes of the precedence run. */
  method DrainTwo(service: TaskQueueService, normalTask: Task, lowTask: Task) returns (second: Task?, third: Task?)
    requires service.Valid() && service.State() == Queues([], [normalTask], [lowTask], multiset{})
    modifies service
    ensures second == normalTask && third == lowTask
  {
    second := service.TakeTask();
    assert [normalTask][1..] == [];
    third := service.TakeTask();
  }
}
