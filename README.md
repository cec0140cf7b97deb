# Distributed task processor: queueing, result store and dispatch validation

This project models, in Dafny, the in-memory core of a small Java task
processor. Tasks are submitted with an integer priority and queued in tiers.
Worker threads take them in tier order. A processor class is chosen by the
task's type, after the task's parameters have been checked against that
type's schema. Finished results are kept in a bounded store that evicts the
oldest results.

Modules, one per concern, following the Java packages:

- `JavaTypes`:
  - Java `int`/`long` as subset types, with `Wrap32` for `int` arithmetic;
  - the values that can sit in a `Map<String, Object>`;
  - the exceptions;
  - `Class.isInstance` for the four schema classes;
  - `Option` (for `null`) and `Result` (for a thrown exception).
- `TaskTypes`:
  - the four task types, with their names (`toString`), parameter schemas and processor classes;
  - case-insensitive lookup (`fromString`);
  - lemmas about which parameter maps validate.
- `Tasks`:
  - the `Task` class: constructors, `compareTo`, `setPriority`;
  - the validation half of `TaskType.createProcessor`. It lives here because it updates a task, and Java's `Task`/`TaskType` cycle cannot be a module cycle.
- `TaskResults`: the `TaskResult` class, its three factories and its setters.
- `ResultStore`:
  - the `TaskResultStore` class: eviction on store, lookup, recent results, snapshot;
  - the eviction arithmetic, in Java `int`.
- `Scheduler`:
  - the `TaskQueueService` class, with four queues per instance;
  - `submitTask` exactly as written, and a repaired `SubmitTaskIntended`;
  - `takeTask`;
  - `canLevelDown`;
  - lemmas about how many tasks are pending;
  - three concrete runs.

Each tier is a field of the service. HIGH, NORMAL and LOW are `seq<Task>` in
FIFO order, and BACKLOG is a `multiset<Task>`, because its order comes from
priority. `State()` gathers the four into a `Queues` value. Each mutating
method's contract relates the new `State()` to the old one:

- `Queues.With(q, t)` is the state after `t` joins tier `q`.
- `Pending()` is the multiset of every queued task.

Where this model follows the code rather than the source's own comments (TaskQueueService.java:132 says `takeTask` "Takes the highest priority task", and Task.java:39 says "Higher values indicate higher priority"):

- The backlog hands out a task of the *least* priority first. `compareTo` is ascending, and `PriorityBlockingQueue` polls its least element.
- A HIGH-tier task that overflows always goes to the backlog. `canLevelDown` refuses every priority of 10 or more, so the demotion to NORMAL is dead code.
- For a NORMAL-tier task, the demotion check reads the HIGH queue's size, but the task is then offered to LOW.
- The LOW and negative branches of `canLevelDown` are never asked.
- `int.class` and `double.class` are schema kinds that no value is an instance of. So an image task can never pass validation.
- The `task_type` entry is written into the parameters before the checks, and it stays there when validation fails.

## Model

Source paths are relative to the repository root.

| member | source | states |
|---|---|---|
| JavaTypes.Wrap32 | src/main/java/garretreichenbach/taskprocessor/service/TaskQueueService.java:167 | Java `int` subtraction: the result is congruent to the exact value modulo 2^32, and equals it when that value fits in an `int` |
| JavaTypes.IsInstance | src/main/java/garretreichenbach/taskprocessor/model/TaskType.java:143 | `Class.isInstance`: `null` is an instance of nothing, and only `byte[].class` and `String.class` accept any value |
| JavaTypes.PrimitiveKindsRejectAll | src/main/java/garretreichenbach/taskprocessor/model/TaskType.java:143 | `isInstance` on `int.class` or `double.class` is false for every value, boxed numbers included |
| TaskTypes.Name | src/main/java/garretreichenbach/taskprocessor/model/TaskType.java:119-122 | `toString` returns the declared name, a non-empty string of lower-case ASCII letters |
| TaskTypes.Schema | src/main/java/garretreichenbach/taskprocessor/model/TaskType.java:15-91 | the declared required-parameter table: no schema names `task_type`; the image schemas demand `data` as `byte[]` and `width` as `int.class`; the custom schema demands `script` and `task_id`, both strings |
| TaskTypes.ProcessorOf | src/main/java/garretreichenbach/taskprocessor/model/TaskType.java:15-91 | the declared processor class: `CustomTaskProcessor` exactly for CUSTOM_TASK, `ImageProcessor` for the three image types |
| TaskTypes.ToUpper | src/main/java/garretreichenbach/taskprocessor/model/TaskType.java:126 | the case folding `equalsIgnoreCase` applies: a lower-case ASCII letter becomes upper case, no result is a lower-case ASCII letter, and only those letters and U+017F change |
| TaskTypes.EqualsIgnoreCase | src/main/java/garretreichenbach/taskprocessor/model/TaskType.java:126 | `equalsIgnoreCase`: strings that match have equal lengths, and every string matches itself |
| TaskTypes.Values | src/main/java/garretreichenbach/taskprocessor/model/TaskType.java:125 | `values()` lists each type once |
| TaskTypes.Ordinal | src/main/java/garretreichenbach/taskprocessor/model/TaskType.java:12-91 | every type occurs in `values()`, at its ordinal |
| TaskTypes.MatchIsUnique | src/main/java/garretreichenbach/taskprocessor/model/TaskType.java:15-91 | no two type names are equal ignoring case, so at most one type matches any string |
| TaskTypes.FromString | src/main/java/garretreichenbach/taskprocessor/model/TaskType.java:124-129 | returns the type whose name equals the argument ignoring case; fails exactly when no name matches, with IllegalArgumentException "No TaskType found for name: " + name |
| TaskTypes.ScaleLookup | src/main/java/garretreichenbach/taskprocessor/model/TaskType.java:124-127 | "scale" and "SCALE" both resolve to IMAGE_SCALING |
| TaskTypes.NameMatchesItself | src/main/java/garretreichenbach/taskprocessor/model/TaskType.java:119-127 | a type's own name, with any of its letters upper-cased, matches that type |
| TaskTypes.ImageTypesNeverValidate | src/main/java/garretreichenbach/taskprocessor/model/TaskType.java:15-45 | no parameter map satisfies the schema of an image type, because `width` demands `int.class` |
| TaskTypes.CustomTaskValidation | src/main/java/garretreichenbach/taskprocessor/model/TaskType.java:91 | a custom task's parameters validate if and only if `script` and `task_id` are both present and hold strings |
| TaskTypes.TaskTypeEntryIrrelevant | src/main/java/garretreichenbach/taskprocessor/model/TaskType.java:139-143 | writing `task_type` first never changes whether a schema is satisfied |
| Tasks.Compare | src/main/java/garretreichenbach/taskprocessor/model/Task.java:59 | `Integer.compare` is -1, 0 or 1, negative exactly when x < y and zero exactly when x == y |
| Tasks.Task.constructor | src/main/java/garretreichenbach/taskprocessor/model/Task.java:142-148 | id, type, parameters and priority are stored as given, and `createdAt` is the clock reading |
| Tasks.Task.WithDefaults | src/main/java/garretreichenbach/taskprocessor/model/Task.java:150-155 | the two-argument constructor's assignments: given id, type and parameters; priority 1; `createdAt` 0 |
| Tasks.Task.SetPriority | src/main/java/garretreichenbach/taskprocessor/model/Task.java:41-42 | stores the priority; parameters unchanged, and id, type and `createdAt` are constants |
| Tasks.Task.CompareTo | src/main/java/garretreichenbach/taskprocessor/model/Task.java:57-60 | the sign of the result is the sign of this priority minus the other's |
| Tasks.CompareToAntisymmetric | src/main/java/garretreichenbach/taskprocessor/model/Task.java:57-60 | `a.compareTo(b) == -b.compareTo(a)`, and every task compares equal to itself |
| Tasks.CompareToTransitive | src/main/java/garretreichenbach/taskprocessor/model/Task.java:57-60 | the ordering is transitive |
| Tasks.NewTaskByTypeName | src/main/java/garretreichenbach/taskprocessor/model/Task.java:150-155 | fails with the lookup's IllegalArgumentException exactly when no type matches the name; otherwise a fresh task of the matching type, with the given parameters, priority 1 and `createdAt` 0 |
| Tasks.CreateProcessor | src/main/java/garretreichenbach/taskprocessor/model/TaskType.java:136-154 | parameters become the old ones plus `task_type` ↦ the type's name; succeeds with the type's processor class if and only if every schema key is present with a value of its kind; a failure is the RuntimeException wrapping "Missing parameter: k" or "Invalid type for parameter: k" for a key k that really is missing or mistyped |
| TaskResults.TaskResult.constructor | src/main/java/garretreichenbach/taskprocessor/model/TaskResult.java:87-90 | given id and status; empty output, `completedAt` 0, no processor id |
| TaskResults.TaskResult.Success | src/main/java/garretreichenbach/taskprocessor/model/TaskResult.java:17-21 | a SUCCESS result for the id whose output holds exactly the given entries |
| TaskResults.TaskResult.Error | src/main/java/garretreichenbach/taskprocessor/model/TaskResult.java:23-27 | a FAILURE result whose output is exactly `{"error" ↦ e}` |
| TaskResults.TaskResult.Timeout | src/main/java/garretreichenbach/taskprocessor/model/TaskResult.java:29-31 | a TIMEOUT result with an empty output |
| TaskResults.TaskResult.SetStatus | src/main/java/garretreichenbach/taskprocessor/model/TaskResult.java:42-43 | stores the status; no other field changes |
| TaskResults.TaskResult.SetCompletedAt | src/main/java/garretreichenbach/taskprocessor/model/TaskResult.java:54-55 | stores the completion time; no other field changes |
| TaskResults.TaskResult.SetProcessorId | src/main/java/garretreichenbach/taskprocessor/model/TaskResult.java:60-61 | stores the processor id; no other field changes |
| ResultStore.JavaSize | src/main/java/garretreichenbach/taskprocessor/model/TaskResultStore.java:28 | `ConcurrentHashMap.size()` is the entry count, capped at `Integer.MAX_VALUE` |
| ResultStore.EvictionLimit | src/main/java/garretreichenbach/taskprocessor/model/TaskResultStore.java:28-29 | the `int` argument of `limit`: exactly `size - max + 1` whenever the capacity is positive and reached |
| ResultStore.EvictionThrows | src/main/java/garretreichenbach/taskprocessor/model/TaskResultStore.java:28-29 | `storeResult` throws exactly when `size - max + 1` overflows the `int` range into a negative value, which needs a capacity of 0 or less |
| ResultStore.EvictionCount | src/main/java/garretreichenbach/taskprocessor/model/TaskResultStore.java:28-29 | no more entries are evicted than the store holds; with a positive capacity, none below capacity and `size - max + 1` from capacity up |
| ResultStore.PositiveCapacityNeverThrows | src/main/java/garretreichenbach/taskprocessor/model/TaskResultStore.java:28-31 | with a positive capacity and a store within it, the stream limit is never negative and the eviction leaves room for the insert |
| ResultStore.OldestKey | src/main/java/garretreichenbach/taskprocessor/model/TaskResultStore.java:29 | a key among those not yet removed whose result has the least `completedAt` (the next element of the ascending sort) |
| ResultStore.NewestKey | src/main/java/garretreichenbach/taskprocessor/model/TaskResultStore.java:49 | a key among those not yet taken whose result has the greatest `completedAt` (the next element of the descending sort) |
| ResultStore.EvictOldest | src/main/java/garretreichenbach/taskprocessor/model/TaskResultStore.java:29 | removes exactly n keys, and every removed result completed no later than every kept one |
| ResultStore.NewestEntries | src/main/java/garretreichenbach/taskprocessor/model/TaskResultStore.java:49 | exactly n entries of the map, unchanged, each completed no earlier than every entry left out |
| ResultStore.TaskResultStore.constructor | src/main/java/garretreichenbach/taskprocessor/model/TaskResultStore.java:18-21 | an empty store with the given capacity |
| ResultStore.TaskResultStore.GetResult | src/main/java/garretreichenbach/taskprocessor/model/TaskResultStore.java:39-41 | null exactly when no result has the id, else the stored result |
| ResultStore.TaskResultStore.GetAllResults | src/main/java/garretreichenbach/taskprocessor/model/TaskResultStore.java:56-58 | a copy with the same keys and the same results as the store |
| ResultStore.TaskResultStore.StoreResult | src/main/java/garretreichenbach/taskprocessor/model/TaskResultStore.java:27-32 | below capacity, a plain insert; otherwise exactly `EvictionCount` oldest entries are removed, every survivor is unchanged and completed no earlier than every evicted one, then the result is put under its id; fails with nothing changed exactly when the `int` limit is negative; the size bound for a positive capacity is kept; afterwards `getResult(id)` returns the result |
| ResultStore.TaskResultStore.GetRecentResults | src/main/java/garretreichenbach/taskprocessor/model/TaskResultStore.java:48-50 | fails with IllegalArgumentException exactly when the limit is negative; otherwise min(limit, size) entries of the store, each completed no earlier than every entry left out; the store is not changed |
| Scheduler.Queues.With | src/main/java/garretreichenbach/taskprocessor/service/TaskQueueService.java:86-126 | a successful offer: the target tier grows by one, the pending tasks grow by exactly the task, and every other tier is unchanged |
| Scheduler.HomeTier | src/main/java/garretreichenbach/taskprocessor/service/TaskQueueService.java:20-22 | HIGH exactly for priorities of 10 or more, NORMAL for [5, 10), LOW for [0, 5), BACKLOG exactly for negative priorities |
| Scheduler.CanLevelDown | src/main/java/garretreichenbach/taskprocessor/service/TaskQueueService.java:162-173 | never for a HIGH-tier priority; when it holds, the queue consulted has room: HIGH for a NORMAL-tier priority, NORMAL for a LOW-tier one, LOW for a negative one |
| Scheduler.HighNeverLevelsDown | src/main/java/garretreichenbach/taskprocessor/service/TaskQueueService.java:164-165 | `canLevelDown` refuses every priority of 10 or more |
| Scheduler.NormalLevelDownReadsHigh | src/main/java/garretreichenbach/taskprocessor/service/TaskQueueService.java:166-167 | for a priority in [5, 10), `canLevelDown` holds exactly when HIGH has room and its size minus the priority is at most 3 |
| Scheduler.LeastPriority | src/main/java/garretreichenbach/taskprocessor/service/TaskQueueService.java:146 | the backlog's `poll` picks a task of least priority |
| Scheduler.EmptyPending | src/main/java/garretreichenbach/taskprocessor/service/TaskQueueService.java:136-148 | nothing is pending exactly when all four tiers are empty |
| Scheduler.PollHigh | src/main/java/garretreichenbach/taskprocessor/service/TaskQueueService.java:136-137 | polling HIGH removes exactly its head from the pending tasks |
| Scheduler.PollNormal | src/main/java/garretreichenbach/taskprocessor/service/TaskQueueService.java:139-140 | polling NORMAL removes exactly its head from the pending tasks |
| Scheduler.PollLow | src/main/java/garretreichenbach/taskprocessor/service/TaskQueueService.java:142-143 | polling LOW removes exactly its head from the pending tasks |
| Scheduler.PollBacklog | src/main/java/garretreichenbach/taskprocessor/service/TaskQueueService.java:145-146 | polling the backlog removes exactly the chosen task from the pending tasks |
| Scheduler.TookPending | src/main/java/garretreichenbach/taskprocessor/service/TaskQueueService.java:134-153 | a take removes exactly the returned task from the pending tasks; it returns null exactly when nothing is pending, and then the tiers are unchanged |
| Scheduler.TaskQueueService.constructor | src/main/java/garretreichenbach/taskprocessor/service/TaskQueueService.java:49-55 | four empty tiers with the given positive capacity |
| Scheduler.TaskQueueService.Size | src/main/java/garretreichenbach/taskprocessor/service/TaskQueueService.java:66-68 | a tier's size, never above capacity for a bounded tier |
| Scheduler.TaskQueueService.SubmitTask | src/main/java/garretreichenbach/taskprocessor/service/TaskQueueService.java:83-129 | a home tier with room: that tier is returned and the task joins its tail, nothing else changing; a negative priority, a full HIGH or a full LOW: BACKLOG, and the backlog gains the task; a full NORMAL: LOW exactly when HIGH has room and its size minus the priority is at most 3, else BACKLOG; on LOW the task joins LOW only if LOW had room, and otherwise nothing changes; capacities are kept |
| Scheduler.TaskQueueService.SubmitTaskIntended | src/main/java/garretreichenbach/taskprocessor/service/TaskQueueService.java:100-110 | the repaired cascade: the task always joins the returned tier, and the pending tasks grow by exactly it |
| Scheduler.TaskQueueService.TakeTask | src/main/java/garretreichenbach/taskprocessor/service/TaskQueueService.java:134-154 | the head of the first non-empty tier among HIGH, NORMAL and LOW is removed and returned, other tiers unchanged; otherwise a least-priority backlog task; null exactly when nothing is pending, and then nothing changes; the returned task is the only one removed |
| Scheduler.NewTaskQueueService | src/main/java/garretreichenbach/taskprocessor/service/TaskQueueService.java:49-53 | construction fails with IllegalArgumentException exactly when the capacity is below 1 (from the `LinkedBlockingQueue` constructor) |
| Scheduler.TwoTierSetup | src/main/java/garretreichenbach/taskprocessor/service/TaskQueueService.java:100-123 | a LOW-tier and then a NORMAL-tier task submitted to a fresh service each sit alone in their home tier |
| Scheduler.LostTaskScenario | src/main/java/garretreichenbach/taskprocessor/service/TaskQueueService.java:101-106 | a concrete run in which `submitTask` returns LOW but the task is in no queue |
| Scheduler.KeptTaskScenario | src/main/java/garretreichenbach/taskprocessor/service/TaskQueueService.java:100-110 | the same run with the repaired submission: BACKLOG is returned and the task is pending |
| Scheduler.PrecedenceSetup | src/main/java/garretreichenbach/taskprocessor/service/TaskQueueService.java:85-123 | LOW, NORMAL and HIGH tasks submitted to a fresh service of capacity 10 land alone in their home tiers |
| Scheduler.PrecedenceScenario | src/main/java/garretreichenbach/taskprocessor/service/TaskQueueService.java:134-148 | LOW, NORMAL and HIGH tasks submitted in that order are taken back HIGH, NORMAL, LOW |
| Scheduler.DrainTwo | src/main/java/garretreichenbach/taskprocessor/service/TaskQueueService.java:139-144 | with only one NORMAL and one LOW task pending, two takes return the NORMAL task and then the LOW task |

## Left out

- Threads: `TaskThreadPool`, and the thread safety of the concurrent queues and map. Every operation is modelled as if it ran alone.
- Image processing, Lua scripting and the processor classes themselves: they wrap AWT, commons-compress and the LuaJ interpreter. Creating a processor by reflection is reduced to naming its class (`ProcessorClass`), and the branches for reflection failures cannot occur for these classes.
- The HTTP controller, the task generator, JSON serialisation (`toJSON`, `fromJSON`, the parameter (de)serialisers) and random task generation (`getRandom`, `generateRandom`, the generator lambdas): these are input/output, a foreign library and randomness.
- The pending-task counter is only logged, so it is left out. The log calls are left out too, and the status strings are replaced by `Size`.
- The queues are `static` in Java; here they belong to the instance. The `static final` backlog (TaskQueueService.java:25) is one queue shared by every service and never cleared, and each construction replaces the bounded queues of every existing service (:51-53). The model gives each service its own four tiers, so it does not capture that sharing.
- Scheduler.TaskQueueService.Size: models the per-tier counts that `getQueueStatus()` (TaskQueueService.java:66-68) reads from the current fields. `getQueueStatus(QueueType)` (:75-77) instead reads the queue that the `QueueType` constant captured when the enum was first initialised. That is the queue installed by the last construction before any `QueueType` was first used, or null if no service existed yet. After a later construction it is no longer the service's current queue. The model does not capture these captured references.
- Clock reads are parameters. The four-argument constructor takes `now`, and the UUID drawn by the two-argument constructor is the `id` parameter.
- Tasks.NewTaskByTypeName: it models the two-argument constructor as a method that returns the lookup's exception instead of throwing it.
- Tasks.CreateProcessor: the parameter map is a value inside the task. So it does not model aliasing with the caller's map, or the UnsupportedOperationException that an immutable `Map.of` map throws on the `task_type` write.
- TaskResults.TaskResult.SetProcessorId: it does not model passing `null`.
- Null arguments are not modelled. `fromString(null)` throws IllegalArgumentException "No TaskType found for name: null" (TaskType.java:124-128). `submitTask(null)` throws NullPointerException (TaskQueueService.java:84). `storeResult` with a null result, or with a null `taskId`, throws NullPointerException (TaskResultStore.java:31). The model's parameters are never null.
- `TaskResult.getOutput` returns the live map in Java, so callers can change it. Here `output` is a field value.
- `Task.setPriority` on a task already in the backlog would break the `PriorityBlockingQueue`'s heap order. The model's backlog always yields a least-priority task, which is the behaviour when priorities do not change while queued.
- Scheduler.CanLevelDown: its own contract gives only what a permitted demotion implies (not a HIGH-tier priority, room in the queue consulted). The exact condition is stated for the two arms `submitTask` reaches, by `HighNeverLevelsDown` and `NormalLevelDownReadsHigh`. The LOW and negative arms are never asked, so no lemma states their exact condition.
- TaskTypes.EqualsIgnoreCase: its contract states only equal lengths and reflexivity. Its meaning for the four type names is given by `MatchIsUnique`, `NameMatchesItself` and `FromString`.
- Scheduler.NewTaskQueueService: the exception's message is not modelled, only its class.
- ResultStore.TaskResultStore.GetRecentResults: the exception's message is not modelled, only its class.
- A Java `double` parameter is an uninterpreted real. Nothing in the core computes with one.
- `equalsIgnoreCase` case folding is modelled only for the characters that can match the four type names: ASCII letters, and U+017F, whose upper case is 'S'.
- Stores holding more than 2^31 - 1 entries are outside the `EvictionCount` size formula. `JavaSize` models the capped `size()`.
- Ordering among equal `completedAt` times and equal priorities is unspecified, as in Java. The model chooses arbitrarily.

## Findings

| source | as written | input that shows it | evidently intended | confidence | as-written member | corrected member |
|---|---|---|---|---|---|---|
| src/main/java/garretreichenbach/taskprocessor/service/TaskQueueService.java:102-105 | the result of `lowPriorityQueue.offer(task)` is ignored and LOW is returned, so with LOW full the task is queued nowhere | capacity 1; LOW holds a priority-0 task, NORMAL a priority-5 task, HIGH is empty; submit another priority-5 task | a task that cannot go into LOW goes to the backlog, so every submitted task stays pending | high; not executed | Scheduler.LostTaskScenario | Scheduler.TaskQueueService.SubmitTaskIntended |
