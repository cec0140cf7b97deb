/** A task: an id, a type, a mutable parameter map, a mutable priority and a
    creation time; and the dispatch step that turns a task into the processor
    its type names, after checking the task's parameters against the schema. */
module Tasks {
  import opened JavaTypes
  import opened TaskTypes

  /** `Integer.compare`: -1, 0 or 1 as `x` is below, equal to or above `y`. */
  function Compare(x: Int32, y: Int32): (c: int)
    ensures c == -1 || c == 0 || c == 1
    ensures c < 0 <==> x < y
    ensures c == 0 <==> x == y
  {
    if x < y then -1 else if x == y then 0 else 1
  }

  class Task {
    const id: string
    const taskType: TaskType
    var parameters: map<string, Value>
    var priority: Int32
    const createdAt: Int64

    /** The four-argument constructor; `now` is the clock reading it takes. */
    constructor (id: string, taskType: TaskType, parameters: map<string, Value>, priority: Int32, now: Int64)
      ensures this.id == id && this.taskType == taskType
      ensures this.parameters == parameters && this.priority == priority
      ensures createdAt == now
    {
      this.id := id;
      this.taskType := taskType;
      this.parameters := parameters;
      this.priority := priority;
      createdAt := now;
    }

    /** What the two-argument constructor does once the type name has been
        resolved: priority 1, and `createdAt` left at its default 0. */
    constructor WithDefaults(id: string, taskType: TaskType, parameters: map<string, Value>)
      ensures this.id == id && this.taskType == taskType && this.parameters == parameters
      ensures priority == 1 && createdAt == 0
    {
      this.id := id;
      this.taskType := taskType;
      this.parameters := parameters;
      priority := 1;
      createdAt := 0;
    }

    method SetPriority(priority: Int32)
      modifies this`priority
      ensures this.priority == priority
      ensures parameters == old(parameters)
    {
      this.priority := priority;
    }

    /** `compareTo`: tasks are ordered by priority alone. */
    function CompareTo(o: Task): (c: int)
      reads this, o
      ensures c == -1 || c == 0 || c == 1
      ensures c < 0 <==> priority < o.priority
      ensures c > 0 <==> priority > o.priority
    {
      Compare(priority, o.priority)
    }
  }

  /** The ordering is antisymmetric and every task compares equal to itself. */
  lemma CompareToAntisymmetric(a: Task, b: Task)
    ensures a.CompareTo(b) == -b.CompareTo(a)
    ensures a.CompareTo(a) == 0
  {
  }

  /** The ordering is transitive. */
  lemma CompareToTransitive(a: Task, b: Task, c: Task)
    requires a.CompareTo(b) <= 0 && b.CompareTo(c) <= 0
    ensures a.CompareTo(c) <= 0
  {
  }

  /** The two-argument constructor `Task(type, parameters)`: `id` stands for
      the random UUID it draws. An unknown type name makes it throw. */
  method NewTaskByTypeName(id: string, typeName: string, parameters: map<string, Value>)
    returns (r: Result<Task, Exception>)
    ensures r.Failure? <==> forall t :: !EqualsIgnoreCase(Name(t), typeName)
    ensures r.Failure? ==> r.error == IllegalArgumentException("No TaskType found for name: " + typeName)
    ensures r.Success? ==> fresh(r.value)
    ensures r.Success? ==> EqualsIgnoreCase(Name(r.value.taskType), typeName)
    ensures r.Success? ==> r.value.id == id && r.value.parameters == parameters
    ensures r.Success? ==> r.value.priority == 1 && r.value.createdAt == 0
  {
    var t := FromString(typeName);
    if t.Failure? {
      return Failure(t.error);
    }
    var task := new Task.WithDefaults(id, t.value, parameters);
    return Success(task);
  }

  /** The error processor creation reports: the validation error `cause`,
      wrapped in the RuntimeException that the catch-all handler rethrows. */
  function CreationFailure(t: TaskType, cause: Exception): Exception
  {
    RuntimeException("Failed to create processor for task type: " + Name(t), Some(cause))
  }

  /** `e` correctly reports some schema key that is missing or of the wrong kind. */
  predicate ReportsViolation(t: TaskType, parameters: map<string, Value>, e: Exception)
  {
    exists k :: k in Schema(t) &&
      ((k !in parameters &&
        e == CreationFailure(t, IllegalArgumentException("Missing parameter: " + k))) ||
       (k in parameters && !IsInstance(Schema(t)[k], parameters[k]) &&
        e == CreationFailure(t, IllegalArgumentException("Invalid type for parameter: " + k))))
  }

  /** `createProcessor`: write `task_type` into the task's parameters, check
      every schema key (presence first, then kind) in an unspecified order,
      and on success name the processor class. */
  method CreateProcessor(t: TaskType, task: Task) returns (r: Result<ProcessorClass, Exception>)
    modifies task
    ensures task.parameters == old(task.parameters)[TaskTypeKey := Str(Name(t))]
    ensures task.priority == old(task.priority)
    ensures r.Success? <==> SchemaSatisfied(Schema(t), task.parameters)
    ensures r.Success? ==> r.value == ProcessorOf(t)
    ensures r.Failure? ==> ReportsViolation(t, task.parameters, r.error)
  {
    task.parameters := task.parameters[TaskTypeKey := Str(Name(t))];
    var schema := Schema(t);
    var unchecked := schema.Keys;
    while unchecked != {}
      invariant unchecked <= schema.Keys
      invariant forall k :: k in schema.Keys - unchecked ==>
        k in task.parameters && IsInstance(schema[k], task.parameters[k])
      decreases unchecked
    {
      var k :| k in unchecked;
      if k !in task.parameters {
        return Failure(CreationFailure(t, IllegalArgumentException("Missing parameter: " + k)));
      }
      if !IsInstance(schema[k], task.parameters[k]) {
        return Failure(CreationFailure(t, IllegalArgumentException("Invalid type for parameter: " + k)));
      }
      unchecked := unchecked - {k};
    }
    return Success(ProcessorOf(t));
  }
}
