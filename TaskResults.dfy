/** The outcome of processing one task: which task, how it ended, what it
    produced, when it completed and which worker produced it. */
module TaskResults {
  import opened JavaTypes

  datatype ResultStatus = SUCCESS | FAILURE | TIMEOUT

  /** The output key under which a failure records its exception. */
  const ErrorKey: string := "error"

  class TaskResult {
    const taskId: string
    var status: ResultStatus
    var output: map<string, Value>
    var completedAt: Int64
    /** `None` stands for the `null` a result starts with. */
    var processorId: Option<string>

    /** The private constructor: empty output, timestamps and worker unset. */
    constructor (taskId: string, status: ResultStatus)
      ensures this.taskId == taskId && this.status == status
      ensures output == map[] && completedAt == 0 && processorId == None
    {
      this.taskId := taskId;
      this.status := status;
      output := map[];
      completedAt := 0;
      processorId := None;
    }

    /** `success`: a SUCCESS result whose output holds every entry of `output`. */
    static method Success(taskId: string, output: map<string, Value>) returns (r: TaskResult)
      ensures fresh(r)
      ensures r.taskId == taskId && r.status == SUCCESS
      ensures r.output.Keys == output.Keys && forall k :: k in output ==> r.output[k] == output[k]
      ensures r.completedAt == 0 && r.processorId == None
    {
      r := new TaskResult(taskId, SUCCESS);
      r.output := r.output + output;
    }

    /** `error`: a FAILURE result whose output is exactly `{"error" -> e}`. */
    static method Error(taskId: string, e: Exception) returns (r: TaskResult)
      ensures fresh(r)
      ensures r.taskId == taskId && r.status == FAILURE
      ensures r.output.Keys == {ErrorKey} && r.output[ErrorKey] == Thrown(e)
      ensures r.completedAt == 0 && r.processorId == None
    {
      r := new TaskResult(taskId, FAILURE);
      r.output := r.output[ErrorKey := Thrown(e)];
    }

    /** `timeout`: a TIMEOUT result with an empty output. */
    static method Timeout(taskId: string) returns (r: TaskResult)
      ensures fresh(r)
      ensures r.taskId == taskId && r.status == TIMEOUT
      ensures r.output == map[] && r.completedAt == 0 && r.processorId == None
    {
      r := new TaskResult(taskId, TIMEOUT);
    }

    method SetStatus(status: ResultStatus)
      modifies this`status
      ensures this.status == status
      ensures output == old(output) && completedAt == old(completedAt) && processorId == old(processorId)
    {
      this.status := status;
    }

    method SetCompletedAt(completedAt: Int64)
      modifies this`completedAt
      ensures this.completedAt == completedAt
      ensures status == old(status) && output == old(output) && processorId == old(processorId)
    {
      this.completedAt := completedAt;
    }

    method SetProcessorId(processorId: string)
      modifies this`processorId
      ensures this.processorId == Some(processorId)
      ensures status == old(status) && output == old(output) && completedAt == old(completedAt)
    {
      this.processorId := Some(processorId);
    }
  }
}
