/** The closed catalogue of task types: each has a canonical name, a
    required-parameter schema and the processor class that runs it. */
module TaskTypes {
  import opened JavaTypes

  datatype TaskType = ImageCompression | ImageDecompression | ImageScaling | CustomTask

  /** The processor classes a task type can instantiate; reflection is
      reduced to naming the class. */
  datatype ProcessorClass = ImageProcessor | CustomTaskProcessor

  /** `TaskType.values()`, in declaration order. */
  function Values(): (vs: seq<TaskType>)
    ensures forall i, j :: 0 <= i < j < |vs| ==> vs[i] != vs[j]
  {
    [ImageCompression, ImageDecompression, ImageScaling, CustomTask]
  }

  /** The position of a type in `values()`: every type occurs there. */
  function Ordinal(t: TaskType): (i: nat)
    ensures i < |Values()| && Values()[i] == t
  {
    match t
    case ImageCompression => 0
    case ImageDecompression => 1
    case ImageScaling => 2
    case CustomTask => 3
  }

  /** `toString`: the declared name of the type. */
  function Name(t: TaskType): (n: string)
    ensures |n| > 0
    ensures forall i :: 0 <= i < |n| ==> 'a' <= n[i] <= 'z'
  {
    match t
    case ImageCompression => "compress"
    case ImageDecompression => "decompress"
    case ImageScaling => "scale"
    case CustomTask => "custom"
  }

  /** The processor class each constant is declared with. */
  function ProcessorOf(t: TaskType): (p: ProcessorClass)
    ensures p == CustomTaskProcessor <==> t == CustomTask
  {
    if t == CustomTask then CustomTaskProcessor else ImageProcessor
  }

  /** The required parameters of each type and the class each value must be
      an instance of. */
  function Schema(t: TaskType): (m: map<string, Kind>)
    ensures TaskTypeKey !in m
    ensures t != CustomTask ==> "data" in m && m["data"] == ByteArrayClass && "width" in m && m["width"] == IntPrimitive
    ensures t == CustomTask ==> "script" in m && "task_id" in m && forall k :: k in m ==> m[k] == StringClass
  {
    match t
    case ImageCompression =>
      map["data" := ByteArrayClass, "width" := IntPrimitive, "height" := IntPrimitive]
    case ImageDecompression =>
      map["data" := ByteArrayClass, "width" := IntPrimitive, "height" := IntPrimitive]
    case ImageScaling =>
      map["data" := ByteArrayClass, "width" := IntPrimitive, "height" := IntPrimitive,
          "scale" := DoublePrimitive]
    case CustomTask =>
      map["script" := StringClass, "task_id" := StringClass]
  }

  /** Every schema key is present in the parameters with a value of its kind. */
  predicate SchemaSatisfied(schema: map<string, Kind>, parameters: map<string, Value>)
  {
    forall k :: k in schema ==> k in parameters && IsInstance(schema[k], parameters[k])
  }

  /** The parameter key that processor creation writes the type's name under. */
  const TaskTypeKey: string := "task_type"

  /** Upper-casing of one character, as `String.equalsIgnoreCase` applies it:
      ASCII letters and LATIN SMALL LETTER LONG S (whose upper case is 'S').
      It is exact for comparisons against the four type names. */
  function ToUpper(c: char): (u: char)
    ensures !('a' <= u <= 'z')
    ensures u != c ==> 'a' <= c <= 'z' || c == '\U{017F}'
    ensures 'a' <= c <= 'z' ==> 'A' <= u <= 'Z'
  {
    if 'a' <= c <= 'z' then (c as int - 32) as char
    else if c == '\U{017F}' then 'S'
    else c
  }

  /** `String.equalsIgnoreCase`: equal lengths, and equal characters after
      upper-casing. */
  predicate EqualsIgnoreCase(a: string, b: string)
    ensures EqualsIgnoreCase(a, b) ==> |a| == |b|
    ensures a == b ==> EqualsIgnoreCase(a, b)
  {
    |a| == |b| && forall i :: 0 <= i < |a| ==> ToUpper(a[i]) == ToUpper(b[i])
  }

  /** The type names are pairwise different even ignoring case, so at most
      one type matches a given string. */
  lemma MatchIsUnique(a: TaskType, b: TaskType, name: string)
    requires EqualsIgnoreCase(Name(a), name) && EqualsIgnoreCase(Name(b), name)
    ensures a == b
  {
  }

  /** `fromString`: scan `values()` for the first type whose name equals
      `name` ignoring case; no match throws IllegalArgumentException. */
  method FromString(name: string) returns (r: Result<TaskType, Exception>)
    ensures r.Success? ==> EqualsIgnoreCase(Name(r.value), name)
    ensures forall t :: EqualsIgnoreCase(Name(t), name) ==> r == Success(t)
    ensures r.Failure? <==> forall t :: !EqualsIgnoreCase(Name(t), name)
    ensures r.Failure? ==> r.error == IllegalArgumentException("No TaskType found for name: " + name)
  {
    var values := Values();
    for i := 0 to |values|
      invariant forall j :: 0 <= j < i ==> !EqualsIgnoreCase(Name(values[j]), name)
    {
      if EqualsIgnoreCase(Name(values[i]), name) {
        forall t | EqualsIgnoreCase(Name(t), name) ensures t == values[i] {
          MatchIsUnique(t, values[i], name);
        }
        return Success(values[i]);
      }
    }
    forall t ensures !EqualsIgnoreCase(Name(t), name) {
      assert values[Ordinal(t)] == t;
    }
    return Failure(IllegalArgumentException("No TaskType found for name: " + name));
  }

  /** `fromString("scale")` finds IMAGE_SCALING, and so does "SCALE". */
  method ScaleLookup() returns (lower: Result<TaskType, Exception>, upper: Result<TaskType, Exception>)
    ensures lower == Success(ImageScaling) && upper == Success(ImageScaling)
  {
    assert EqualsIgnoreCase(Name(ImageScaling), "scale");
    lower := FromString("scale");
    assert EqualsIgnoreCase(Name(ImageScaling), "SCALE");
    upper := FromString("SCALE");
  }

  /** Looking a type up by its own name, in any letter case, finds it. */
  lemma NameMatchesItself(t: TaskType, name: string)
    requires |name| == |Name(t)|
    requires forall i :: 0 <= i < |name| ==> name[i] == Name(t)[i] || name[i] == ToUpper(Name(t)[i])
    ensures EqualsIgnoreCase(Name(t), name)
  {
    forall i | 0 <= i < |name| ensures ToUpper(Name(t)[i]) == ToUpper(name[i]) {
      assert 'a' <= Name(t)[i] <= 'z';
    }
  }

  /** Both image schemas demand `int.class` values, which no value is an
      instance of: processor creation for an image type can never validate. */
  lemma ImageTypesNeverValidate(t: TaskType, parameters: map<string, Value>)
    requires t != CustomTask
    ensures !SchemaSatisfied(Schema(t), parameters)
  {
    assert "width" in Schema(t) && Schema(t)["width"] == IntPrimitive;
  }

  /** A custom task validates exactly when `script` and `task_id` hold strings. */
  lemma CustomTaskValidation(parameters: map<string, Value>)
    ensures SchemaSatisfied(Schema(CustomTask), parameters) <==>
      ("script" in parameters && parameters["script"].Str? &&
       "task_id" in parameters && parameters["task_id"].Str?)
  {
    if !SchemaSatisfied(Schema(CustomTask), parameters) {
      var k :| k in Schema(CustomTask) &&
        !(k in parameters && IsInstance(Schema(CustomTask)[k], parameters[k]));
      assert k == "script" || k == "task_id";
    }
  }

  /** No schema names `task_type`, so writing that entry never changes the
      outcome of validation. */
  lemma TaskTypeEntryIrrelevant(t: TaskType, parameters: map<string, Value>, v: Value)
    ensures SchemaSatisfied(Schema(t), parameters[TaskTypeKey := v]) <==> SchemaSatisfied(Schema(t), parameters)
  {
    assert TaskTypeKey !in Schema(t);
    var p := parameters[TaskTypeKey := v];
    forall k | k in Schema(t) ensures (k in p && IsInstance(Schema(t)[k], p[k])) <==>
      (k in parameters && IsInstance(Schema(t)[k], parameters[k]))
    {
      assert k != TaskTypeKey;
    }
  }
}
