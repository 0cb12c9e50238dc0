/** Values shared by both converter variants: files, resource namespaces, the
    sources handed to the transformation and validation services, the target
    output format, and the state an instance inherits from its unseen superclass. */
module MetricTypes {
  import opened Wrappers
  import opened JavaSemantics

  /** A java.io.File: equality and hashing are by path, as on Unix file systems
      (on Windows java.io.File compares and hashes paths ignoring case). */
  datatype File = File(path: string)

  /** The resource namespace of an implementation class, that is what `getClass()`
      denotes when a bundled resource is looked up; opaque to the converter. */
  datatype Namespace = Namespace(id: string)

  /** A schema handed to the validation service: a file on disk or a resource
      looked up by name in a namespace. */
  datatype SchemaSrc = SchemaFile(file: File) | SchemaResource(ns: Namespace, name: string)

  /** A template handed to the transformation service: a file on disk, a bundled
      resource, or literal stylesheet text. */
  datatype TemplateSrc =
    | FromFile(file: File)
    | FromResource(ns: Namespace, name: string)
    | FromContent(content: string)

  /** A conversion parameter value, passed through to the template unread. */
  datatype ParamValue = ParamValue(repr: string)

  type Params = map<string, ParamValue>

  /** One violation reported by the validation service. */
  datatype ValidationError = ValidationError(message: string, line: Option<int>, column: Option<int>)

  /** What a validation call raises instead of returning: the ValidationException of
      the validation service on a physical failure (unreadable schema, document that
      cannot be parsed), or a NullPointerException from dereferencing a missing
      output format. */
  datatype ValidationFailure = ValidationException(reason: string) | NullPointerException

  /** The output format an instance targets (OutputMetric). `xsd` is `getXsd()`;
      `xsdNameList` is the `getXsdNameList()` that the multi-schema variant calls
      although the OutputMetric interface beside it declares only `getXsd()`. */
  datatype OutputFormat = OutputFormat(
    ns: Namespace,
    key: string,
    description: string,
    version: string,
    xsd: Option<string>,
    xsdNameList: Option<seq<string>>)

  /** What an instance reads from its superclass InputMetric, which is not part of
      this model: the tool's name and version and the target output format. */
  datatype Base = Base(toolName: Option<string>, toolVersion: Option<string>, outputFormat: Option<OutputFormat>)

  /** The superclass's `equals` and `hashCode`, of which only the shape is known. */
  datatype Inherited = Inherited(equals: (Base, Base) -> bool, hash: Base -> Int32)

  /** The hashes of String and File, left uninterpreted. */
  datatype Hashing = Hashing(str: string -> Int32, file: File -> Int32)

  /** The superclass keeps the equals/hashCode contract. */
  ghost predicate HashConsistent(sup: Inherited)
  {
    forall a, b :: sup.equals(a, b) ==> sup.hash(a) == sup.hash(b)
  }

  /** The superclass's equals is an equivalence. */
  ghost predicate IsEquivalence(sup: Inherited)
  {
    && (forall a :: sup.equals(a, a))
    && (forall a, b :: sup.equals(a, b) ==> sup.equals(b, a))
    && (forall a, b, c :: sup.equals(a, b) && sup.equals(b, c) ==> sup.equals(a, c))
  }

  /** What one validation call yields and what the instance's error slot then holds. */
  datatype ValidationRun = Run(verdict: Result<bool, ValidationFailure>, stored: seq<ValidationError>)

  /** Storing a validation result in an error slot: on success the slot is
      overwritten and the verdict is "no errors"; on a ValidationException the slot
      keeps `prev` and the exception propagates. */
  function Record(res: Result<seq<ValidationError>, ValidationFailure>, prev: seq<ValidationError>): (o: ValidationRun)
    ensures res.Success? ==> o.stored == res.value && o.verdict == Success(|res.value| == 0)
    ensures res.Failure? ==> o.stored == prev && o.verdict == Failure(res.error)
  {
    match res
    case Success(errors) => Run(Success(|errors| == 0), errors)
    case Failure(f) => Run(Failure(f), prev)
  }

  /** The schema sources for a list of schema files, in order. */
  function FileSchemas(files: seq<File>): seq<SchemaSrc>
  {
    seq(|files|, i requires 0 <= i < |files| => SchemaFile(files[i]))
  }

  /** The schema sources for a list of resource names looked up in `ns`, in order. */
  function ResourceSchemas(ns: Namespace, names: seq<string>): seq<SchemaSrc>
  {
    seq(|names|, i requires 0 <= i < |names| => SchemaResource(ns, names[i]))
  }

  /** Fills an array with one opened schema file per listed file. */
  method BuildFileSchemas(files: seq<File>) returns (r: seq<SchemaSrc>)
    ensures r == FileSchemas(files)
  {
    var sources := new SchemaSrc[|files|];
    for i := 0 to |files|
      invariant forall k :: 0 <= k < i ==> sources[k] == SchemaFile(files[k])
    {
      sources[i] := SchemaFile(files[i]);
    }
    r := sources[..];
  }

  /** Fills an array with one resource lookup in `ns` per listed name. */
  method BuildResourceSchemas(ns: Namespace, names: seq<string>) returns (r: seq<SchemaSrc>)
    ensures r == ResourceSchemas(ns, names)
  {
    var sources := new SchemaSrc[|names|];
    for i := 0 to |names|
      invariant forall k :: 0 <= k < i ==> sources[k] == SchemaResource(ns, names[k])
    {
      sources[i] := SchemaResource(ns, names[i]);
    }
    r := sources[..];
  }

  /** The type tag every XSL-based converter reports. The other constants of the
      enumeration are not part of this model; `Other` stands for them. */
  datatype InputMetricType = XSL | Other
}
