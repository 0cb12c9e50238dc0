/** The multi-schema XSL converter (dtkit-metrics-model, InputMetricXSL): a template
    given by an override file or a bundled resource name, and the input schemas given
    by a list of files or a list of bundled resource names. The transformation and
    validation services are black boxes; the converter's own logic is which sources
    it hands to them and what it records afterwards. */
module MetricsModel {
  import opened Wrappers
  import opened JavaSemantics
  import opened MetricTypes

  /** The configuration an instance's behaviour depends on. `cls` is the instance's
      class, the namespace both its template and its input schemas are looked up in. */
  datatype Configuration = Configuration(
    cls: Namespace,
    base: Base,
    xslName: Option<string>,
    xslFile: Option<File>,
    inputXsdNameList: Option<seq<string>>,
    inputXsdFileList: Option<seq<File>>)

  /** One call of the transformation service: template, input, output, parameters
      (None is Java's null map). */
  datatype ConversionRequest = ConversionRequest(template: TemplateSrc, input: File, output: File, params: Option<Params>)

  /** Looking up a bundled resource under a null name raises NullPointerException:
      NullXslName is that exception when convert raises it (the validation calls
      raise it as MetricTypes.NullPointerException). */
  datatype ConversionFailure = NullXslName

  /** The validation service: schemas applied together to one document. */
  type Validator = (seq<SchemaSrc>, File) -> Result<seq<ValidationError>, ValidationFailure>

  /** The template stream the instance opens (getXslInputStream): the override file
      first, then the named resource in the instance's own namespace, else null. */
  function XslInputStream(s: Configuration): (r: Option<TemplateSrc>)
    ensures r.None? <==> s.xslFile.None? && s.xslName.None?
    ensures s.xslFile.Some? ==> r == Some(FromFile(s.xslFile.value))
    ensures s.xslFile.None? && s.xslName.Some? ==> r == Some(FromResource(s.cls, s.xslName.value))
    ensures r.Some? ==> !r.value.FromContent?
  {
    if s.xslFile.Some? then Some(FromFile(s.xslFile.value))
    else if s.xslName.Some? then Some(FromResource(s.cls, s.xslName.value))
    else None
  }

  /** The output format's schema names (getOutputXsdNameList); null without a format. */
  function OutputXsdNameList(s: Configuration): (r: Option<seq<string>>)
    ensures s.base.outputFormat.None? ==> r.None?
    ensures s.base.outputFormat.Some? ==> r == s.base.outputFormat.value.xsdNameList
    ensures r.Some? ==> s.base.outputFormat.Some?
  {
    if s.base.outputFormat.None? then None else s.base.outputFormat.value.xsdNameList
  }

  /** "xunit/<tool>/": the user-content directory shared by every version of a tool. */
  function ToolDir(toolName: Option<string>): string
  {
    "xunit/" + Str(toolName) + "/"
  }

  /** getUserContentXSLDirRelativePath: the tool directory, followed (with no
      trailing slash) by the version unless it is null or ends with "N/A". */
  function UserContentXslDirRelativePath(s: Configuration): (r: string)
    ensures ToolDir(s.base.toolName) <= r
    ensures s.base.toolVersion.None? || EndsWith(s.base.toolVersion.value, "N/A") ==>
      r == ToolDir(s.base.toolName)
    ensures s.base.toolVersion.Some? && !EndsWith(s.base.toolVersion.value, "N/A") ==>
      r == ToolDir(s.base.toolName) + s.base.toolVersion.value
  {
    var version := s.base.toolVersion;
    if version.None? || EndsWith(version.value, "N/A") then ToolDir(s.base.toolName)
    else ToolDir(s.base.toolName) + version.value
  }

  /** Distinct versions that do not end with "N/A" get distinct directories. */
  lemma {:induction false} UserContentDirSeparatesVersions(s1: Configuration, s2: Configuration)
    requires s1.base.toolName == s2.base.toolName
    requires s1.base.toolVersion.Some? && !EndsWith(s1.base.toolVersion.value, "N/A")
    requires s2.base.toolVersion.Some? && !EndsWith(s2.base.toolVersion.value, "N/A")
    requires UserContentXslDirRelativePath(s1) == UserContentXslDirRelativePath(s2)
    ensures s1.base.toolVersion == s2.base.toolVersion
  {
    var prefix := ToolDir(s1.base.toolName);
    var r1, r2 := UserContentXslDirRelativePath(s1), UserContentXslDirRelativePath(s2);
    assert r1[|prefix|..] == s1.base.toolVersion.value;
    assert r2[|prefix|..] == s2.base.toolVersion.value;
  }

  /** convert(in, out, params): the override file if set, otherwise the resource
      `xslName` in the instance's namespace; with neither, the lookup of a null name fails. */
  function Convert(s: Configuration, input: File, output: File, params: Option<Params>): (r: Result<ConversionRequest, ConversionFailure>)
    ensures r.Success? ==> r.value.input == input && r.value.output == output && r.value.params == params
    ensures s.xslFile.Some? ==> r.Success? && r.value.template == FromFile(s.xslFile.value)
    ensures s.xslFile.None? ==> (r.Success? <==> s.xslName.Some?)
    ensures s.xslFile.None? && s.xslName.Some? ==> r.Success? && r.value.template == FromResource(s.cls, s.xslName.value)
    ensures r.Failure? ==> r.error == NullXslName
  {
    if s.xslFile.None? then
      if s.xslName.None? then Failure(NullXslName)
      else Success(ConversionRequest(FromResource(s.cls, s.xslName.value), input, output, params))
    else Success(ConversionRequest(FromFile(s.xslFile.value), input, output, params))
  }

  /** convert(in, out): the parameterised form with a null map, not an empty one. */
  function ConvertDefault(s: Configuration, input: File, output: File): (r: Result<ConversionRequest, ConversionFailure>)
    ensures r == Convert(s, input, output, None)
    ensures r.Success? ==> r.value.params.None?
  {
    Convert(s, input, output, None)
  }

  /** convert(in, out, externalXsl, params): the supplied file and nothing else. */
  function ConvertWithXslFile(s: Configuration, input: File, output: File, externalXsl: File, params: Option<Params>): (r: ConversionRequest)
    ensures r.template == FromFile(externalXsl)
    ensures r.input == input && r.output == output && r.params == params
  {
    ConversionRequest(FromFile(externalXsl), input, output, params)
  }

  /** convert(in, out, externalXslContent, params): the supplied stylesheet text and nothing else. */
  function ConvertWithXslContent(s: Configuration, input: File, output: File, externalXslContent: string, params: Option<Params>): (r: ConversionRequest)
    ensures r.template == FromContent(externalXslContent)
    ensures r.input == input && r.output == output && r.params == params
  {
    ConversionRequest(FromContent(externalXslContent), input, output, params)
  }

  /** convert uses the very template getXslInputStream opens, and fails exactly
      when getXslInputStream yields null. */
  lemma ConvertAgreesWithXslInputStream(s: Configuration, input: File, output: File, params: Option<Params>)
    ensures Convert(s, input, output, params).Success? <==> XslInputStream(s).Some?
    ensures Convert(s, input, output, params).Success? ==>
      Convert(s, input, output, params).value.template == XslInputStream(s).value
  {
  }

  /** With an override file set, the configured resource name plays no part. */
  lemma XslFileOverridesXslName(s: Configuration, otherName: Option<string>, input: File, output: File, params: Option<Params>)
    requires s.xslFile.Some?
    ensures Convert(s.(xslName := otherName), input, output, params) == Convert(s, input, output, params)
    ensures XslInputStream(s.(xslName := otherName)) == XslInputStream(s)
  {
  }

  /** The external-template overloads ignore the instance's own template settings. */
  lemma ExternalTemplatesIgnoreConfiguration(s1: Configuration, s2: Configuration, input: File, output: File,
                                             externalXsl: File, content: string, params: Option<Params>)
    ensures ConvertWithXslFile(s1, input, output, externalXsl, params) == ConvertWithXslFile(s2, input, output, externalXsl, params)
    ensures ConvertWithXslContent(s1, input, output, content, params) == ConvertWithXslContent(s2, input, output, content, params)
  {
  }

  /** The two-argument convert is not the parameterised one with an empty map. */
  lemma DefaultConvertIsNotEmptyParams(s: Configuration, input: File, output: File)
    requires s.xslFile.Some? || s.xslName.Some?
    ensures ConvertDefault(s, input, output) != Convert(s, input, output, Some(map[]))
  {
  }

  /** validateInputFile as a function of the configuration and the input error slot
      before the call (`prev`). */
  function InputValidation(s: Configuration, prev: seq<ValidationError>, validate: Validator, doc: File): (o: ValidationRun)
    // no input schema at all: valid, nothing validated, nothing stored
    ensures s.inputXsdNameList.None? && s.inputXsdFileList.None? ==> o == Run(Success(true), prev)
    // once a schema list is set, a verdict is always "the stored list is empty"
    ensures (s.inputXsdNameList.Some? || s.inputXsdFileList.Some?) && o.verdict.Success? ==>
      (o.verdict.value <==> |o.stored| == 0)
    // only a file list: its run is recorded
    ensures s.inputXsdFileList.Some? && s.inputXsdNameList.None? ==>
      o == Record(validate(FileSchemas(s.inputXsdFileList.value), doc), prev)
    // a failing file-list run aborts before the name list is looked at
    ensures s.inputXsdFileList.Some? && validate(FileSchemas(s.inputXsdFileList.value), doc).Failure? ==>
      o == Run(Failure(validate(FileSchemas(s.inputXsdFileList.value), doc).error), prev)
    // only a name list: its run, over resources of the instance's namespace, is recorded
    ensures s.inputXsdFileList.None? && s.inputXsdNameList.Some? ==>
      o == Record(validate(ResourceSchemas(s.cls, s.inputXsdNameList.value), doc), prev)
    // both lists: the name-list run overwrites what the file-list run stored
    ensures s.inputXsdFileList.Some? && s.inputXsdNameList.Some? &&
            validate(FileSchemas(s.inputXsdFileList.value), doc).Success? ==>
      o == Record(validate(ResourceSchemas(s.cls, s.inputXsdNameList.value), doc),
                  validate(FileSchemas(s.inputXsdFileList.value), doc).value)
  {
    if s.inputXsdNameList.None? && s.inputXsdFileList.None? then Run(Success(true), prev)
    else
      var afterFiles :=
        if s.inputXsdFileList.Some? then Record(validate(FileSchemas(s.inputXsdFileList.value), doc), prev)
        else Run(Success(|prev| == 0), prev);
      if afterFiles.verdict.Failure? || s.inputXsdNameList.None? then afterFiles
      else Record(validate(ResourceSchemas(s.cls, s.inputXsdNameList.value), doc), afterFiles.stored)
  }

  /** When both lists are set and both runs succeed, the outcome does not depend on
      the file-list run at all: errors never accumulate across the two runs. */
  lemma NameListRunOverwritesFileListRun(s: Configuration, otherFiles: seq<File>, prev: seq<ValidationError>, validate: Validator, doc: File)
    requires s.inputXsdFileList.Some? && s.inputXsdNameList.Some?
    requires validate(FileSchemas(s.inputXsdFileList.value), doc).Success?
    requires validate(FileSchemas(otherFiles), doc).Success?
    requires validate(ResourceSchemas(s.cls, s.inputXsdNameList.value), doc).Success?
    ensures InputValidation(s.(inputXsdFileList := Some(otherFiles)), prev, validate, doc) == InputValidation(s, prev, validate, doc)
    ensures InputValidation(s, prev, validate, doc).stored == validate(ResourceSchemas(s.cls, s.inputXsdNameList.value), doc).value
  {
  }

  /** validateOutputFile as a function of the configuration and the output error slot
      before the call: the format's schemas, looked up in the format's namespace. */
  function OutputValidation(s: Configuration, prev: seq<ValidationError>, validate: Validator, doc: File): (o: ValidationRun)
    ensures OutputXsdNameList(s).None? ==> o == Run(Success(true), prev)
    ensures OutputXsdNameList(s).Some? ==>
      o == Record(validate(ResourceSchemas(s.base.outputFormat.value.ns, OutputXsdNameList(s).value), doc), prev)
    ensures OutputXsdNameList(s).Some? && o.verdict.Success? ==> (o.verdict.value <==> |o.stored| == 0)
  {
    if s.base.outputFormat.None? then Run(Success(true), prev)
    else if OutputXsdNameList(s).None? then Run(Success(true), prev)
    else Record(validate(ResourceSchemas(s.base.outputFormat.value.ns, OutputXsdNameList(s).value), doc), prev)
  }

  /** Output validation reads the target format only, never the converter's own
      template or input schemas. */
  lemma OutputValidationIgnoresInputSettings(s1: Configuration, s2: Configuration, prev: seq<ValidationError>, validate: Validator, doc: File)
    requires s1.base.outputFormat == s2.base.outputFormat
    ensures OutputValidation(s1, prev, validate, doc) == OutputValidation(s2, prev, validate, doc)
  {
  }

  /** equals, past the identity and null tests: same class, superclass equal, both
      schema arrays element-wise equal, xslFile and xslName null-safely equal. */
  function Equal(sup: Inherited, a: Configuration, b: Configuration): (r: bool)
    ensures r <==>
      && a.cls == b.cls && sup.equals(a.base, b.base)
      && a.xslName == b.xslName && a.xslFile == b.xslFile
      && a.inputXsdNameList == b.inputXsdNameList && a.inputXsdFileList == b.inputXsdFileList
  {
    && a.cls == b.cls
    && sup.equals(a.base, b.base)
    && ArraysEquals(a.inputXsdFileList, b.inputXsdFileList)
    && ArraysEquals(a.inputXsdNameList, b.inputXsdNameList)
    && NullSafeEquals(a.xslFile, b.xslFile)
    && NullSafeEquals(a.xslName, b.xslName)
  }

  /** hashCode: the superclass hash combined 31-fold, in `int`, with the hashes of
      xslName, xslFile and the two arrays (0 for null). */
  function HashCode(sup: Inherited, h: Hashing, s: Configuration): (r: Int32)
    ensures r == Fold31(sup.hash(s.base), [HashOrZero(h.str, s.xslName), HashOrZero(h.file, s.xslFile),
                                           ArrayHashOrZero(h.str, s.inputXsdNameList),
                                           ArrayHashOrZero(h.file, s.inputXsdFileList)])
  {
    var h1, h2 := HashOrZero(h.str, s.xslName), HashOrZero(h.file, s.xslFile);
    var h3, h4 := ArrayHashOrZero(h.str, s.inputXsdNameList), ArrayHashOrZero(h.file, s.inputXsdFileList);
    var r0 := sup.hash(s.base);
    var r1 := Combine(r0, h1);
    var r2 := Combine(r1, h2);
    var r3 := Combine(r2, h3);
    assert Fold31(r3, [h4]) == Combine(r3, h4);
    assert Fold31(r2, [h3, h4]) == Fold31(r3, [h4]);
    assert Fold31(r1, [h2, h3, h4]) == Fold31(r2, [h3, h4]);
    assert Fold31(r0, [h1, h2, h3, h4]) == Fold31(r1, [h2, h3, h4]);
    Combine(r3, h4)
  }

  /** equals is an equivalence whenever the superclass's is. */
  lemma EqualIsEquivalence(sup: Inherited, a: Configuration, b: Configuration, c: Configuration)
    requires IsEquivalence(sup)
    ensures Equal(sup, a, a)
    ensures Equal(sup, a, b) ==> Equal(sup, b, a)
    ensures Equal(sup, a, b) && Equal(sup, b, c) ==> Equal(sup, a, c)
  {
  }

  /** Equal configurations have equal hash codes whenever the superclass keeps the
      equals/hashCode contract. */
  lemma EqualHashCodes(sup: Inherited, h: Hashing, a: Configuration, b: Configuration)
    requires HashConsistent(sup)
    requires Equal(sup, a, b)
    ensures HashCode(sup, h, a) == HashCode(sup, h, b)
  {
  }

  /** One converter instance. Its configuration is fixed at construction (this
      class has no setters); the two error slots are overwritten by each validation. */
  class InputMetricXsl {
    const cls: Namespace
    const base: Base
    const xslName: Option<string>
    const xslFile: Option<File>
    const inputXsdNameList: Option<seq<string>>
    const inputXsdFileList: Option<seq<File>>
    var inputValidationErrors: seq<ValidationError>
    var outputValidationErrors: seq<ValidationError>

    constructor (cls: Namespace, base: Base, xslName: Option<string>, xslFile: Option<File>,
                 inputXsdNameList: Option<seq<string>>, inputXsdFileList: Option<seq<File>>)
      ensures Config() == Configuration(cls, base, xslName, xslFile, inputXsdNameList, inputXsdFileList)
      ensures inputValidationErrors == [] && outputValidationErrors == []
    {
      this.cls := cls;
      this.base := base;
      this.xslName := xslName;
      this.xslFile := xslFile;
      this.inputXsdNameList := inputXsdNameList;
      this.inputXsdFileList := inputXsdFileList;
      inputValidationErrors := [];
      outputValidationErrors := [];
    }

    function Config(): Configuration
    {
      Configuration(cls, base, xslName, xslFile, inputXsdNameList, inputXsdFileList)
    }

    /** getInputMetricType */
    function InputMetricType(): (t: InputMetricType)
      ensures t == XSL
    {
      XSL
    }

    /** getListXsdInputStream: one stream per listed schema file if there is a file
      list, otherwise one resource lookup in the instance's namespace per listed
      name, otherwise null. */
    method ListXsdInputStream() returns (r: Option<seq<SchemaSrc>>)
      ensures r.None? <==> inputXsdFileList.None? && inputXsdNameList.None?
      ensures inputXsdFileList.Some? ==>
        r.Some? && |r.value| == |inputXsdFileList.value| &&
        forall i :: 0 <= i < |r.value| ==> r.value[i] == SchemaFile(inputXsdFileList.value[i])
      ensures inputXsdFileList.None? && inputXsdNameList.Some? ==>
        r.Some? && |r.value| == |inputXsdNameList.value| &&
        forall i :: 0 <= i < |r.value| ==> r.value[i] == SchemaResource(cls, inputXsdNameList.value[i])
    {
      if inputXsdFileList.Some? {
        var streams := BuildFileSchemas(inputXsdFileList.value);
        return Some(streams);
      }
      if inputXsdNameList.Some? {
        var streams := BuildResourceSchemas(cls, inputXsdNameList.value);
        return Some(streams);
      }
      return None;
    }

    /** validateInputFile */
    method ValidateInputFile(validate: Validator, doc: File) returns (r: Result<bool, ValidationFailure>)
      modifies this`inputValidationErrors
      ensures Run(r, inputValidationErrors) == InputValidation(Config(), old(inputValidationErrors), validate, doc)
      ensures outputValidationErrors == old(outputValidationErrors)
    {
      if inputXsdNameList.None? && inputXsdFileList.None? {
        return Success(true);
      }
      if inputXsdFileList.Some? {
        var res := validate(FileSchemas(inputXsdFileList.value), doc);
        if res.Failure? {
          return Failure(res.error);
        }
        inputValidationErrors := res.value;
      }
      if inputXsdNameList.Some? {
        var sources := BuildResourceSchemas(cls, inputXsdNameList.value);
        var res := validate(sources, doc);
        if res.Failure? {
          return Failure(res.error);
        }
        inputValidationErrors := res.value;
      }
      return Success(|inputValidationErrors| == 0);
    }

    /** validateOutputFile */
    method ValidateOutputFile(validate: Validator, doc: File) returns (r: Result<bool, ValidationFailure>)
      modifies this`outputValidationErrors
      ensures Run(r, outputValidationErrors) == OutputValidation(Config(), old(outputValidationErrors), validate, doc)
      ensures inputValidationErrors == old(inputValidationErrors)
    {
      if base.outputFormat.None? {
        return Success(true);
      }
      var names := OutputXsdNameList(Config());
      if names.None? {
        return Success(true);
      }
      var sources := BuildResourceSchemas(base.outputFormat.value.ns, names.value);
      var res := validate(sources, doc);
      if res.Failure? {
        return Failure(res.error);
      }
      outputValidationErrors := res.value;
      return Success(|outputValidationErrors| == 0);
    }

    /** equals(o): identity first, then null and the configuration comparison. */
    function Equals(sup: Inherited, o: InputMetricXsl?): (r: bool)
      ensures this == o ==> r
      ensures r ==> o != null && cls == o.cls
    {
      o != null && (this == o || Equal(sup, Config(), o.Config()))
    }
  }

  /** equals between instances is symmetric whenever the superclass's equals is an equivalence. */
  lemma EqualsIsSymmetric(sup: Inherited, a: InputMetricXsl, b: InputMetricXsl)
    requires IsEquivalence(sup)
    ensures a.Equals(sup, b) <==> b.Equals(sup, a)
  {
    EqualIsEquivalence(sup, a.Config(), b.Config(), a.Config());
    EqualIsEquivalence(sup, b.Config(), a.Config(), b.Config());
  }

  /** Equal instances have equal hash codes. */
  lemma EqualInstancesHashAlike(sup: Inherited, h: Hashing, a: InputMetricXsl, b: InputMetricXsl)
    requires HashConsistent(sup)
    requires a.Equals(sup, b)
    ensures HashCode(sup, h, a.Config()) == HashCode(sup, h, b.Config())
  {
    if a != b {
      EqualHashCodes(sup, h, a.Config(), b.Config());
    }
  }
}
