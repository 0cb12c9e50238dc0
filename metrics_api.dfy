/** The single-schema XSL converter (dtkit-metrics-api, InputMetricXSL): one input
    schema name, a template given by an override file or a bundled resource name,
    plain setters, and validation delegated to an injected validation service. */
module MetricsApi {
  import opened Wrappers
  import opened JavaSemantics
  import opened MetricTypes

  /** The configuration equals and hashCode compare. */
  datatype Configuration = Configuration(
    cls: Namespace,
    base: Base,
    xslName: Option<string>,
    xslFile: Option<File>,
    inputXsd: Option<string>)

  /** The call convert makes on the conversion service: by class and resource name
      (the name passed as it is, possibly null), or by template file. */
  datatype ConversionCall =
    | ResourceConversion(ns: Namespace, xslName: Option<string>, input: File, output: File)
    | FileConversion(xsl: File, input: File, output: File)

  /** The validation service: one schema, named in a namespace, applied to a document. */
  type Validator = (Namespace, Option<string>, File) -> Result<seq<ValidationError>, ValidationFailure>

  /** equals, past the identity and null tests: same class, superclass equal, and
      inputXsd, xslFile and xslName null-safely equal. */
  function Equal(sup: Inherited, a: Configuration, b: Configuration): (r: bool)
    ensures r <==>
      && a.cls == b.cls && sup.equals(a.base, b.base)
      && a.inputXsd == b.inputXsd && a.xslFile == b.xslFile && a.xslName == b.xslName
  {
    && a.cls == b.cls
    && sup.equals(a.base, b.base)
    && NullSafeEquals(a.inputXsd, b.inputXsd)
    && NullSafeEquals(a.xslFile, b.xslFile)
    && NullSafeEquals(a.xslName, b.xslName)
  }

  /** hashCode: the superclass hash combined 31-fold, in `int`, with the hashes of
      xslName, xslFile and inputXsd (0 for null). */
  function HashCode(sup: Inherited, h: Hashing, s: Configuration): (r: Int32)
    ensures r == Fold31(sup.hash(s.base), [HashOrZero(h.str, s.xslName), HashOrZero(h.file, s.xslFile),
                                           HashOrZero(h.str, s.inputXsd)])
  {
    var h1, h2, h3 := HashOrZero(h.str, s.xslName), HashOrZero(h.file, s.xslFile), HashOrZero(h.str, s.inputXsd);
    var r0 := sup.hash(s.base);
    var r1 := Combine(r0, h1);
    var r2 := Combine(r1, h2);
    assert Fold31(r2, [h3]) == Combine(r2, h3);
    assert Fold31(r1, [h2, h3]) == Fold31(r2, [h3]);
    assert Fold31(r0, [h1, h2, h3]) == Fold31(r1, [h2, h3]);
    Combine(r2, h3)
  }

  /** equals is an equivalence whenever the superclass's is. */
  lemma EqualIsEquivalence(sup: Inherited, a: Configuration, b: Configuration, c: Configuration)
    requires IsEquivalence(sup)
    ensures Equal(sup, a, a)
    ensures Equal(sup, a, b) ==> Equal(sup, b, a)
    ensures Equal(sup, a, b) && Equal(sup, b, c) ==> Equal(sup, a, c)
  {
  }

  /** Equal configurations have equal hash codes whenever the superclass keeps the
      equals/hashCode contract. */
  lemma EqualHashCodes(sup: Inherited, h: Hashing, a: Configuration, b: Configuration)
    requires HashConsistent(sup)
    requires Equal(sup, a, b)
    ensures HashCode(sup, h, a) == HashCode(sup, h, b)
  {
  }

  /** One converter instance, with its validation service injected at construction. */
  class InputMetricXsl {
    const cls: Namespace
    const base: Base
    const validationService: Validator
    var xslName: Option<string>
    var xslFile: Option<File>
    var inputXsd: Option<string>
    var inputValidationErrors: seq<ValidationError>
    var outputValidationErrors: seq<ValidationError>

    constructor (cls: Namespace, base: Base, validationService: Validator)
      ensures this.cls == cls && this.base == base && this.validationService == validationService
      ensures xslName.None? && xslFile.None? && inputXsd.None?
      ensures inputValidationErrors == [] && outputValidationErrors == []
    {
      this.cls := cls;
      this.base := base;
      this.validationService := validationService;
      xslName, xslFile, inputXsd := None, None, None;
      inputValidationErrors, outputValidationErrors := [], [];
    }

    function Config(): Configuration
      reads this
    {
      Configuration(cls, base, xslName, xslFile, inputXsd)
    }

    /** getOutputXsd: the output format's schema; there is no null guard, so the
        format must be set. */
    function OutputXsd(): (r: Option<string>)
      requires base.outputFormat.Some?
      ensures r == base.outputFormat.value.xsd
    {
      base.outputFormat.value.xsd
    }

    /** getInputMetricType */
    function InputMetricType(): (t: InputMetricType)
      ensures t == XSL
    {
      XSL
    }

    /** convert(in, out): the file form when xslFile is set, otherwise the resource
        form with the instance's class and xslName. */
    function Convert(input: File, output: File): (c: ConversionCall)
      reads this
      ensures c.input == input && c.output == output
      ensures c.FileConversion? <==> xslFile.Some?
      ensures xslFile.Some? ==> c.xsl == xslFile.value
      ensures xslFile.None? ==> c.ns == cls && c.xslName == xslName
    {
      if xslFile.None? then ResourceConversion(cls, xslName, input, output)
      else FileConversion(xslFile.value, input, output)
    }

    /** validateInputFile: always delegates (even for a null inputXsd), stores the
        errors and reports whether there are none. */
    method ValidateInputFile(doc: File) returns (r: Result<bool, ValidationFailure>)
      modifies this`inputValidationErrors
      ensures Run(r, inputValidationErrors) == Record(validationService(cls, inputXsd, doc), old(inputValidationErrors))
      ensures r.Success? ==> (r.value <==> |inputValidationErrors| == 0)
      ensures outputValidationErrors == old(outputValidationErrors)
      ensures xslName == old(xslName) && xslFile == old(xslFile) && inputXsd == old(inputXsd)
    {
      var res := validationService(cls, inputXsd, doc);
      if res.Failure? {
        return Failure(res.error);
      }
      inputValidationErrors := res.value;
      return Success(|inputValidationErrors| == 0);
    }

    /** validateOutputFile: delegates with the format's class and getOutputXsd(),
        stores the errors and reports whether there are none. There is no guard for a
        missing output format: dereferencing it raises NullPointerException. */
    method ValidateOutputFile(doc: File) returns (r: Result<bool, ValidationFailure>)
      modifies this`outputValidationErrors
      ensures base.outputFormat.None? ==>
        r == Failure(NullPointerException) && outputValidationErrors == old(outputValidationErrors)
      ensures base.outputFormat.Some? ==>
        Run(r, outputValidationErrors) ==
        Record(validationService(base.outputFormat.value.ns, OutputXsd(), doc), old(outputValidationErrors))
      ensures r.Success? ==> (r.value <==> |outputValidationErrors| == 0)
      ensures inputValidationErrors == old(inputValidationErrors)
      ensures xslName == old(xslName) && xslFile == old(xslFile) && inputXsd == old(inputXsd)
    {
      if base.outputFormat.None? {
        return Failure(NullPointerException);
      }
      var res := validationService(base.outputFormat.value.ns, OutputXsd(), doc);
      if res.Failure? {
        return Failure(res.error);
      }
      outputValidationErrors := res.value;
      return Success(|outputValidationErrors| == 0);
    }

    method SetXslName(xslName: Option<string>)
      modifies this`xslName
      ensures this.xslName == xslName
      ensures xslFile == old(xslFile) && inputXsd == old(inputXsd)
      ensures inputValidationErrors == old(inputValidationErrors) && outputValidationErrors == old(outputValidationErrors)
    {
      this.xslName := xslName;
    }

    method SetXslFile(xslFile: Option<File>)
      modifies this`xslFile
      ensures this.xslFile == xslFile
      ensures xslName == old(xslName) && inputXsd == old(inputXsd)
      ensures inputValidationErrors == old(inputValidationErrors) && outputValidationErrors == old(outputValidationErrors)
    {
      this.xslFile := xslFile;
    }

    method SetInputXsd(inputXsd: Option<string>)
      modifies this`inputXsd
      ensures this.inputXsd == inputXsd
      ensures xslName == old(xslName) && xslFile == old(xslFile)
      ensures inputValidationErrors == old(inputValidationErrors) && outputValidationErrors == old(outputValidationErrors)
    {
      this.inputXsd := inputXsd;
    }

    /** equals(o): identity first, then null and the configuration comparison. */
    function Equals(sup: Inherited, o: InputMetricXsl?): (r: bool)
      reads this, o
      ensures this == o ==> r
      ensures r ==> o != null && cls == o.cls
    {
      o != null && (this == o || Equal(sup, Config(), o.Config()))
    }
  }

  /** equals between instances is symmetric whenever the superclass's equals is an equivalence. */
  lemma EqualsIsSymmetric(sup: Inherited, a: InputMetricXsl, b: InputMetricXsl)
    requires IsEquivalence(sup)
    ensures a.Equals(sup, b) <==> b.Equals(sup, a)
  {
    EqualIsEquivalence(sup, a.Config(), b.Config(), a.Config());
    EqualIsEquivalence(sup, b.Config(), a.Config(), b.Config());
  }

  /** Once xslFile is set, xslName plays no part in what convert hands to the service. */
  lemma XslFileOverridesXslName(a: InputMetricXsl, b: InputMetricXsl, input: File, output: File)
    requires a.xslFile == b.xslFile && a.xslFile.Some?
    ensures a.Convert(input, output) == b.Convert(input, output) == FileConversion(a.xslFile.value, input, output)
  {
  }

  /** Equal instances have equal hash codes. */
  lemma EqualInstancesHashAlike(sup: Inherited, h: Hashing, a: InputMetricXsl, b: InputMetricXsl)
    requires HashConsistent(sup)
    requires a.Equals(sup, b)
    ensures HashCode(sup, h, a.Config()) == HashCode(sup, h, b.Config())
  {
    if a != b {
      EqualHashCodes(sup, h, a.Config(), b.Config());
    }
  }
}
