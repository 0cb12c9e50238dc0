# XSL-based test-report converter: a Dafny model

This project models the decision logic of `InputMetricXSL`, the XSL-based format
converter of the dtkit test-report framework. A converter instance turns an input
report produced by a testing tool into a canonical output format (JUnit-like). It does
this by handing a stylesheet to a transformation service. It validates input and output
documents against XSD schemas through a validation service. The framework has two
versions of the class, and both are modelled:

- **multi-schema variant** (`MetricsModel`, `metrics_model.dfy`): the template is an
  override file or a bundled resource name, and the input schemas are a list of files or a
  list of resource names.
- **single-schema variant** (`MetricsApi`, `metrics_api.dfy`): one input schema name,
  plain setters, and an injected validation service.

The transformation and validation services are black boxes (`Validator` is a function
value). The model records *which* sources the converter hands to them:
`TemplateSrc` (`FromFile | FromResource | FromContent`), `SchemaSrc` and the optional
parameter map. It also records what the instance stores in its two mutable error slots,
`inputValidationErrors` and `outputValidationErrors`. Java `null` is `Option.None`. A
`ValidationException` raised by the service is `Result.Failure`, and the slot then keeps
its previous value. A class's resource namespace (`getClass()`) is an opaque
`Namespace`. The state read from the superclass `InputMetric` is a `Base` record:
tool name, tool version and output format. That superclass is not part of this model. Its
`equals`/`hashCode` are parameters (`Inherited`), and the hash-consistency lemmas
assume that they keep the Java contract. `JavaSemantics` (`java_semantics.dfy`) spells
out the Java behaviour the code relies on: 32-bit `int` wrap-around in `31 * result + h`,
`Arrays.equals`, `Arrays.hashCode`, the null-safe equals idiom, and `"" + null == "null"`.

Notes on the code as written:

- The multi-schema variant calls `getXsdNameList()` on its output format
  (`dtkit-metrics-model/src/main/java/com/thalesgroup/dtkit/metrics/model/InputMetricXSL.java:154`), but the `OutputMetric` interface beside it declares only `getXsd()`. The
  format record therefore carries both an `xsd` and an `xsdNameList` field.
- The two-argument `convert` passes `null`, not an empty map (`dtkit-metrics-model/src/main/java/com/thalesgroup/dtkit/metrics/model/InputMetricXSL.java:189`);
  `DefaultConvertIsNotEmptyParams` states the difference.
- In the multi-schema variant, `convert` with neither `xslFile` nor `xslName` looks up
  a resource under a `null` name, which raises `NullPointerException`. In the same
  situation `getXslInputStream` returns `null`. The model keeps the two apart:
  `Convert` gives `Failure(NullXslName)`, and `XslInputStream` gives `None`.
- When the multi-schema variant has both input lists, the name-list run overwrites what
  the file-list run stored. The file-list errors are lost and do not affect the verdict.
- On the "no schema" shortcuts, `validateInputFile`/`validateOutputFile` return `true`
  without touching the slot. The verdict is "the slot is empty" only when a validation
  actually ran.

## Model

| member | source | states |
|---|---|---|
| JavaSemantics.Wrap | dtkit-metrics-model/src/main/java/com/thalesgroup/dtkit/metrics/model/InputMetricXSL.java:310-316 | the result is a Java int congruent to the exact value modulo 2^32, and equal to it when the exact value is in range |
| JavaSemantics.ElementsEqualIsEquality | dtkit-metrics-model/src/main/java/com/thalesgroup/dtkit/metrics/model/InputMetricXSL.java:301-302 | the element loop of `Arrays.equals` on equal-length arrays holds exactly when the sequences are equal (proved by induction) |
| JavaSemantics.ArraysEquals | dtkit-metrics-model/src/main/java/com/thalesgroup/dtkit/metrics/model/InputMetricXSL.java:301-302 | `Arrays.equals`, including its two null cases, holds exactly when the nullable sequences are equal |
| JavaSemantics.Fold31Snoc | dtkit-metrics-model/src/main/java/com/thalesgroup/dtkit/metrics/model/InputMetricXSL.java:310-316 | folding one more hash into the `31 * result + h` loop is one more combination step (proved by induction) |
| JavaSemantics.ArrayHash | dtkit-metrics-model/src/main/java/com/thalesgroup/dtkit/metrics/model/InputMetricXSL.java:314-315 | `Arrays.hashCode` of a non-null array is the `31 * result + h` fold, from 1, of the element hashes in order, in Java int |
| JavaSemantics.EndsWith | dtkit-metrics-model/src/main/java/com/thalesgroup/dtkit/metrics/model/InputMetricXSL.java:168 | `endsWith` holds exactly when the string is some string followed by the suffix |
| JavaSemantics.NullSafeEquals | dtkit-metrics-model/src/main/java/com/thalesgroup/dtkit/metrics/model/InputMetricXSL.java:303-304 | `x != null ? x.equals(y) : y == null` holds exactly when both are null or both hold equal values |
| MetricTypes.Record | dtkit-metrics-model/src/main/java/com/thalesgroup/dtkit/metrics/model/InputMetricXSL.java:281-282 | a successful run overwrites the slot and reports whether it is empty; a raised ValidationException leaves the slot as it was |
| MetricTypes.BuildFileSchemas | dtkit-metrics-model/src/main/java/com/thalesgroup/dtkit/metrics/model/InputMetricXSL.java:125-128 | the array has one entry per listed file, entry i being file i |
| MetricTypes.BuildResourceSchemas | dtkit-metrics-model/src/main/java/com/thalesgroup/dtkit/metrics/model/InputMetricXSL.java:134-137 | the array has one entry per listed name, entry i being the resource named by element i in the given namespace |
| MetricsModel.XslInputStream | dtkit-metrics-model/src/main/java/com/thalesgroup/dtkit/metrics/model/InputMetricXSL.java:91-103 | the override file wins over the resource name, the resource is looked up in the instance's own namespace, the result is null exactly when neither is set, and it is never inline content |
| MetricsModel.OutputXsdNameList | dtkit-metrics-model/src/main/java/com/thalesgroup/dtkit/metrics/model/InputMetricXSL.java:149-155 | null without an output format, otherwise exactly the format's schema-name list |
| MetricsModel.UserContentXslDirRelativePath | dtkit-metrics-model/src/main/java/com/thalesgroup/dtkit/metrics/model/InputMetricXSL.java:167-172 | always starts with "xunit/<tool>/"; is exactly that when the version is null or ends with "N/A"; otherwise appends the version with no trailing slash |
| MetricsModel.UserContentDirSeparatesVersions | dtkit-metrics-model/src/main/java/com/thalesgroup/dtkit/metrics/model/InputMetricXSL.java:167-172 | two versions not ending with "N/A" that yield the same directory are the same version |
| MetricsModel.Convert | dtkit-metrics-model/src/main/java/com/thalesgroup/dtkit/metrics/model/InputMetricXSL.java:177-185 | the override file is used whatever xslName says; otherwise the resource xslName in the instance's namespace; with neither, the lookup fails; input, output and parameters are passed through unchanged |
| MetricsModel.ConvertDefault | dtkit-metrics-model/src/main/java/com/thalesgroup/dtkit/metrics/model/InputMetricXSL.java:187-190 | the two-argument form is the parameterised form with absent (null) parameters |
| MetricsModel.DefaultConvertIsNotEmptyParams | dtkit-metrics-model/src/main/java/com/thalesgroup/dtkit/metrics/model/InputMetricXSL.java:187-190 | whenever a template is configured, the two-argument form differs from the empty-map call |
| MetricsModel.ConvertWithXslFile | dtkit-metrics-model/src/main/java/com/thalesgroup/dtkit/metrics/model/InputMetricXSL.java:205-208 | the conversion uses exactly the supplied template file |
| MetricsModel.ConvertWithXslContent | dtkit-metrics-model/src/main/java/com/thalesgroup/dtkit/metrics/model/InputMetricXSL.java:223-226 | the conversion uses exactly the supplied stylesheet text |
| MetricsModel.ExternalTemplatesIgnoreConfiguration | dtkit-metrics-model/src/main/java/com/thalesgroup/dtkit/metrics/model/InputMetricXSL.java:205-226 | both external-template overloads give the same request for any two configurations |
| MetricsModel.ConvertAgreesWithXslInputStream | dtkit-metrics-model/src/main/java/com/thalesgroup/dtkit/metrics/model/InputMetricXSL.java:178-185 | convert succeeds exactly when getXslInputStream is non-null, and then it uses the same template |
| MetricsModel.XslFileOverridesXslName | dtkit-metrics-model/src/main/java/com/thalesgroup/dtkit/metrics/model/InputMetricXSL.java:180-184 | with an override file set, changing xslName changes neither convert nor getXslInputStream |
| MetricsModel.InputValidation | dtkit-metrics-model/src/main/java/com/thalesgroup/dtkit/metrics/model/InputMetricXSL.java:231-255 | no schema list: true, nothing validated, slot unchanged; file-list only: that run is recorded; name list: its run over the instance's namespace overwrites the slot; a ValidationException aborts with the slot as it was; once a list is set the verdict is "the slot is empty" |
| MetricsModel.NameListRunOverwritesFileListRun | dtkit-metrics-model/src/main/java/com/thalesgroup/dtkit/metrics/model/InputMetricXSL.java:240-251 | with both lists set and both runs succeeding, the outcome does not depend on the file list, and the slot holds only the name-list errors |
| MetricsModel.OutputValidation | dtkit-metrics-model/src/main/java/com/thalesgroup/dtkit/metrics/model/InputMetricXSL.java:261-283 | no format or no schema-name list: true and slot unchanged; otherwise the format's names are resolved in the format's namespace, run together, and recorded; the verdict is "the slot is empty" |
| MetricsModel.OutputValidationIgnoresInputSettings | dtkit-metrics-model/src/main/java/com/thalesgroup/dtkit/metrics/model/InputMetricXSL.java:262-283 | output validation depends only on the output format, never on the template or input schemas |
| MetricsModel.Equal | dtkit-metrics-model/src/main/java/com/thalesgroup/dtkit/metrics/model/InputMetricXSL.java:294-307 | equals (past identity) holds exactly when the classes match, the superclass calls the bases equal, and xslName, xslFile and both schema lists are equal (arrays by `Arrays.equals`, null equal only to null) |
| MetricsModel.HashCode | dtkit-metrics-model/src/main/java/com/thalesgroup/dtkit/metrics/model/InputMetricXSL.java:309-317 | the superclass hash, then xslName, xslFile and `Arrays.hashCode` of each schema list (0 for null), each folded in as `31 * result + h` in Java int |
| MetricsModel.EqualIsEquivalence | dtkit-metrics-model/src/main/java/com/thalesgroup/dtkit/metrics/model/InputMetricXSL.java:294-307 | equals is reflexive, symmetric and transitive when the superclass's equals is |
| MetricsModel.EqualHashCodes | dtkit-metrics-model/src/main/java/com/thalesgroup/dtkit/metrics/model/InputMetricXSL.java:309-317 | equal configurations have equal 31-fold int hash codes, given a consistent superclass |
| MetricsModel.InputMetricXsl.constructor | dtkit-metrics-model/src/main/java/com/thalesgroup/dtkit/metrics/model/InputMetricXSL.java:42-46 | the instance holds the given configuration, and both error slots start empty |
| MetricsModel.InputMetricXsl.InputMetricType | dtkit-metrics-model/src/main/java/com/thalesgroup/dtkit/metrics/model/InputMetricXSL.java:162-165 | every instance reports XSL |
| MetricsModel.InputMetricXsl.ListXsdInputStream | dtkit-metrics-model/src/main/java/com/thalesgroup/dtkit/metrics/model/InputMetricXSL.java:120-142 | the file list wins over the name list; the result has the chosen list's length and entry i comes from element i; null when both lists are absent |
| MetricsModel.InputMetricXsl.ValidateInputFile | dtkit-metrics-model/src/main/java/com/thalesgroup/dtkit/metrics/model/InputMetricXSL.java:231-255 | verdict and new input slot are those of InputValidation on the old slot; the output slot is unchanged |
| MetricsModel.InputMetricXsl.ValidateOutputFile | dtkit-metrics-model/src/main/java/com/thalesgroup/dtkit/metrics/model/InputMetricXSL.java:261-283 | verdict and new output slot are those of OutputValidation on the old slot; the input slot is unchanged |
| MetricsModel.InputMetricXsl.Equals | dtkit-metrics-model/src/main/java/com/thalesgroup/dtkit/metrics/model/InputMetricXSL.java:293-307 | an instance equals itself, and equality implies a non-null argument of the same class |
| MetricsModel.EqualsIsSymmetric | dtkit-metrics-model/src/main/java/com/thalesgroup/dtkit/metrics/model/InputMetricXSL.java:293-307 | between two instances, equals is symmetric when the superclass's equals is an equivalence |
| MetricsModel.EqualInstancesHashAlike | dtkit-metrics-model/src/main/java/com/thalesgroup/dtkit/metrics/model/InputMetricXSL.java:293-317 | equal instances (identity included) have equal hash codes |
| MetricsApi.Equal | dtkit-metrics-api/src/main/java/com/thalesgroup/dtkit/metrics/api/InputMetricXSL.java:193-206 | equals (past identity) holds exactly when the classes match, the superclass calls the bases equal, and inputXsd, xslFile and xslName are equal, null equal only to null |
| MetricsApi.HashCode | dtkit-metrics-api/src/main/java/com/thalesgroup/dtkit/metrics/api/InputMetricXSL.java:208-215 | the superclass hash, then xslName, xslFile and inputXsd (0 for null), each folded in as `31 * result + h` in Java int |
| MetricsApi.EqualIsEquivalence | dtkit-metrics-api/src/main/java/com/thalesgroup/dtkit/metrics/api/InputMetricXSL.java:192-206 | equals over inputXsd, xslFile and xslName is an equivalence when the superclass's is |
| MetricsApi.EqualHashCodes | dtkit-metrics-api/src/main/java/com/thalesgroup/dtkit/metrics/api/InputMetricXSL.java:208-215 | equal configurations have equal 31-fold int hash codes, given a consistent superclass |
| MetricsApi.InputMetricXsl.constructor | dtkit-metrics-api/src/main/java/com/thalesgroup/dtkit/metrics/api/InputMetricXSL.java:40-56 | the instance gets its class, superclass state and validation service; all three configuration fields start null and both slots empty |
| MetricsApi.InputMetricXsl.OutputXsd | dtkit-metrics-api/src/main/java/com/thalesgroup/dtkit/metrics/api/InputMetricXSL.java:115-118 | yields the output format's xsd; requires a format, as there is no null guard |
| MetricsApi.InputMetricXsl.InputMetricType | dtkit-metrics-api/src/main/java/com/thalesgroup/dtkit/metrics/api/InputMetricXSL.java:125-128 | every instance reports XSL |
| MetricsApi.InputMetricXsl.Convert | dtkit-metrics-api/src/main/java/com/thalesgroup/dtkit/metrics/api/InputMetricXSL.java:134-141 | the file form exactly when xslFile is set; otherwise the resource form with the instance's class and xslName, passed even when null |
| MetricsApi.InputMetricXsl.ValidateInputFile | dtkit-metrics-api/src/main/java/com/thalesgroup/dtkit/metrics/api/InputMetricXSL.java:148-152 | always delegates with (class, inputXsd, file), with no shortcut for a null inputXsd; stores the errors; true iff they are empty; the output slot and configuration are unchanged |
| MetricsApi.InputMetricXsl.ValidateOutputFile | dtkit-metrics-api/src/main/java/com/thalesgroup/dtkit/metrics/api/InputMetricXSL.java:158-162 | with no output format, raises NullPointerException and leaves the slot alone (there is no shortcut, unlike the multi-schema variant); otherwise delegates with the format's class and getOutputXsd(), stores the output errors, and is true iff they are empty; the input slot and configuration are unchanged |
| MetricsApi.XslFileOverridesXslName | dtkit-metrics-api/src/main/java/com/thalesgroup/dtkit/metrics/api/InputMetricXSL.java:134-141 | any two instances with the same xslFile set convert with that file, whatever their class or xslName |
| MetricsApi.InputMetricXsl.SetXslName | dtkit-metrics-api/src/main/java/com/thalesgroup/dtkit/metrics/api/InputMetricXSL.java:172-174 | sets xslName to the argument; no other field changes |
| MetricsApi.InputMetricXsl.SetXslFile | dtkit-metrics-api/src/main/java/com/thalesgroup/dtkit/metrics/api/InputMetricXSL.java:176-178 | sets xslFile to the argument; no other field changes |
| MetricsApi.InputMetricXsl.SetInputXsd | dtkit-metrics-api/src/main/java/com/thalesgroup/dtkit/metrics/api/InputMetricXSL.java:180-182 | sets inputXsd to the argument; no other field changes |
| MetricsApi.InputMetricXsl.Equals | dtkit-metrics-api/src/main/java/com/thalesgroup/dtkit/metrics/api/InputMetricXSL.java:192-206 | an instance equals itself, and equality implies a non-null argument of the same class |
| MetricsApi.EqualsIsSymmetric | dtkit-metrics-api/src/main/java/com/thalesgroup/dtkit/metrics/api/InputMetricXSL.java:192-206 | between two instances, equals is symmetric when the superclass's equals is an equivalence |
| MetricsApi.EqualInstancesHashAlike | dtkit-metrics-api/src/main/java/com/thalesgroup/dtkit/metrics/api/InputMetricXSL.java:192-215 | equal instances (identity included) have equal hash codes |

## Left out

- The XSLT transformation and the XSD validation themselves (ConversionService, ValidationService): foreign library code. The validator is a function value, and conversion yields the request handed to the service.
- Opening streams and files (FileInputStream, StreamSource, StringReader), and the null stream that getResourceAsStream returns for a missing resource: I/O. A resource is a (namespace, name) pair.
- MetricsModel.InputMetricXsl.constructor: the multi-schema class assigns its four configuration fields nowhere (no setter, no constructor; InputMetricFactory builds instances with newInstance()). The constructor stands for whatever state deserialisation or a subclass leaves behind, with both slots empty.
- MetricsModel.Equal, MetricsModel.HashCode: the source's behaviour methods read the overridable getters getXslFile, getXslName, getInputXsdNameList and getInputXsdFileList, but its equals and hashCode read the private fields directly. The model has one value per field and no getter overrides, so equals and hashCode compare exactly the values the conversion and validation use. A subclass whose getters return something other than the fields, so that two instances convert differently yet compare equal, is not modelled. The single-schema variant's equals reads the getters, so it alone is unaffected.
- File paths compare and hash as on Unix (case-sensitive); the case-insensitive comparison of java.io.File on Windows is not modelled.
- Reflection: getClass(), and subclasses overriding getXslResourceClass/getInputXsdClass. Each instance has one opaque namespace, used for both its template and its input schemas.
- The superclass InputMetric: its fields, its setters for the error slots, and its equals/hashCode. Those two are parameters, and an instance's error slots start empty.
- The Guice-injected set(ConversionService, ValidationService) of the single-schema variant: the validation service is a constructor argument, and an instance whose services were never injected (a NullPointerException in Java) is not modelled. The conversion service of that variant is not modelled: Convert yields the call handed to it.
- Null elements inside the schema arrays, and null arguments to the external-template overloads: sequences and files in the model are never null.
- MetricsModel.InputMetricXsl.Equals, MetricsApi.InputMetricXsl.Equals: the argument is typed as the converter class, so an argument of an unrelated Java class is not modelled. The class test compares namespaces.
- Jackson, JAXB and Guice annotations: serialisation and wiring only.
- The hash functions of String and File: parameters; only the 31-fold combination is modelled.
- The Hudson MeasureType extension lookup, the reflective InputMetricFactory, the behaviour-free OutputMetric interface and the JUnitModel data holder: plugin plumbing, reflection and constant data.
