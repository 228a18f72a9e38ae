# TokenValidationDTO, modelled in Dafny

This project models `TokenValidationDTO`, the generated REST data-transfer object of the
WSO2 API Manager admin API that describes how tokens are validated. It has three parts:

- `TypeEnum`, the closed set of validation kinds `REGEX`, `JWT` and `CUSTOM`. Each constant
  carries its string value. `fromValue` maps a string back to its constant by a linear search
  over `values()`.
- The DTO object. It has three nullable fields, `enable` (default `true`), `type` and `value`
  (both default `null`). Each field has a fluent setter that returns the same object, a getter
  and a plain setter.
- Field-wise `equals` and `hashCode`, and a `toString` that prints a fixed five-part layout. It
  indents every embedded line of a field's text by four spaces (`toIndentedString`).

Files and modules:

- `wrappers.dfy` (`Wrappers`): `Option`, which stands for Java's nullable references.
- `java_lang.dfy` (`JavaLang`): the Java platform pieces the DTO relies on. These are 32-bit
  `int` wrap-around, `String.valueOf`, `Boolean.toString`, `Boolean.hashCode`, and the `Arrays.hashCode` fold
  that `Objects.hash` delegates to.
- `type_enum.dfy` (`TokenValidationType`): `TypeEnum`, `value()`, `toString()`, `values()` and
  `fromValue`. `fromValue` is an imperative loop with an early return, proved against a
  functional linear search.
- `indented_text.dfy` (`IndentedText`): `toIndentedString` and the `replace("\n", "\n    ")` it
  performs. Also holds the inverse rewrite and a line-splitting view used to state layouts.
- `token_validation.dfy` (`TokenValidation`): the DTO class, with fields updated in place.
  It holds the setters and getters, `equals`, `hashCode`, `toString` (a builder method proved
  against the `Text` function) and the lemmas about them.

Modelling choices:

- Java `null` is `None`.
- The field `type` is called `tokenType`, because `type` is a Dafny keyword.
- The `value` field is a Java `Object` of unknown class. It is written as the class type
  parameter `V`. Its `toString()` and `hashCode()` are passed in as functions. Its `equals` is
  taken to be equality on `V`.
- The hash of a `TypeEnum` constant is Java's identity hash, which differs from run to run. It
  is passed in as a function too.
- The argument of `equals(Object o)` is a `JavaObject`: `null`, an object of another class, or
  a `TokenValidationDTO`.

The repository's chat view (`ChatMessages.jsx`) is presentation only and is not part of this
model. `SubscriptionDTO` is not part of this model either.

## Model

| member | source | states |
|---|---|---|
| `TokenValidationType.Values` | components/apimgt/org.wso2.carbon.apimgt.rest.api.admin.v1/src/gen/java/org/wso2/carbon/apimgt/rest/api/admin/v1/dto/TokenValidationDTO.java:24 | `values()` holds each of `REGEX`, `JWT`, `CUSTOM` exactly once |
| `TokenValidationType.ValueInjective` | components/apimgt/org.wso2.carbon.apimgt.rest.api.admin.v1/src/gen/java/org/wso2/carbon/apimgt/rest/api/admin/v1/dto/TokenValidationDTO.java:24-35 | distinct constants carry distinct string values |
| `TokenValidationType.ToStringIsValue` | components/apimgt/org.wso2.carbon.apimgt.rest.api.admin.v1/src/gen/java/org/wso2/carbon/apimgt/rest/api/admin/v1/dto/TokenValidationDTO.java:33-40 | `b.toString()`, which is `String.valueOf(value)`, is exactly `b.value()` and never `"null"`, since the carried value is never `null` |
| `TokenValidationType.Lookup` | components/apimgt/org.wso2.carbon.apimgt.rest.api.admin.v1/src/gen/java/org/wso2/carbon/apimgt/rest/api/admin/v1/dto/TokenValidationDTO.java:43-48 | the linear search, comparing `String.valueOf(b.value)` with `v`, returns a candidate whose value equals `v`; it returns `None` exactly when no candidate's value equals `v` |
| `TokenValidationType.FromValue` | components/apimgt/org.wso2.carbon.apimgt.rest.api.admin.v1/src/gen/java/org/wso2/carbon/apimgt/rest/api/admin/v1/dto/TokenValidationDTO.java:42-49 | the loop with early return computes the search over `values()`; a found constant carries `v`; the result is `null` exactly when `v` is not `"REGEX"`, `"JWT"` or `"CUSTOM"` (including `v == null`) |
| `TokenValidationType.FromValueRoundTrip` | components/apimgt/org.wso2.carbon.apimgt.rest.api.admin.v1/src/gen/java/org/wso2/carbon/apimgt/rest/api/admin/v1/dto/TokenValidationDTO.java:24-49 | `fromValue(b.value()) == b` and `fromValue(b.toString()) == b` for every constant |
| `TokenValidationType.ValueOfFindsCarrier` | components/apimgt/org.wso2.carbon.apimgt.rest.api.admin.v1/src/gen/java/org/wso2/carbon/apimgt/rest/api/admin/v1/dto/TokenValidationDTO.java:42-49 | whatever `fromValue(s)` returns carries exactly the string `s` |
| `TokenValidationType.ValueOfNoneIff` | components/apimgt/org.wso2.carbon.apimgt.rest.api.admin.v1/src/gen/java/org/wso2/carbon/apimgt/rest/api/admin/v1/dto/TokenValidationDTO.java:42-49 | `fromValue(v)` is `null` if and only if `v` is `null` or not one of the three exact, case-sensitive strings |
| `JavaLang.Wrap32` | components/apimgt/org.wso2.carbon.apimgt.rest.api.admin.v1/src/gen/java/org/wso2/carbon/apimgt/rest/api/admin/v1/dto/TokenValidationDTO.java:123 | the `int` a value wraps to differs from it by a multiple of 2^32, and values already in range are kept |
| `JavaLang.StringValueOf` | components/apimgt/org.wso2.carbon.apimgt.rest.api.admin.v1/src/gen/java/org/wso2/carbon/apimgt/rest/api/admin/v1/dto/TokenValidationDTO.java:39-44 | `String.valueOf` of a string reference gives `"null"` for `null` and the string itself otherwise |
| `JavaLang.BooleanToString` | components/apimgt/org.wso2.carbon.apimgt.rest.api.admin.v1/src/gen/java/org/wso2/carbon/apimgt/rest/api/admin/v1/dto/TokenValidationDTO.java:131 | a `Boolean` prints as `"true"` exactly when it is true and as `"false"` exactly when it is false |
| `JavaLang.ArrayHashCodeIsWrappedPolynomial` | components/apimgt/org.wso2.carbon.apimgt.rest.api.admin.v1/src/gen/java/org/wso2/carbon/apimgt/rest/api/admin/v1/dto/TokenValidationDTO.java:123 | the `Objects.hash` fold, which wraps at every step, equals the same fold in unbounded arithmetic, wrapped once at the end |
| `IndentedText.IndentLines` | components/apimgt/org.wso2.carbon.apimgt.rest.api.admin.v1/src/gen/java/org/wso2/carbon/apimgt/rest/api/admin/v1/dto/TokenValidationDTO.java:146 | `replace("\n", "\n    ")` keeps the number of line feeds, adds four characters per line feed, and leaves every line feed followed by four spaces |
| `IndentedText.UnindentIndentLines` | components/apimgt/org.wso2.carbon.apimgt.rest.api.admin.v1/src/gen/java/org/wso2/carbon/apimgt/rest/api/admin/v1/dto/TokenValidationDTO.java:146 | the indentation loses nothing: removing the four spaces after each line feed gives the original text back |
| `IndentedText.IndentLinesWithoutNewlines` | components/apimgt/org.wso2.carbon.apimgt.rest.api.admin.v1/src/gen/java/org/wso2/carbon/apimgt/rest/api/admin/v1/dto/TokenValidationDTO.java:146 | text without a line feed is left unchanged |
| `IndentedText.ToIndentedString` | components/apimgt/org.wso2.carbon.apimgt.rest.api.admin.v1/src/gen/java/org/wso2/carbon/apimgt/rest/api/admin/v1/dto/TokenValidationDTO.java:142-147 | `null` gives `"null"`; otherwise the result un-indents to `o.toString()`, is 4 characters longer per line feed, equals `o.toString()` when that has no line feed, and has every line feed followed by four spaces |
| `TokenValidation.RenderLayout` | components/apimgt/org.wso2.carbon.apimgt.rest.api.admin.v1/src/gen/java/org/wso2/carbon/apimgt/rest/api/admin/v1/dto/TokenValidationDTO.java:127-136 | the layout opens with `"class TokenValidationDTO {\n"` and ends with `"\n}"`; given indented field texts, every line strictly between the header and the closing brace starts with four spaces |
| `TokenValidation.RenderLines` | components/apimgt/org.wso2.carbon.apimgt.rest.api.admin.v1/src/gen/java/org/wso2/carbon/apimgt/rest/api/admin/v1/dto/TokenValidationDTO.java:127-136 | for single-line field texts the layout has exactly the lines header, `"    enable: …"`, `"    type: …"`, `"    value: …"`, `"}"` in that order |
| `TokenValidation.TokenValidationDTO.constructor` | components/apimgt/org.wso2.carbon.apimgt.rest.api.admin.v1/src/gen/java/org/wso2/carbon/apimgt/rest/api/admin/v1/dto/TokenValidationDTO.java:18-53 | a new DTO has `enable == true`, `type == null` and `value == null` |
| `TokenValidation.TokenValidationDTO.Enable` | components/apimgt/org.wso2.carbon.apimgt.rest.api.admin.v1/src/gen/java/org/wso2/carbon/apimgt/rest/api/admin/v1/dto/TokenValidationDTO.java:57-60 | fluent `enable(x)` sets `enable` to `x`, leaves `type` and `value` unchanged, and returns the same object |
| `TokenValidation.TokenValidationDTO.SetEnable` | components/apimgt/org.wso2.carbon.apimgt.rest.api.admin.v1/src/gen/java/org/wso2/carbon/apimgt/rest/api/admin/v1/dto/TokenValidationDTO.java:65-70 | after `setEnable(x)`, `isEnable()` returns `x` and the other two getters return what they returned before |
| `TokenValidation.TokenValidationDTO.Type` | components/apimgt/org.wso2.carbon.apimgt.rest.api.admin.v1/src/gen/java/org/wso2/carbon/apimgt/rest/api/admin/v1/dto/TokenValidationDTO.java:74-77 | fluent `type(x)` sets `type` to `x`, leaves `enable` and `value` unchanged, and returns the same object |
| `TokenValidation.TokenValidationDTO.SetType` | components/apimgt/org.wso2.carbon.apimgt.rest.api.admin.v1/src/gen/java/org/wso2/carbon/apimgt/rest/api/admin/v1/dto/TokenValidationDTO.java:82-87 | after `setType(x)`, `getType()` returns `x` and the other two getters are unchanged |
| `TokenValidation.TokenValidationDTO.Value` | components/apimgt/org.wso2.carbon.apimgt.rest.api.admin.v1/src/gen/java/org/wso2/carbon/apimgt/rest/api/admin/v1/dto/TokenValidationDTO.java:91-94 | fluent `value(x)` sets `value` to `x`, leaves `enable` and `type` unchanged, and returns the same object |
| `TokenValidation.TokenValidationDTO.SetValue` | components/apimgt/org.wso2.carbon.apimgt.rest.api.admin.v1/src/gen/java/org/wso2/carbon/apimgt/rest/api/admin/v1/dto/TokenValidationDTO.java:99-104 | after `setValue(x)`, `getValue()` returns `x` and the other two getters are unchanged |
| `TokenValidation.TokenValidationDTO.EnableText` | components/apimgt/org.wso2.carbon.apimgt.rest.api.admin.v1/src/gen/java/org/wso2/carbon/apimgt/rest/api/admin/v1/dto/TokenValidationDTO.java:131 | the `enable` field prints as `null` exactly when it is `null`; otherwise `true` prints as `"true"` and `false` as `"false"` (`Boolean.toString`) |
| `TokenValidation.TokenValidationDTO.TypeText` | components/apimgt/org.wso2.carbon.apimgt.rest.api.admin.v1/src/gen/java/org/wso2/carbon/apimgt/rest/api/admin/v1/dto/TokenValidationDTO.java:132 | the `type` field prints as `null` exactly when it is `null`; otherwise it prints as one of the three names, and `fromValue` of the printed name gives the field back |
| `TokenValidation.TokenValidationDTO.FlagAndTypeSingleLine` | components/apimgt/org.wso2.carbon.apimgt.rest.api.admin.v1/src/gen/java/org/wso2/carbon/apimgt/rest/api/admin/v1/dto/TokenValidationDTO.java:131-132 | the indented renderings of `enable` and `type` never contain a line feed |
| `TokenValidation.TokenValidationDTO.TextIndented` | components/apimgt/org.wso2.carbon.apimgt.rest.api.admin.v1/src/gen/java/org/wso2/carbon/apimgt/rest/api/admin/v1/dto/TokenValidationDTO.java:127-147 | `toString()` opens with the header and ends with `"\n}"`, and every line strictly between the header and the closing brace starts with four spaces, whatever the value prints as |
| `TokenValidation.TokenValidationDTO.TextLines` | components/apimgt/org.wso2.carbon.apimgt.rest.api.admin.v1/src/gen/java/org/wso2/carbon/apimgt/rest/api/admin/v1/dto/TokenValidationDTO.java:127-147 | when the value is `null` or prints on one line, `toString()` has exactly five lines: header, `enable`, `type`, `value`, closing brace |
| `TokenValidation.TokenValidationDTO.ToString` | components/apimgt/org.wso2.carbon.apimgt.rest.api.admin.v1/src/gen/java/org/wso2/carbon/apimgt/rest/api/admin/v1/dto/TokenValidationDTO.java:127-136 | the builder's successive appends produce exactly the layout `Text`, whose shape `TextIndented` and `TextLines` state |
| `TokenValidation.EqualsReflexive` | components/apimgt/org.wso2.carbon.apimgt.rest.api.admin.v1/src/gen/java/org/wso2/carbon/apimgt/rest/api/admin/v1/dto/TokenValidationDTO.java:108-111 | every DTO equals itself |
| `TokenValidation.EqualsRejectsNullAndOtherClasses` | components/apimgt/org.wso2.carbon.apimgt.rest.api.admin.v1/src/gen/java/org/wso2/carbon/apimgt/rest/api/admin/v1/dto/TokenValidationDTO.java:112-114 | `equals(null)` and `equals` of an object of another class are false |
| `TokenValidation.EqualsIffFieldsEqual` | components/apimgt/org.wso2.carbon.apimgt.rest.api.admin.v1/src/gen/java/org/wso2/carbon/apimgt/rest/api/admin/v1/dto/TokenValidationDTO.java:107-119 | two DTOs are equal if and only if their `enable`, `type` and `value` are pairwise equal |
| `TokenValidation.EqualsSymmetric` | components/apimgt/org.wso2.carbon.apimgt.rest.api.admin.v1/src/gen/java/org/wso2/carbon/apimgt/rest/api/admin/v1/dto/TokenValidationDTO.java:107-119 | `d.equals(e)` if and only if `e.equals(d)` |
| `TokenValidation.EqualsTransitive` | components/apimgt/org.wso2.carbon.apimgt.rest.api.admin.v1/src/gen/java/org/wso2/carbon/apimgt/rest/api/admin/v1/dto/TokenValidationDTO.java:107-119 | equality chains: `c.equals(d)` and `d.equals(e)` give `c.equals(e)` |
| `TokenValidation.EqualsImpliesSameHashCode` | components/apimgt/org.wso2.carbon.apimgt.rest.api.admin.v1/src/gen/java/org/wso2/carbon/apimgt/rest/api/admin/v1/dto/TokenValidationDTO.java:107-124 | an object equal to a DTO is a DTO with the same `hashCode`, whatever the hashes of the enum constants and of the value are |
| `TokenValidation.DefaultHashCode` | components/apimgt/org.wso2.carbon.apimgt.rest.api.admin.v1/src/gen/java/org/wso2/carbon/apimgt/rest/api/admin/v1/dto/TokenValidationDTO.java:121-124 | a DTO holding the defaults (`true`, `null`, `null`) hashes to `Objects.hash(true, null, null)` = 1212782 |

## Left out

- Jackson, JAXB and Swagger annotations (`@JsonProperty`, `@XmlEnum`, `@XmlEnumValue`, `@ApiModelProperty`, `@Scope`). The JSON and XML mapping they drive happens in external libraries.
- The `toString()`, `hashCode()` and `equals` of the arbitrary `value` object are foreign calls. The first two are function parameters; `equals` is taken as equality on the value's type.
- The identity hash of a `TypeEnum` constant (the JVM's `Object.hashCode`) is a parameter, not a number.
- Java reference identity is used only for the `this == o` shortcut of `equals`. Class identity (`getClass()`) is reduced to "a `TokenValidationDTO` or an object of another class"; subclasses are not modelled.
- `toIndentedString` throws a `NullPointerException` when a non-null `value` object's `toString()` returns `null`. The value's `toString()` is a function to `string` here, so that error path is not modelled.
- `StringBuilder` is modelled as a string that the method extends with each append. The empty builder and its first append are one step.
- The getters `IsEnable`, `GetType` and `GetValue`, and `Equals`, `HashCode` and `Text`, carry no contract of their own. The setter contracts and the lemmas above state what the source promises of them.
- `ChatMessages.jsx` (a React view with no computation) and `SubscriptionDTO` are not part of this model.
