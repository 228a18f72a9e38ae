/**
 * `TokenValidationDTO`, the admin REST API's description of how a token is
 * validated: whether validation is enabled, which kind of validation
 * (`TypeEnum`) and an opaque configuration value. The three fields are
 * nullable and updated in place through fluent and plain setters; equality
 * and hashing are field-wise; `toString` prints a fixed multi-line layout.
 *
 * The configuration value is a Java `Object` of unknown class, written here
 * as the type parameter `V`; its `toString` and `hashCode` are passed in as
 * functions, and its `equals` is taken to be equality on `V`.
 */
module TokenValidation {
  import opened Wrappers
  import opened JavaLang
  import opened TokenValidationType
  import opened IndentedText

  /** The argument of `equals(Object o)`: `null`, an object of another class, or a DTO. */
  datatype JavaObject<V> = NullRef | OtherClass | Dto(dto: TokenValidationDTO<V>)

  /** The first line `toString` emits, without its line feed. */
  const HeaderLine: string := "class TokenValidationDTO {"

  /** The header `toString` appends first. */
  const Header: string := HeaderLine + "\n"

  /**
   * The text `toString` builds from the indented renderings of the three
   * fields: the header, one labelled line per field in declaration order,
   * and the closing brace.
   */
  function Render(enableText: string, typeText: string, valueText: string): string
  {
    Header
      + "    enable: " + enableText + "\n"
      + "    type: " + typeText + "\n"
      + "    value: " + valueText + "\n"
      + "}"
  }

  /** The appends of `Render`, regrouped by line. */
  lemma Regroup(h: string, a: string, e: string, b: string, t: string, c: string, v: string)
    ensures h + a + e + "\n" + b + t + "\n" + c + v + "\n" + "}"
         == h + ((a + e) + "\n" + (b + t) + "\n" + (c + v)) + "\n" + "}"
    ensures h + a + e + "\n" + b + t + "\n" + c + v + "\n" + "}"
         == h + ((a + e) + "\n" + ((b + t) + "\n" + ((c + v) + "\n" + "}")))
  {
  }

  /** A header, a body, then a line feed and a closing brace. */
  lemma Frame(h: string, y: string)
    ensures var s := h + y + "\n" + "}";
      |s| == |h| + |y| + 2 && s[..|h|] == h && s[|s| - 2..] == "\n}" && s[..|s| - 2] == h + y
  {
  }

  /** The output opens with the header and ends with a line feed and the closing brace. */
  lemma RenderFrame(enableText: string, typeText: string, valueText: string)
    ensures var s := Render(enableText, typeText, valueText);
      |s| >= |Header| + 2 && s[..|Header|] == Header && s[|s| - 2..] == "\n}"
  {
  }

  /** A labelled field line is indented, given an indented rendering. */
  lemma FieldLineIndented(caption: string, text: string)
    requires StartsIndented(caption) && '\n' !in caption && NewlinesIndented(text)
    ensures NewlinesIndented(caption + text) && StartsIndented(caption + text)
  {
  }

  /**
   * When the renderings are indented line by line, every line strictly
   * between the header and the closing brace starts with four spaces.
   */
  lemma RenderIndented(enableText: string, typeText: string, valueText: string)
    requires NewlinesIndented(enableText) && NewlinesIndented(typeText) && NewlinesIndented(valueText)
    ensures var s := Render(enableText, typeText, valueText); NewlinesIndented(s[..|s| - 2])
  {
    var l1, l2, l3 := "    enable: " + enableText, "    type: " + typeText, "    value: " + valueText;
    var y := l1 + "\n" + l2 + "\n" + l3;
    Regroup(Header, "    enable: ", enableText, "    type: ", typeText, "    value: ", valueText);
    Frame(Header, y);
    LabelsSingleLine();
    FieldLineIndented("    enable: ", enableText);
    FieldLineIndented("    type: ", typeText);
    FieldLineIndented("    value: ", valueText);
    JoinIndentedLine(l1, l2);
    JoinIndentedLine(l1 + "\n" + l2, l3);
    SingleLineIndented(HeaderLine);
    JoinIndentedLine(HeaderLine, y);
  }

  /**
   * The output opens with the header and ends with a line feed and the
   * closing brace, and when the renderings are indented line by line, every
   * line strictly between the header and the brace starts with four spaces.
   */
  lemma RenderLayout(enableText: string, typeText: string, valueText: string)
    requires NewlinesIndented(enableText) && NewlinesIndented(typeText) && NewlinesIndented(valueText)
    ensures var s := Render(enableText, typeText, valueText);
      |s| >= |Header| + 2 && s[..|Header|] == Header && s[|s| - 2..] == "\n}" &&
      NewlinesIndented(s[..|s| - 2])
  {
    RenderFrame(enableText, typeText, valueText);
    RenderIndented(enableText, typeText, valueText);
  }

  /** Single-line renderings give exactly five lines: header, three labelled fields, brace. */
  lemma RenderLines(enableText: string, typeText: string, valueText: string)
    requires '\n' !in enableText && '\n' !in typeText && '\n' !in valueText
    ensures Lines(Render(enableText, typeText, valueText))
         == [HeaderLine,
             "    enable: " + enableText,
             "    type: " + typeText,
             "    value: " + valueText,
             "}"]
  {
    var l1, l2, l3 := "    enable: " + enableText, "    type: " + typeText, "    value: " + valueText;
    Regroup(Header, "    enable: ", enableText, "    type: ", typeText, "    value: ", valueText);
    LabelsSingleLine();
    LinesOfLine("}");
    LinesJoin(l3, "}");
    LinesJoin(l2, l3 + "\n" + "}");
    LinesJoin(l1, l2 + "\n" + (l3 + "\n" + "}"));
    LinesJoin(HeaderLine, l1 + "\n" + (l2 + "\n" + (l3 + "\n" + "}")));
  }

  /** The fixed parts of the layout: no line feeds, and the labels open with four spaces. */
  lemma LabelsSingleLine()
    ensures '\n' !in HeaderLine && '\n' !in "}"
    ensures '\n' !in "    enable: " && '\n' !in "    type: " && '\n' !in "    value: "
    ensures StartsIndented("    enable: ") && StartsIndented("    type: ") && StartsIndented("    value: ")
  {
  }

  class TokenValidationDTO<V(==)> {
    var enable: Option<bool>
    var tokenType: Option<TypeEnum>
    var value: Option<V>

    /** A new DTO is enabled, with no type and no value. */
    constructor ()
      ensures enable == Some(true) && tokenType == None && value == None
    {
      enable := Some(true);
      tokenType := None;
      value := None;
    }

    /** Fluent `enable(enable)`: sets the flag and returns this same object. */
    method Enable(enable: Option<bool>) returns (self: TokenValidationDTO<V>)
      modifies this
      ensures self == this
      ensures this.enable == enable
      ensures tokenType == old(tokenType) && value == old(value)
    {
      this.enable := enable;
      return this;
    }

    /** `isEnable()`. */
    function IsEnable(): Option<bool>
      reads this
    {
      enable
    }

    /** `setEnable(enable)`: a later `isEnable()` reads back `enable`. */
    method SetEnable(enable: Option<bool>)
      modifies this
      ensures IsEnable() == enable
      ensures GetType() == old(GetType()) && GetValue() == old(GetValue())
    {
      this.enable := enable;
    }

    /** Fluent `type(type)`: sets the kind and returns this same object. */
    method Type(tokenType: Option<TypeEnum>) returns (self: TokenValidationDTO<V>)
      modifies this
      ensures self == this
      ensures this.tokenType == tokenType
      ensures enable == old(enable) && value == old(value)
    {
      this.tokenType := tokenType;
      return this;
    }

    /** `getType()`. */
    function GetType(): Option<TypeEnum>
      reads this
    {
      tokenType
    }

    /** `setType(type)`: a later `getType()` reads back `tokenType`. */
    method SetType(tokenType: Option<TypeEnum>)
      modifies this
      ensures GetType() == tokenType
      ensures IsEnable() == old(IsEnable()) && GetValue() == old(GetValue())
    {
      this.tokenType := tokenType;
    }

    /** Fluent `value(value)`: sets the value and returns this same object. */
    method Value(value: Option<V>) returns (self: TokenValidationDTO<V>)
      modifies this
      ensures self == this
      ensures this.value == value
      ensures enable == old(enable) && tokenType == old(tokenType)
    {
      this.value := value;
      return this;
    }

    /** `getValue()`. */
    function GetValue(): Option<V>
      reads this
    {
      value
    }

    /** `setValue(value)`: a later `getValue()` reads back `value`. */
    method SetValue(value: Option<V>)
      modifies this
      ensures GetValue() == value
      ensures IsEnable() == old(IsEnable()) && GetType() == old(GetType())
    {
      this.value := value;
    }

    /**
     * `equals(o)`: true for this very object; false for `null` and for an
     * object of another class; otherwise field by field.
     */
    function Equals(o: JavaObject<V>): bool
      reads this, if o.Dto? then {o.dto} else {}
    {
      if o.Dto? && o.dto == this then true
      else if o.NullRef? || o.OtherClass? then false
      else enable == o.dto.enable && tokenType == o.dto.tokenType && value == o.dto.value
    }

    /**
     * `hashCode()`: `Objects.hash(enable, type, value)`. The hash of a
     * `TypeEnum` constant (its identity hash) and of the value are supplied.
     */
    function HashCode(typeHash: TypeEnum -> Int32, valueHash: V -> Int32): Int32
      reads this
    {
      ArrayHashCode([HashOrZero(enable, BooleanHashCode),
                     HashOrZero(tokenType, typeHash),
                     HashOrZero(value, valueHash)])
    }

    /** The `toString()` of the `enable` field, `None` when it is `null`. */
    function EnableText(): (r: Option<string>)
      reads this
      ensures r.None? <==> enable.None?
      ensures r.Some? ==> r.value in {"true", "false"}
      ensures enable.Some? ==> r == Some(BooleanToString(enable.value))
    {
      match enable
      case None => None
      case Some(b) => Some(BooleanToString(b))
    }

    /** The `toString()` of the `type` field, `None` when it is `null`. */
    function TypeText(): (r: Option<string>)
      reads this
      ensures r.None? <==> tokenType.None?
      ensures r.Some? ==> TokenValidationType.ValueOf(r) == tokenType
      ensures r.Some? ==> r.value in {"REGEX", "JWT", "CUSTOM"}
    {
      match tokenType
      case None => None
      case Some(t) =>
        TokenValidationType.FromValueRoundTrip(t);
        Some(TokenValidationType.ToString(t))
    }

    /** The `toString()` of the `value` field, `None` when it is `null`. */
    function ValueText(valueToString: V -> string): Option<string>
      reads this
    {
      match value
      case None => None
      case Some(x) => Some(valueToString(x))
    }

    /** The renderings of `enable` and `type` are single lines. */
    lemma FlagAndTypeSingleLine()
      ensures '\n' !in ToIndentedString(EnableText())
      ensures '\n' !in ToIndentedString(TypeText())
    {
      var e, t := EnableText(), TypeText();
      assert '\n' !in "null" && '\n' !in "true" && '\n' !in "false";
      assert '\n' !in "REGEX" && '\n' !in "JWT" && '\n' !in "CUSTOM";
    }

    /** What `toString()` produces. */
    function Text(valueToString: V -> string): string
      reads this
    {
      Render(ToIndentedString(EnableText()), ToIndentedString(TypeText()),
             ToIndentedString(ValueText(valueToString)))
    }

    /**
     * The frame of `toString()`: the header first, the closing brace last,
     * and every line strictly between the header and the brace starting with
     * four spaces.
     */
    lemma TextIndented(valueToString: V -> string)
      ensures var s := Text(valueToString);
        |s| >= |Header| + 2 && s[..|Header|] == Header && s[|s| - 2..] == "\n}" &&
        NewlinesIndented(s[..|s| - 2])
    {
      var enableText := ToIndentedString(EnableText());
      var typeText := ToIndentedString(TypeText());
      var valueText := ToIndentedString(ValueText(valueToString));
      RenderLayout(enableText, typeText, valueText);
    }

    /**
     * When the value prints on one line (or is `null`), `toString()` has
     * exactly five lines: the header, the labelled `enable`, `type` and
     * `value` lines in that order, and the closing brace.
     */
    lemma TextLines(valueToString: V -> string)
      requires ValueText(valueToString).None? || '\n' !in ValueText(valueToString).value
      ensures Lines(Text(valueToString))
          == [HeaderLine,
              "    enable: " + ToIndentedString(EnableText()),
              "    type: " + ToIndentedString(TypeText()),
              "    value: " + ToIndentedString(ValueText(valueToString)),
              "}"]
    {
      FlagAndTypeSingleLine();
      RenderLines(ToIndentedString(EnableText()), ToIndentedString(TypeText()),
                  ToIndentedString(ValueText(valueToString)));
    }

    /**
     * `toString()`: a builder that receives the header, the three labelled
     * fields and the closing brace, in that order.
     */
    method ToString(valueToString: V -> string) returns (s: string)
      ensures s == Text(valueToString)
    {
      var sb := Header;  // the builder after its first append
      sb := sb + "    enable: " + ToIndentedString(EnableText()) + "\n";
      sb := sb + "    type: " + ToIndentedString(TypeText()) + "\n";
      sb := sb + "    value: " + ToIndentedString(ValueText(valueToString)) + "\n";
      sb := sb + "}";
      s := sb;
    }
  }

  /** `equals` is reflexive. */
  lemma EqualsReflexive<V>(d: TokenValidationDTO<V>)
    ensures d.Equals(Dto(d))
  {
  }

  /** `equals(null)` and `equals` of an object of another class are false. */
  lemma EqualsRejectsNullAndOtherClasses<V>(d: TokenValidationDTO<V>)
    ensures !d.Equals(NullRef) && !d.Equals(OtherClass)
  {
  }

  /** Two DTOs are equal exactly when their three fields are pairwise equal. */
  lemma EqualsIffFieldsEqual<V>(d: TokenValidationDTO<V>, e: TokenValidationDTO<V>)
    ensures d.Equals(Dto(e)) <==>
      d.IsEnable() == e.IsEnable() && d.GetType() == e.GetType() && d.GetValue() == e.GetValue()
  {
  }

  /** `equals` is symmetric. */
  lemma EqualsSymmetric<V>(d: TokenValidationDTO<V>, e: TokenValidationDTO<V>)
    ensures d.Equals(Dto(e)) <==> e.Equals(Dto(d))
  {
  }

  /** `equals` is transitive. */
  lemma EqualsTransitive<V>(c: TokenValidationDTO<V>, d: TokenValidationDTO<V>, e: TokenValidationDTO<V>)
    requires c.Equals(Dto(d)) && d.Equals(Dto(e))
    ensures c.Equals(Dto(e))
  {
  }

  /** Equal objects have equal hash codes, whatever the hashes of the enum constants and values. */
  lemma EqualsImpliesSameHashCode<V>(d: TokenValidationDTO<V>, o: JavaObject<V>,
                                         typeHash: TypeEnum -> Int32, valueHash: V -> Int32)
    requires d.Equals(o)
    ensures o.Dto? && d.HashCode(typeHash, valueHash) == o.dto.HashCode(typeHash, valueHash)
  {
  }

  /** A new DTO's hash is `Objects.hash(true, null, null)` = 31 * 31 * (31 + 1231). */
  lemma DefaultHashCode<V>(d: TokenValidationDTO<V>, typeHash: TypeEnum -> Int32, valueHash: V -> Int32)
    requires d.IsEnable() == Some(true) && d.GetType() == None && d.GetValue() == None
    ensures d.HashCode(typeHash, valueHash) == 1212782
  {
    var hs: seq<Int32> := [1231, 0, 0];
    assert hs[..2][..1] == [1231] && [1231][..0] == [];
    assert hs[..2] == [1231, 0];
    assert ArrayHashCode([1231]) == 1262;
    assert ArrayHashCode([1231, 0]) == 39122;
    assert ArrayHashCode(hs) == 1212782;
  }
}
