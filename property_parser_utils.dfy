/**
 * Typed getters over an already loaded `java.util.Properties`, modelled as a
 * map from keys to values. Each getter falls back to a default the same way
 * the Java does: it looks up `getProperty(key, toString(default))` and parses
 * the result, so a missing key goes through a print-then-parse round trip.
 */
module PropertyParserUtils {
  import opened JavaLang

  type Properties = map<string, string>

  /** `Properties.getProperty(key, default)` */
  function GetProperty(properties: Properties, property: string, default: string): (r: string)
    ensures property in properties ==> r == properties[property]
    ensures property !in properties ==> r == default
  {
    if property in properties then properties[property] else default
  }

  /** `getStringProperty`: the value, or `IllegalArgumentException` when the
      key is missing. */
  function GetStringProperty(property: string, properties: Properties): (r: Outcome<string>)
    ensures r.Returned? <==> property in properties
    ensures r.Returned? ==> r.value == properties[property]
    ensures r.Threw? ==> r.exception == IllegalArgument("Missing property: " + property)
  {
    if property !in properties then Threw(IllegalArgument("Missing property: " + property))
    else Returned(properties[property])
  }

  /** `getIntegerProperty`: the value, trimmed and parsed as an `int`; the
      default when the key is missing or the value does not parse. */
  function GetIntegerProperty(property: string, defaultValue: Int, properties: Properties): (r: Int)
    ensures property !in properties ==> r == defaultValue
    ensures property in properties ==>
              var parsed := ParseDecimal(Trim(properties[property]), INT_MIN, INT_MAX);
              && (parsed.Some? ==> r == parsed.value)
              && (parsed.None? ==> r == defaultValue)
  {
    TrimDecimalString(defaultValue);
    ParseToDecimalString(defaultValue, INT_MIN, INT_MAX);
    match ParseInt(Trim(GetProperty(properties, property, ToDecimalString(defaultValue))))
    case Some(v) => v
    case None => defaultValue
  }

  /** `getLongProperty`: the value, trimmed and parsed as a `long`; the
      default when the key is missing or the value does not parse. */
  function GetLongProperty(property: string, defaultValue: Long, properties: Properties): (r: Long)
    ensures property !in properties ==> r == defaultValue
    ensures property in properties ==>
              var parsed := ParseDecimal(Trim(properties[property]), LONG_MIN, LONG_MAX);
              && (parsed.Some? ==> r == parsed.value)
              && (parsed.None? ==> r == defaultValue)
  {
    TrimDecimalString(defaultValue);
    ParseToDecimalString(defaultValue, LONG_MIN, LONG_MAX);
    match ParseLong(Trim(GetProperty(properties, property, ToDecimalString(defaultValue))))
    case Some(v) => v
    case None => defaultValue
  }

  /** `Boolean.toString` */
  function BooleanToString(b: bool): (s: string)
    ensures EqualsIgnoreCase(s, "true") <==> b
  {
    if b then "true" else "false"
  }

  /** `parseBoolean`, through `Boolean.parseBoolean`: the default when the
      key is missing; otherwise true exactly when the untrimmed value equals
      "true" ignoring case. */
  function ParseBoolean(property: string, defaultValue: bool, properties: Properties): (r: bool)
    ensures property !in properties ==> r == defaultValue
    ensures property in properties ==> r == EqualsIgnoreCase(properties[property], "true")
  {
    assert ToUpperAscii('t') == 'T';
    EqualsIgnoreCase(GetProperty(properties, property, BooleanToString(defaultValue)), "true")
  }

  /** A printed number has no surrounding whitespace for `trim` to remove. */
  lemma TrimDecimalString(n: int)
    ensures Trim(ToDecimalString(n)) == ToDecimalString(n)
  {
    var s := ToDecimalString(n);
    assert IsDigit(s[|s| - 1]);
    TrimUntrimmed(s);
  }

  /** Examples: " 8080 " is trimmed and parsed; "80x" falls back to the
      default. */
  lemma IntegerExamples(defaultValue: Int)
    ensures GetIntegerProperty("port", defaultValue, map["port" := " 8080 "]) == 8080
    ensures GetIntegerProperty("port", defaultValue, map["port" := "80x"]) == defaultValue
  {
    var m1 := map["port" := " 8080 "];
    var m2 := map["port" := "80x"];
    assert GetProperty(m1, "port", ToDecimalString(defaultValue)) == " 8080 ";
    assert GetProperty(m2, "port", ToDecimalString(defaultValue)) == "80x";
    ParseIntExamples();
  }

  lemma ParseIntExamples()
    ensures ParseInt(Trim(" 8080 ")) == Some(8080)
    ensures ParseInt(Trim("80x")).None?
  {
    Trim8080();
    Parse8080();
    Trim80x();
    Parse80x();
  }

  lemma Parse80x()
    ensures ParseDecimal("80x", INT_MIN, INT_MAX).None?
  {
    assert !AllDigits("80x") by {
      assert !IsDigit("80x"[2]);
    }
  }

  lemma Trim8080()
    ensures Trim(" 8080 ") == "8080"
  {
    assert TrimStart("8080 ") == "8080 ";
    assert TrimStart(" 8080 ") == "8080 " by {
      assert " 8080 "[1..] == "8080 ";
    }
    assert TrimEnd("8080") == "8080";
    assert TrimEnd("8080 ") == "8080" by {
      assert "8080 "[..4] == "8080";
    }
  }

  lemma Trim80x()
    ensures Trim("80x") == "80x"
  {
    TrimUntrimmed("80x");
  }

  lemma Parse8080()
    ensures ParseDecimal("8080", INT_MIN, INT_MAX) == Some(8080)
  {
    assert "8080"[..3] == "808" && "808"[..2] == "80" && "80"[..1] == "8";
    assert DigitsValue("8") == 8;
    assert DigitsValue("80") == 80;
    assert DigitsValue("808") == 808;
    assert DigitsValue("8080") == 8080;
  }

  /** Examples: "TRUE" reads as true; "yes" and " true" read as false, not
      as the default, because the value is not trimmed. */
  lemma BooleanExamples(property: string, defaultValue: bool, properties: Properties)
    requires property in properties
    ensures properties[property] == "TRUE" ==> ParseBoolean(property, defaultValue, properties)
    ensures properties[property] == "yes" ==> !ParseBoolean(property, defaultValue, properties)
    ensures properties[property] == " true" ==> !ParseBoolean(property, defaultValue, properties)
  {
    if properties[property] == " true" {
      assert ToUpperAscii(' ') != ToUpperAscii('t');
    }
  }
}
