/**
 * The value a form field keeps. A monetary field strips every character that is not a
 * digit or a decimal point from what is typed and shows the rest behind a dollar sign; a
 * plain field keeps what is typed. The field's starting value comes from its default,
 * which may be a string or a number.
 */
module TextInput {

  /** The characters the monetary filter keeps: the pattern `[0-9.]`. */
  predicate IsMoneyChar(c: char)
  {
    '0' <= c <= '9' || c == '.'
  }

  /** `text.replace(/[^0-9.]/g, '')`: the digits and decimal points of `text`, in order. */
  function MoneyFilter(text: string): (r: string)
    ensures |r| <= |text|
    ensures forall k :: 0 <= k < |r| ==> IsMoneyChar(r[k])
  {
    if |text| == 0 then []
    else (if IsMoneyChar(text[0]) then [text[0]] else []) + MoneyFilter(text[1..])
  }

  /** Filtering a concatenation filters each part: the kept characters stay in their order. */
  lemma {:induction false} MoneyFilterAppend(a: string, b: string)
    ensures MoneyFilter(a + b) == MoneyFilter(a) + MoneyFilter(b)
  {
    if |a| > 0 {
      assert (a + b)[1..] == a[1..] + b;
      MoneyFilterAppend(a[1..], b);
    } else {
      assert a + b == b;
    }
  }

  /** A text made only of digits and decimal points passes the filter unchanged. */
  lemma {:induction false} MoneyFilterKeepsMoney(text: string)
    requires forall k :: 0 <= k < |text| ==> IsMoneyChar(text[k])
    ensures MoneyFilter(text) == text
  {
    if |text| > 0 {
      MoneyFilterKeepsMoney(text[1..]);
    }
  }

  /** Filtering twice is filtering once. */
  lemma MoneyFilterIdempotent(text: string)
    ensures MoneyFilter(MoneyFilter(text)) == MoneyFilter(text)
  {
    MoneyFilterKeepsMoney(MoneyFilter(text));
  }

  /**
   * The filter keeps exactly the digits and decimal points: a character occurs in the
   * result as often as it occurs in the text when it is one, and never otherwise.
   */
  lemma {:induction false} MoneyFilterCounts(text: string, c: char)
    ensures multiset(MoneyFilter(text))[c] == if IsMoneyChar(c) then multiset(text)[c] else 0
  {
    if |text| > 0 {
      MoneyFilterCounts(text[1..], c);
      assert text == [text[0]] + text[1..];
    }
  }

  /** The filtered text is empty exactly when the text has no digit and no decimal point. */
  lemma {:induction false} MoneyFilterEmpty(text: string)
    ensures MoneyFilter(text) == [] <==> forall k :: 0 <= k < |text| ==> !IsMoneyChar(text[k])
  {
    if |text| > 0 {
      MoneyFilterEmpty(text[1..]);
      assert forall k :: 1 <= k < |text| ==> text[k] == text[1..][k - 1];
    }
  }

  /**
   * `handleChange`: a monetary field stores `""` when nothing of the typed text survives the
   * filter and `"$"` followed by the filtered text otherwise; a plain field stores the typed
   * text as it is.
   */
  function HandleChange(monetary: bool, inputValue: string): (value: string)
    ensures monetary ==> (value == [] <==> forall k :: 0 <= k < |inputValue| ==> !IsMoneyChar(inputValue[k]))
    ensures monetary && value != [] ==> value[0] == '$' && value[1..] == MoneyFilter(inputValue)
    ensures !monetary ==> value == inputValue
  {
    MoneyFilterEmpty(inputValue);
    if monetary then
      var numericValue := MoneyFilter(inputValue);
      if numericValue != [] then "$" + numericValue else ""
    else inputValue
  }

  /**
   * Typing nothing new into a monetary field keeps its value: the dollar sign the field shows
   * is dropped again by the filter, so handling the field's own value gives that value back.
   */
  lemma HandleChangeStable(inputValue: string)
    ensures HandleChange(true, HandleChange(true, inputValue)) == HandleChange(true, inputValue)
  {
    var numericValue := MoneyFilter(inputValue);
    if numericValue != [] {
      MoneyFilterAppend("$", numericValue);
      MoneyFilterIdempotent(inputValue);
      assert MoneyFilter("$") == [];
    }
  }

  /** The `defaultValue` of the field: a string or a number. */
  datatype DefaultValue = Text(text: string) | Number(number: real)

  /**
   * JavaScript truthiness of the default: the empty string and zero are false, every other
   * string and number is true.
   */
  predicate Truthy(d: DefaultValue)
  {
    match d
    case Text(text) => text != []
    case Number(number) => number != 0.0
  }

  /** `String(defaultValue)`, with the number-to-text conversion of the language as a parameter. */
  function Shown(d: DefaultValue, numberText: real -> string): string
  {
    match d
    case Text(text) => text
    case Number(number) => numberText(number)
  }

  /**
   * The starting value, set when the field is created and again whenever the default or the
   * monetary flag changes: the shown default behind a dollar sign when the field is monetary
   * and the default is truthy, the shown default alone otherwise.
   */
  function InitialValue(monetary: bool, defaultValue: DefaultValue, numberText: real -> string): (value: string)
    ensures monetary && Truthy(defaultValue) ==>
      |value| > 0 && value[0] == '$' && value[1..] == Shown(defaultValue, numberText)
    ensures !(monetary && Truthy(defaultValue)) ==> value == Shown(defaultValue, numberText)
  {
    if monetary && Truthy(defaultValue) then "$" + Shown(defaultValue, numberText)
    else Shown(defaultValue, numberText)
  }
}
