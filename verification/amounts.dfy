/**
 * The amount conversion the quote examples perform before calling
 * `create_quote` (examples/03_create_quote.py, examples/04_complete_flow.py):
 * a decimal string such as `10.50` becomes an amount in the smallest unit,
 * `{"value": "1050", "assetCode": ..., "assetScale": 2}`.
 */
module Amounts {

  import opened JsonValues
  import opened Strings

  const DefaultCurrency: string := "USD"
  /** The amount examples/03_create_quote.py falls back to. */
  const QuoteExampleDefault: string := "10.00"
  /** The amount examples/04_complete_flow.py falls back to. */
  const CompleteFlowDefault: string := "5.00"

  /**
   * An empty answer to the prompt takes the default: the result is one of the
   * two, and never empty when the default is not.
   */
  function OrDefault(answer: string, default: string): (r: string)
    ensures r == answer || r == default
    ensures default != "" ==> r != ""
  {
    if answer == "" then default else answer
  }

  /**
   * The value in the smallest unit and the asset scale: split at `.`; with
   * exactly two pieces they are joined and the scale is the length of the
   * second, otherwise the text is kept and the scale is 0.
   */
  function ConvertAmount(amount: string): (r: (string, nat))
    ensures r.1 <= |r.0|
  {
    var parts := Split(amount, '.');
    if |parts| == 2 then (parts[0] + parts[1], |parts[1]|) else (amount, 0)
  }

  lemma ConcatPair(parts: seq<string>)
    requires |parts| == 2
    ensures Concat(parts) == parts[0] + parts[1]
  {
    assert parts[1..][1..] == [];
    assert Concat(parts[1..]) == parts[1] + Concat([]);
  }

  /** With exactly one dot, the value is the text without it and the scale the number of digits after it. */
  lemma ConvertOneDot(whole: string, fraction: string)
    requires '.' !in whole && '.' !in fraction
    ensures ConvertAmount(whole + "." + fraction) == (whole + fraction, |fraction|)
  {
    assert whole + "." + fraction == whole + ['.'] + fraction;
    SplitAt(whole, fraction, '.');
    SplitWithoutSeparator(fraction, '.');
  }

  /** With exactly one dot the value is the input with the dot removed, one character shorter. */
  lemma ConvertRemovesDot(amount: string)
    requires Count(amount, '.') == 1
    ensures ConvertAmount(amount).0 == Without(amount, '.')
    ensures |ConvertAmount(amount).0| == |amount| - 1
  {
    SplitLength(amount, '.');
    SplitJoin(amount, '.');
    ConcatPair(Split(amount, '.'));
  }

  /** With no dot, or more than one, the text is kept as the value and the scale is 0. */
  lemma ConvertOtherDots(amount: string)
    requires Count(amount, '.') != 1
    ensures ConvertAmount(amount) == (amount, 0)
  {
    SplitLength(amount, '.');
  }

  /** The `send_amount` dict: the converted value, the currency as typed, and the scale. */
  function SendAmount(amountAnswer: string, currencyAnswer: string, defaultAmount: string)
    : (amount: map<string, Json>)
    ensures amount.Keys == {"value", "assetCode", "assetScale"}
    ensures amount["assetCode"] == JStr(OrDefault(currencyAnswer, DefaultCurrency))
    ensures amount["value"] == JStr(ConvertAmount(OrDefault(amountAnswer, defaultAmount)).0)
    ensures amount["assetScale"] == JNum(ConvertAmount(OrDefault(amountAnswer, defaultAmount)).1)
  {
    var (value, scale) := ConvertAmount(OrDefault(amountAnswer, defaultAmount));
    map["value" := JStr(value), "assetCode" := JStr(OrDefault(currencyAnswer, DefaultCurrency)),
        "assetScale" := JNum(scale)]
  }

  /** Empty answers in examples/03_create_quote.py give 1000 cents of USD. */
  lemma QuoteExampleDefaults()
    ensures SendAmount("", "", QuoteExampleDefault)
         == map["value" := JStr("1000"), "assetCode" := JStr("USD"), "assetScale" := JNum(2)]
  {
    assert "10" + "." + "00" == QuoteExampleDefault;
    assert '.' !in "10" && '.' !in "00" && "10" + "00" == "1000";
    ConvertOneDot("10", "00");
    assert ConvertAmount(QuoteExampleDefault) == ("1000", 2);
  }

  /** Empty answers in examples/04_complete_flow.py give 500 cents of USD. */
  lemma CompleteFlowDefaults()
    ensures SendAmount("", "", CompleteFlowDefault)
         == map["value" := JStr("500"), "assetCode" := JStr("USD"), "assetScale" := JNum(2)]
  {
    assert "5" + "." + "00" == CompleteFlowDefault;
    assert '.' !in "5" && '.' !in "00" && "5" + "00" == "500";
    ConvertOneDot("5", "00");
    assert ConvertAmount(CompleteFlowDefault) == ("500", 2);
  }
}
