/** Values shared by every part of the model: optional values standing for
    Java's nullable references, results standing for exceptions, the
    `Variant` value carried by data items and events, and the subscription
    state reported to item listeners. */
module Common {

  /** A Java reference that may be `null`. */
  datatype Option<+T> = None | Some(value: T)

  /** The outcome of a call that may throw: `Failure` carries the message. */
  datatype Result<+T> = Success(value: T) | Failure(error: string)

  /** The dynamically typed value of a data item or attribute. Floating point
      values are not part of this model. */
  datatype Variant =
    | Null
    | Bool(b: bool)
    | Int(i: int)
    | Long(l: int)
    | Str(s: string)

  /** The state of one item subscription as seen by its listener. */
  datatype SubscriptionState = Disconnected | Granted | Connected

  /** An attribute map of a data item value. */
  type Attributes = map<string, Variant>

  /** A data item value: the value itself, its attributes and the state of
      the subscription that delivered it. */
  datatype DataItemValue = DataItemValue(value: Variant, attributes: Attributes, state: SubscriptionState)

  /** The error part of a protocol response: an optional numeric code, an
      optional message and optional formatted details. */
  datatype ErrorInformation = ErrorInformation(code: Option<int>, message: Option<string>, details: Option<string>)

  /** Java's 32-bit and 64-bit signed integers. */
  type Int32 = x: int | -0x8000_0000 <= x < 0x8000_0000
  type Int64 = x: int | -0x8000_0000_0000_0000 <= x < 0x8000_0000_0000_0000

  /** The elements of a sequence, as a set. */
  function Elements<T>(s: seq<T>): (r: set<T>)
    ensures forall i :: 0 <= i < |s| ==> s[i] in r
    ensures forall x :: x in r ==> exists i :: 0 <= i < |s| && s[i] == x
  {
    set i | 0 <= i < |s| :: s[i]
  }

  /** Appending an element adds it to the elements. */
  lemma ElementsSnoc<T>(s: seq<T>, x: T)
    ensures Elements(s + [x]) == Elements(s) + {x}
  {
    assert (s + [x])[|s|] == x;
    assert forall i :: 0 <= i < |s| ==> (s + [x])[i] == s[i];
  }

  /** The value of an optional as a set: empty for `None`. */
  function Live<T(!new)>(o: Option<T>): (r: set<T>)
    ensures forall x :: x in r <==> o == Some(x)
  {
    if o.Some? then {o.value} else {}
  }

  /** True when no element occurs twice. */
  predicate Distinct<T(==)>(s: seq<T>) {
    forall i, j :: 0 <= i < j < |s| ==> s[i] != s[j]
  }

  /** A sequence without repetitions has as many elements as it is long. */
  lemma {:induction false} DistinctCard<T>(s: seq<T>)
    requires Distinct(s)
    ensures |Elements(s)| == |s|
  {
    if s != [] {
      var init := s[..|s| - 1];
      assert Distinct(init);
      DistinctCard(init);
      assert s == init + [s[|s| - 1]];
      ElementsSnoc(init, s[|s| - 1]);
      assert s[|s| - 1] !in Elements(init);
    }
  }

  /** The decimal text of an integer, as Java's `String.format("%s", long)`
      prints it. */
  function DecimalString(n: int): (r: string)
    ensures |r| > 0
    ensures n < 0 <==> r[0] == '-'
    decreases if n < 0 then 1 - n else n
  {
    if n < 0 then "-" + DecimalString(-n)
    else if n < 10 then [Digit(n)]
    else DecimalString(n / 10) + [Digit(n % 10)]
  }

  function Digit(d: int): (c: char)
    requires 0 <= d < 10
    ensures '0' <= c <= '9' && DigitValue(c) == d
  {
    ('0' as int + d) as char
  }

  /** The value of a decimal digit character. */
  function DigitValue(c: char): int {
    c as int - '0' as int
  }

  /** The value of a string of decimal digits. */
  function DigitsValue(s: string): int {
    if s == [] then 0 else DigitsValue(s[..|s| - 1]) * 10 + DigitValue(s[|s| - 1])
  }

  /** Reads back an optionally signed decimal text. */
  function DecimalValue(s: string): int {
    if |s| > 0 && s[0] == '-' then -DigitsValue(s[1..]) else DigitsValue(s)
  }

  lemma {:induction false} DigitsRoundTrip(n: nat)
    ensures DigitsValue(DecimalString(n)) == n
    decreases n
  {
    if n >= 10 {
      var init := DecimalString(n / 10);
      var s := init + [Digit(n % 10)];
      assert DecimalString(n) == s;
      assert s[..|s| - 1] == init;
      DigitsRoundTrip(n / 10);
    } else {
      assert DecimalString(n) == [Digit(n)];
    }
  }

  /** Reading the printed text gives the number back, so different numbers
      print differently. */
  lemma DecimalRoundTrip(n: int)
    ensures DecimalValue(DecimalString(n)) == n
  {
    if n < 0 {
      var t := DecimalString(-n);
      DigitsRoundTrip(-n);
      assert DecimalString(n) == "-" + t;
      assert ("-" + t)[1..] == t;
    } else {
      DigitsRoundTrip(n);
    }
  }
}
