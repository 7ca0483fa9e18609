/**
  A decoded JSON document as the bot sees it after `response.json()`, and the
  few Python operations the bot applies to it: subscripting by a key,
  `dict.get`, `len` and `str`.
 */
module Json {
  import opened Results

  /** A JSON value. Numbers are integers only; objects map string keys to values. */
  datatype Value =
    | Null
    | Bool(b: bool)
    | Int(i: int)
    | Str(s: string)
    | Arr(items: seq<Value>)
    | Obj(fields: map<string, Value>)

  /** The exceptions that can end a cycle of the bot. */
  datatype PyError =
    | TypeError          // subscripting, measuring or type-checking the wrong kind of value
    | KeyError           // a missing dictionary key, or a status parse_status refuses
    | UnboundLocalError  // a local read after the KeyError that should have bound it was swallowed
    | RequestError       // whatever the request to the review API raised
    | SendError          // the chat transport failed inside send_message
    | ConfigError        // a required token or chat id is absent at start-up

  /** Python's `v[key]` for a string key. */
  function Subscript(v: Value, key: string): (r: Result<Value, PyError>)
    ensures r.Ok? <==> v.Obj? && key in v.fields
    ensures r.Ok? ==> r.value == v.fields[key]
    ensures r.Err? ==> r.error == (if v.Obj? then KeyError else TypeError)
  {
    match v
    case Obj(fields) => if key in fields then Ok(fields[key]) else Err(KeyError)
    case _ => Err(TypeError)
  }

  /** Python's `d.get(key)`: a missing key reads as `None`, like a JSON null. */
  function Get(fields: map<string, Value>, key: string): (r: Value)
    ensures key in fields ==> r == fields[key]
    ensures key !in fields ==> r == Null
  {
    if key in fields then fields[key] else Null
  }

  /** Python's `len(v)`: defined for lists, strings (code points) and dicts. */
  function Len(v: Value): (r: Result<nat, PyError>)
    ensures r.Ok? <==> v.Arr? || v.Str? || v.Obj?
    ensures v.Arr? ==> r == Ok(|v.items|)
    ensures v.Str? ==> r == Ok(|v.s|)
    ensures v.Obj? ==> r == Ok(|v.fields|)
    ensures r.Err? ==> r.error == TypeError
  {
    match v
    case Arr(items) => Ok(|items|)
    case Str(s) => Ok(|s|)
    case Obj(fields) => Ok(|fields|)
    case _ => Err(TypeError)
  }

  /** The character of a decimal digit. */
  function DigitChar(d: nat): (c: char)
    requires d < 10
    ensures '0' <= c <= '9' && DigitValue(c) == d
  {
    ('0' as int + d) as char
  }

  /** The value of a decimal digit character. */
  function DigitValue(c: char): nat {
    if '0' <= c <= '9' then (c as int - '0' as int) as nat else 0
  }

  /** The number a string of decimal digits denotes, most significant first. */
  function DecimalValue(s: string): nat
    decreases |s|
  {
    if s == [] then 0 else DecimalValue(s[..|s| - 1]) * 10 + DigitValue(s[|s| - 1])
  }

  /** True when every character of `s` is a decimal digit. */
  predicate AllDigits(s: string) {
    forall k :: 0 <= k < |s| ==> '0' <= s[k] <= '9'
  }

  /** Decimal digits of a natural number, most significant first. */
  function Digits(n: nat): (r: string)
    ensures |r| > 0
    ensures AllDigits(r)
    decreases n
  {
    if n < 10 then [DigitChar(n)] else Digits(n / 10) + [DigitChar(n % 10)]
  }

  /** The digits denote the number they were made from. */
  lemma {:induction false} DigitsValue(n: nat)
    ensures DecimalValue(Digits(n)) == n
    decreases n
  {
    if n >= 10 {
      DigitsValue(n / 10);
      var d := Digits(n);
      assert d[..|d| - 1] == Digits(n / 10);
    }
  }

  /** Python's `str(i)` for an integer. */
  function Decimal(i: int): (r: string)
    ensures |r| > 0
  {
    if i < 0 then "-" + Digits(-i) else Digits(i)
  }

  /** `str(i)` is a `-` exactly for negatives, followed by the decimal digits of the magnitude. */
  lemma DecimalMeaning(i: int)
    ensures i >= 0 ==> AllDigits(Decimal(i)) && DecimalValue(Decimal(i)) == i
    ensures i < 0 ==>
      (|Decimal(i)| > 1 && Decimal(i)[0] == '-' && AllDigits(Decimal(i)[1..]) && DecimalValue(Decimal(i)[1..]) == -i)
  {
    if i < 0 {
      var digits := Digits(-i);
      DigitsValue(-i);
      assert Decimal(i)[1..] == digits;
    } else {
      DigitsValue(i);
    }
  }

  /** Python's `str(v)`, as an f-string interpolates it. */
  function Render(v: Value): (r: string)
    ensures v.Str? ==> r == v.s
    ensures v.Null? ==> r == "None"
    ensures v.Bool? ==> r == (if v.b then "True" else "False")
    ensures v.Int? ==> r == Decimal(v.i)
  {
    match v
    case Null => "None"
    case Bool(b) => if b then "True" else "False"
    case Int(i) => Decimal(i)
    case Str(s) => s
    case Arr(_) => "[...]"
    case Obj(_) => "{...}"
  }
}
