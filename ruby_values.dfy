/** Ruby values as the two adapters see them: the entries of an options hash,
    the fields of a nested address or line-item hash, and the results of the
    formatting collaborators.  Symbol keys are written as strings. */
module RubyValues {

  datatype Option<T> = None | Some(value: T) {
    function GetOr(default: T): T {
      match this
      case Some(v) => v
      case None => default
    }
  }

  /** A Ruby object: nil, true/false, a String, an Integer, an Array or a Hash. */
  datatype Value =
    | Nil
    | Bool(b: bool)
    | Str(s: string)
    | Num(n: int)
    | ListV(items: seq<Value>)
    | HashV(fields: map<string, Value>)

  /** An options hash keyed by symbol name. */
  type Options = map<string, Value>

  /** Ruby truthiness: only nil and false are false. */
  predicate Truthy(v: Value) {
    !(v.Nil? || v == Bool(false))
  }

  /** `a || b` on Ruby objects. */
  function Or(a: Value, b: Value): (r: Value)
    ensures Truthy(a) ==> r == a
    ensures !Truthy(a) ==> r == b
  {
    if Truthy(a) then a else b
  }

  /** The characters matched by `\s` in a Ruby regular expression. */
  predicate IsRegexSpace(c: char) {
    c == ' ' || c == '\t' || c == '\n' || c == '\r' || c == '\U{000C}' || c == '\U{000B}'
  }

  /** ActiveSupport's `blank?`: nil, false, a String with no non-space
      character, or an empty Array or Hash.  Numbers and true are never blank. */
  predicate Blank(v: Value) {
    match v
    case Nil => true
    case Bool(b) => !b
    case Str(s) => forall i :: 0 <= i < |s| ==> IsRegexSpace(s[i])
    case Num(_) => false
    case ListV(xs) => |xs| == 0
    case HashV(m) => |m| == 0
  }

  /** `options[key]`: nil when the key is absent. */
  function Get(options: Options, key: string): (r: Value)
    ensures key !in options ==> r == Nil
    ensures key in options ==> r == options[key]
  {
    if key in options then options[key] else Nil
  }

  /** `v[key]` on a nested hash (an address, a line item).  A value that is not
      a Hash answers nil here. */
  function Field(v: Value, key: string): Value {
    if v.HashV? && key in v.fields then v.fields[key] else Nil
  }

  /** The decimal digits of a natural number, most significant first. */
  function Digits(n: nat): (r: string)
    ensures |r| >= 1
    ensures forall i :: 0 <= i < |r| ==> '0' <= r[i] <= '9'
    decreases n
  {
    if n < 10 then [DigitChar(n)] else Digits(n / 10) + [DigitChar(n % 10)]
  }

  function DigitChar(d: nat): (c: char)
    requires d < 10
    ensures '0' <= c <= '9'
    ensures (c - '0') as nat == d
  {
    ('0' as int + d) as char
  }

  /** The value of a decimal digit character. */
  function DigitValue(c: char): (d: nat)
    requires '0' <= c <= '9'
    ensures d < 10 && DigitChar(d) == c
    ensures forall e :: 0 <= e < 10 && DigitChar(e) == c ==> d == e
  {
    (c - '0') as nat
  }

  /** The number a string of decimal digits denotes, most significant first
      (the empty string denotes 0). */
  function NumberOf(s: string): nat
    requires forall i :: 0 <= i < |s| ==> '0' <= s[i] <= '9'
    decreases |s|
  {
    if s == [] then 0 else NumberOf(s[..|s| - 1]) * 10 + DigitValue(s[|s| - 1])
  }

  /** `Digits` writes exactly the number it is given. */
  lemma {:induction false} DigitsRoundTrip(n: nat)
    ensures NumberOf(Digits(n)) == n
    decreases n
  {
    var s := Digits(n);
    if n < 10 {
      assert s[..0] == [];
    } else {
      DigitsRoundTrip(n / 10);
      assert s == Digits(n / 10) + [DigitChar(n % 10)];
      assert s[..|s| - 1] == Digits(n / 10);
      assert DigitValue(s[|s| - 1]) == n % 10;
    }
  }

  /** Leading zeros do not change the number. */
  lemma {:induction false} NumberOfLeadingZero(s: string)
    requires forall i :: 0 <= i < |s| ==> '0' <= s[i] <= '9'
    ensures NumberOf("0" + s) == NumberOf(s)
    decreases |s|
  {
    if s == [] {
      assert ("0" + s)[..0] == [];
    } else {
      var t := "0" + s;
      assert t[..|t| - 1] == "0" + s[..|s| - 1];
      NumberOfLeadingZero(s[..|s| - 1]);
    }
  }

  /** `Integer#to_s`. */
  function IntToS(n: int): (r: string)
    ensures n >= 0 ==> r == Digits(n)
    ensures n < 0 ==> r == "-" + Digits(-n)
  {
    if n < 0 then "-" + Digits(-n) else Digits(n)
  }

  /** `to_s` on the scalar kinds: nil prints as the empty string. */
  function ToS(v: Value): string {
    match v
    case Nil => ""
    case Bool(b) => if b then "true" else "false"
    case Str(s) => s
    case Num(n) => IntToS(n)
    case ListV(_) => ""
    case HashV(_) => ""
  }
}
