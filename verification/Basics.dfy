/** Results, errors, 64-bit integers and the two string helpers the services use. */
module Basics {

  datatype Option<+T> = None | Some(value: T)

  /** Every error the sales service and its stores return. */
  datatype Error =
    | InvalidScope | InvalidCommand | InvalidLine | InvalidSaleKind | PaymentMethodRequired
    | NotFound | CustomerInactive | GeneralCustomerCredit | CustomerCreditDisabled
    | CreditLimitExceeded | ProductInactive | InsufficientStock | FiscalPeriodClosed
    | PostingConfigMissing | IdempotencyConflict | AlreadyReversed | MoneyOverflow | Forbidden
    | UnbalancedJournal | NoCommittedResult | InvalidCompletion | Duplicate | IdsExhausted
    | Cancelled

  datatype Result<+T> = Ok(value: T) | Err(error: Error) {
    predicate IsFailure() {
      Err?
    }
    function PropagateFailure<U>(): Result<U>
      requires Err?
    {
      Err(error)
    }
    function Extract(): T
      requires Ok?
    {
      value
    }
  }

  /** The outcome of a check, for use with `:-`. */
  datatype Check = Pass | Fail(error: Error) {
    predicate IsFailure() {
      Fail?
    }
    function PropagateFailure<U>(): Result<U>
      requires Fail?
    {
      Err(error)
    }
  }

  function Need(condition: bool, error: Error): Check {
    if condition then Pass else Fail(error)
  }

  const MIN64: int := -0x8000_0000_0000_0000
  const MAX64: int := 0x7fff_ffff_ffff_ffff
  const TWO64: int := 0x1_0000_0000_0000_0000

  type int64 = x: int | MIN64 <= x <= MAX64

  /** What Go's int64 arithmetic leaves of a mathematical integer. */
  function Wrap(x: int): (w: int64)
    ensures exists k :: w == x + k * TWO64
    ensures MIN64 <= x <= MAX64 ==> w == x
  {
    var w := (x - MIN64) % TWO64 + MIN64;
    assert w == x + (-((x - MIN64) / TWO64)) * TWO64;
    w
  }

  /** Go's unary minus: MIN64 is its own negation. */
  function Negate(x: int): (n: int64)
    ensures MIN64 < x <= MAX64 ==> n == -x
  {
    Wrap(-x)
  }

  /** Wrapping at every addition gives the same as wrapping once at the end. */
  lemma WrapAdd(x: int, y: int)
    ensures Wrap(Wrap(x) + y) == Wrap(x + y)
  {
    var k: int :| Wrap(x) == x + k * TWO64;
    assert Wrap(x) + y - MIN64 == (x + y - MIN64) + k * TWO64;
    ModShift(x + y - MIN64, k);
  }

  lemma ModShift(x: int, k: int)
    ensures (x + k * TWO64) % TWO64 == x % TWO64
  {
    var q := x / TWO64;
    assert x + k * TWO64 == (q + k) * TWO64 + x % TWO64;
  }

  /** The characters Go's strings.TrimSpace removes. */
  predicate IsSpace(c: char) {
    c in " \t\n\r" || c == 11 as char || c == 12 as char || c == 0x85 as char || c == 0xA0 as char
    || c == 0x1680 as char || 0x2000 as char <= c <= 0x200A as char || c == 0x2028 as char
    || c == 0x2029 as char || c == 0x202F as char || c == 0x205F as char || c == 0x3000 as char
  }

  function TrimLeft(s: string): (t: string)
    ensures |t| <= |s|
    ensures t != "" ==> !IsSpace(t[0])
  {
    if s != "" && IsSpace(s[0]) then TrimLeft(s[1..]) else s
  }

  function TrimRight(s: string): (t: string)
    ensures |t| <= |s|
    ensures t != "" ==> !IsSpace(t[|t| - 1])
  {
    if s != "" && IsSpace(s[|s| - 1]) then TrimRight(s[..|s| - 1]) else s
  }

  function TrimSpace(s: string): string {
    TrimRight(TrimLeft(s))
  }

  /** A required text field is missing when only white space is left of it. */
  predicate Blank(s: string) {
    TrimSpace(s) == ""
  }

  /** strings.ToUpper on the ASCII letters. */
  function ToUpper(s: string): string {
    seq(|s|, i requires 0 <= i < |s| =>
      if 'a' <= s[i] <= 'z' then s[i] - 'a' + 'A' else s[i])
  }

  lemma {:induction false} TrimsLeft(s: string) returns (n: nat)
    ensures n <= |s| && TrimLeft(s) == s[n..] && forall i :: 0 <= i < n ==> IsSpace(s[i])
  {
    n := 0;
    if s != "" && IsSpace(s[0]) {
      var m := TrimsLeft(s[1..]);
      n := m + 1;
      forall i | 0 <= i < n ensures IsSpace(s[i]) {
        assert i > 0 ==> s[i] == s[1..][i - 1];
      }
    }
  }

  lemma {:induction false} TrimsRight(s: string) returns (n: nat)
    ensures n <= |s| && TrimRight(s) == s[..n] && forall i :: n <= i < |s| ==> IsSpace(s[i])
  {
    n := |s|;
    if s != "" && IsSpace(s[|s| - 1]) {
      n := TrimsRight(s[..|s| - 1]);
    } else {
      assert s[..n] == s;
    }
  }

  /** A string without its white space at both ends. */
  predicate Trimmed(s: string, from: int, to: int) {
    && 0 <= from <= to <= |s|
    && (forall i :: 0 <= i < |s| && !(from <= i < to) ==> IsSpace(s[i]))
    && (from < to ==> !IsSpace(s[from]) && !IsSpace(s[to - 1]))
  }

  lemma TrimsExactly(s: string)
    ensures exists from, to :: Trimmed(s, from, to) && TrimSpace(s) == s[from..to]
  {
    var from := TrimsLeft(s);
    var t := TrimLeft(s);
    var n := TrimsRight(t);
    forall i | 0 <= i < |s| && !(from <= i < from + n) ensures IsSpace(s[i]) {
      assert i >= from ==> s[i] == t[i - from];
    }
    assert t[..n] == s[from..from + n];
    assert n > 0 ==> TrimSpace(s)[0] == t[0] && TrimSpace(s)[n - 1] == t[n - 1];
    assert Trimmed(s, from, from + n);
  }

  /** The ASCII letters are raised, character by character, and nothing else changes. */
  lemma RaisesExactly(s: string)
    ensures |ToUpper(s)| == |s|
    ensures forall i :: 0 <= i < |s| ==>
      if 97 <= s[i] as int <= 122 then ToUpper(s)[i] as int == s[i] as int - 32 else ToUpper(s)[i] == s[i]
  {
  }
}
