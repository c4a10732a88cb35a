/** The errors a driver invocation can end with, and the text each one carries into a reply. */
module Errors {

  /** Every error the driver returns; collaborators' errors keep their own text. */
  datatype Error =
    | NoArguments
    | WrongArgCount(actual: nat, expected: nat, op: string)
    | OptionsNotSet(jsonOptions: string)
    | OptionNotString(key: string)      // an unchecked type assertion on an option (a panic in the driver)
    | MetadataNotString(key: string)    // an unchecked type assertion on attach metadata (a panic in the driver)
    | NilRecord                         // an assignment through a nil record pointer (a panic in the driver)
    | DirNotExist(dir: string)
    | SidecarMissing(dir: string)
    | ClientError(text: string)         // building the provider client
    | AttachError(text: string)
    | DetachError(text: string)
    | WriteError(text: string)          // writing the sidecar record
    | ReadError(text: string)           // reading the sidecar record
    | CleanupError(text: string)        // deleting the sidecar record

  datatype Result<+T> = Ok(value: T) | Err(error: Error)

  predicate IsDigit(c: char) {
    '0' <= c <= '9'
  }

  predicate AllDigits(s: string) {
    forall i :: 0 <= i < |s| ==> IsDigit(s[i])
  }

  function DigitChar(d: nat): (c: char)
    requires d < 10
    ensures IsDigit(c)
  {
    ('0' as int + d) as char
  }

  function DigitValue(c: char): (d: nat)
    requires IsDigit(c)
    ensures d < 10 && DigitChar(d) == c
  {
    (c as int - '0' as int) as nat
  }

  /** The `%d` rendering of a count. */
  function Decimal(n: nat): (s: string)
    ensures |s| > 0 && AllDigits(s)
  {
    if n < 10 then [DigitChar(n)] else Decimal(n / 10) + [DigitChar(n % 10)]
  }

  /** Reads a rendered count back. */
  function ParseDecimal(s: string): nat
    requires AllDigits(s)
  {
    if s == [] then 0 else ParseDecimal(s[..|s| - 1]) * 10 + DigitValue(s[|s| - 1])
  }

  lemma {:induction false} ParseDecimalInverts(n: nat)
    ensures ParseDecimal(Decimal(n)) == n
  {
    var s := Decimal(n);
    if n >= 10 {
      ParseDecimalInverts(n / 10);
      assert s[..|s| - 1] == Decimal(n / 10);
      assert DigitValue(s[|s| - 1]) == n % 10;
    } else {
      assert s[..|s| - 1] == [];
    }
  }

  /** `%q` of an operation name (Go escaping of quotes inside the name is not modelled). */
  function Quote(s: string): string {
    "\"" + s + "\""
  }

  /** The message each error puts into a Failure reply. */
  function ErrorText(e: Error): string {
    match e
    case NoArguments => "no arguments passed to flexvolume driver"
    case WrongArgCount(actual, expected, op) =>
      "unexpected number of args " + Decimal(actual) + " (expected " + Decimal(expected) + ") for operation " + Quote(op)
    case OptionsNotSet(jsonOptions) => "jsonOptions is not set by user properly: " + Quote(jsonOptions)
    case OptionNotString(key) => "option " + Quote(key) + " is missing or not a string"
    case MetadataNotString(key) => "metadata " + Quote(key) + " is not a string"
    case NilRecord => "runtime error: invalid memory address or nil pointer dereference"
    case DirNotExist(dir) => "volume directory: " + dir + " does not exists"
    case SidecarMissing(dir) => "no metadata file under " + dir
    case ClientError(text) => text
    case AttachError(text) => text
    case DetachError(text) => text
    case WriteError(text) => text
    case ReadError(text) => text
    case CleanupError(text) => text
  }

  /** Two digit strings each followed by a non-digit split a common string at the same place. */
  lemma DigitRunsAlign(u: string, s: string, v: string, t: string)
    requires AllDigits(u) && AllDigits(v)
    requires |s| > 0 && !IsDigit(s[0]) && |t| > 0 && !IsDigit(t[0])
    requires u + s == v + t
    ensures u == v && s == t
  {
    assert u == (u + s)[..|u|];
    assert v == (v + t)[..|v|];
    assert s == (u + s)[|u|..];
    assert t == (v + t)[|v|..];
  }

  lemma DecimalInjective(a: nat, b: nat)
    requires Decimal(a) == Decimal(b)
    ensures a == b
  {
    ParseDecimalInverts(a);
    ParseDecimalInverts(b);
  }

  lemma CancelPrefix(p: string, a: string, b: string)
    requires p + a == p + b
    ensures a == b
  {
    assert a == (p + a)[|p|..];
    assert b == (p + b)[|p|..];
  }

  lemma CancelSuffix(a: string, b: string, q: string)
    requires a + q == b + q
    ensures a == b
  {
    assert a == (a + q)[..|a|];
    assert b == (b + q)[..|b|];
  }

  /** The arity error's text, with its concatenations grouped from the right. */
  lemma WrongArgCountTextShape(a: nat, x: nat, op: string)
    ensures ErrorText(WrongArgCount(a, x, op))
         == "unexpected number of args " + (Decimal(a) + (" (expected " + (Decimal(x) + (") for operation \"" + (op + "\"")))))
  {
  }

  /** The arity error names both counts and the operation: its text determines all three. */
  lemma WrongArgCountTextDetermines(a1: nat, x1: nat, op1: string, a2: nat, x2: nat, op2: string)
    requires ErrorText(WrongArgCount(a1, x1, op1)) == ErrorText(WrongArgCount(a2, x2, op2))
    ensures a1 == a2 && x1 == x2 && op1 == op2
  {
    var tail1, tail2 := ") for operation \"" + (op1 + "\""), ") for operation \"" + (op2 + "\"");
    var n1, n2 := Decimal(x1) + tail1, Decimal(x2) + tail2;
    var m1, m2 := " (expected " + n1, " (expected " + n2;
    WrongArgCountTextShape(a1, x1, op1);
    WrongArgCountTextShape(a2, x2, op2);
    CancelPrefix("unexpected number of args ", Decimal(a1) + m1, Decimal(a2) + m2);
    DigitRunsAlign(Decimal(a1), m1, Decimal(a2), m2);
    DecimalInjective(a1, a2);
    CancelPrefix(" (expected ", n1, n2);
    DigitRunsAlign(Decimal(x1), tail1, Decimal(x2), tail2);
    DecimalInjective(x1, x2);
    CancelPrefix(") for operation \"", op1 + "\"", op2 + "\"");
    CancelSuffix(op1, op2, "\"");
  }
}
