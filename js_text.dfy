/** JavaScript strings and the order Array.prototype.sort puts them in.

    A JavaScript string is a sequence of UTF-16 code units, and the default
    comparator of `sort` compares two strings code unit by code unit (a proper
    prefix comes first). Dafny's own `<` on sequences means "proper prefix", so
    the lexicographic order is defined here. */
module JsText {

  datatype Option<+T> = None | Some(value: T)

  /** One UTF-16 code unit. */
  type CodeUnit = x: int | 0 <= x < 0x1_0000

  type JsString = seq<CodeUnit>

  const UNDERSCORE: CodeUnit := 0x5F   // '_'
  const SLASH: CodeUnit := 0x2F        // '/'

  /** The code units of a string literal made of ASCII characters. */
  function Ascii(s: string): (r: JsString)
    requires forall i | 0 <= i < |s| :: s[i] < 128 as char
    ensures |r| == |s|
    ensures forall i | 0 <= i < |s| :: r[i] == s[i] as int
  {
    seq(|s|, i requires 0 <= i < |s| => s[i] as int)
  }

  /** `a < b` on JavaScript strings (the IsLessThan step of abstract relational
      comparison when both operands are strings). */
  predicate Less(a: JsString, b: JsString)
  {
    if a == [] then b != []
    else if b == [] then false
    else if a[0] != b[0] then a[0] < b[0]
    else Less(a[1..], b[1..])
  }

  lemma {:induction false} LessIrreflexive(a: JsString)
    ensures !Less(a, a)
  {
    if a != [] {
      LessIrreflexive(a[1..]);
    }
  }

  lemma {:induction false} LessAsymmetric(a: JsString, b: JsString)
    ensures Less(a, b) ==> !Less(b, a)
  {
    if a != [] && b != [] && a[0] == b[0] {
      LessAsymmetric(a[1..], b[1..]);
    }
  }

  lemma {:induction false} LessTotal(a: JsString, b: JsString)
    ensures a == b || Less(a, b) || Less(b, a)
  {
    if a != [] && b != [] && a[0] == b[0] {
      LessTotal(a[1..], b[1..]);
      if a[1..] == b[1..] {
        assert a == [a[0]] + a[1..] && b == [b[0]] + b[1..];
      }
    }
  }

  lemma {:induction false} LessTransitive(a: JsString, b: JsString, c: JsString)
    requires Less(a, b) && Less(b, c)
    ensures Less(a, c)
  {
    if a != [] && b != [] && c != [] && a[0] == b[0] && b[0] == c[0] {
      LessTransitive(a[1..], b[1..], c[1..]);
    }
  }

  /** A proper prefix is smaller, as in JavaScript ("ab" < "abc"). */
  lemma {:induction false} PrefixIsLess(a: JsString, b: JsString)
    requires |a| < |b| && a == b[..|a|]
    ensures Less(a, b)
  {
    if a != [] {
      assert a[1..] == b[1..][..|a| - 1];
      PrefixIsLess(a[1..], b[1..]);
    }
  }
}
