/** `Symbol`, the instrument ticker: a transparent wrapper around a string
    whose derived equality and ordering are those of the string. */
module Symbols {

  datatype Ordering = Less | Equal | Greater

  function Reverse(o: Ordering): (r: Ordering) {
    match o
    case Less => Greater
    case Equal => Equal
    case Greater => Less
  }

  /** Rust's `Ord` for `str`: lexicographic on the characters, a proper prefix
      ordered first. It reports Equal exactly on equal strings. */
  function CompareStrings(a: string, b: string): (o: Ordering)
    ensures o == Equal <==> a == b
  {
    if a == [] then (if b == [] then Equal else Less)
    else if b == [] then Greater
    else if a[0] < b[0] then Less
    else if a[0] > b[0] then Greater
    else
      assert a == [a[0]] + a[1..] && b == [b[0]] + b[1..];
      CompareStrings(a[1..], b[1..])
  }

  lemma {:induction false} CompareStringsAntisymmetric(a: string, b: string)
    ensures CompareStrings(b, a) == Reverse(CompareStrings(a, b))
  {
    if a != [] && b != [] && a[0] == b[0] {
      CompareStringsAntisymmetric(a[1..], b[1..]);
    }
  }

  lemma {:induction false} CompareStringsTransitive(a: string, b: string, c: string)
    requires CompareStrings(a, b) == Less && CompareStrings(b, c) == Less
    ensures CompareStrings(a, c) == Less
  {
    if a != [] && b != [] && c != [] && a[0] == b[0] == c[0] {
      CompareStringsTransitive(a[1..], b[1..], c[1..]);
    }
  }

  /** A proper prefix sorts before the longer string. */
  lemma {:induction false} PrefixIsLess(a: string, b: string)
    requires |a| < |b| && a == b[..|a|]
    ensures CompareStrings(a, b) == Less
  {
    if a != [] {
      assert a[1..] == b[1..][..|a| - 1];
      PrefixIsLess(a[1..], b[1..]);
    }
  }

  /** `pub struct Symbol(pub String)` with `#[serde(transparent)]`. */
  datatype Symbol = Symbol(value: string)

  /** `impl<T: AsRef<str>> From<T> for Symbol`: copies the string. The
      blanket `AsSymbol` for any `T: AsRef<str>` copies it the same way, so
      it is this function too. */
  function From(s: string): (sym: Symbol)
    ensures sym.value == s
  {
    Symbol(s)
  }

  /** `AsSymbol` for `Symbol` and for `&Symbol`: a clone. */
  function AsSymbol(sym: Symbol): (r: Symbol)
    ensures r.value == sym.value
  {
    sym
  }

  /** Converting a string keeps its text unchanged; converting a Symbol again
      gives an equal Symbol. */
  lemma ConversionsPreserveText(s: string, sym: Symbol)
    ensures From(s).value == s
    ensures AsSymbol(sym) == sym && From(AsSymbol(sym).value) == sym
    ensures From(s) == sym <==> s == sym.value
  {
  }

  /** The derived `Ord` on a one-field tuple struct compares the field. */
  function Compare(x: Symbol, y: Symbol): (o: Ordering)
    ensures o == Equal <==> x == y
  {
    CompareStrings(x.value, y.value)
  }

  /** Symbol ordering is a total order whose equal case is Symbol equality. */
  lemma CompareIsTotalOrder(x: Symbol, y: Symbol, z: Symbol)
    ensures Compare(x, y) == Equal <==> x == y
    ensures Compare(y, x) == Reverse(Compare(x, y))
    ensures Compare(x, y) == Less && Compare(y, z) == Less ==> Compare(x, z) == Less
  {
    CompareStringsAntisymmetric(x.value, y.value);
    if Compare(x, y) == Less && Compare(y, z) == Less {
      CompareStringsTransitive(x.value, y.value, z.value);
    }
  }

  /** Converting strings to Symbols neither merges nor reorders them. */
  lemma FromPreservesOrder(a: string, b: string)
    ensures Compare(From(a), From(b)) == CompareStrings(a, b)
    ensures From(a) == From(b) <==> a == b
  {
  }
}
