// The ordering JavaScript's `<` and `>` give the sort keys of the project
// list: strings compare lexicographically character by character, numbers
// (sizes, creation times) numerically.
module KeyOrder {

  /** A sort key: a string or a number. */
  datatype Key = Text(s: string) | Number(n: int)

  /** Lexicographic order; a proper prefix comes first. */
  predicate LexLess(a: string, b: string)
    decreases |a|
  {
    if a == [] then b != []
    else if b == [] then false
    else if a[0] != b[0] then a[0] < b[0]
    else LexLess(a[1..], b[1..])
  }

  lemma {:induction false} LexIrreflexive(a: string)
    ensures !LexLess(a, a)
    decreases |a|
  {
    if a != [] {
      LexIrreflexive(a[1..]);
    }
  }

  lemma {:induction false} LexTransitive(a: string, b: string, c: string)
    requires LexLess(a, b) && LexLess(b, c)
    ensures LexLess(a, c)
    decreases |a|
  {
    if a != [] && a[0] == b[0] && b[0] == c[0] {
      LexTransitive(a[1..], b[1..], c[1..]);
    }
  }

  lemma {:induction false} LexTotal(a: string, b: string)
    requires a != b
    ensures LexLess(a, b) || LexLess(b, a)
    decreases |a|
  {
    if a != [] && b != [] && a[0] == b[0] {
      assert a == [a[0]] + a[1..] && b == [b[0]] + b[1..];
      LexTotal(a[1..], b[1..]);
    }
  }

  /** `x < y` on two keys. Keys of one column are always of one kind; across
      kinds numbers are put first so that the order stays total. */
  predicate Less(x: Key, y: Key) {
    match (x, y)
    case (Number(m), Number(n)) => m < n
    case (Text(a), Text(b)) => LexLess(a, b)
    case (Number(_), Text(_)) => true
    case (Text(_), Number(_)) => false
  }

  lemma Irreflexive(x: Key)
    ensures !Less(x, x)
  {
    if x.Text? {
      LexIrreflexive(x.s);
    }
  }

  lemma Transitive(x: Key, y: Key, z: Key)
    requires Less(x, y) && Less(y, z)
    ensures Less(x, z)
  {
    if x.Text? && y.Text? && z.Text? {
      LexTransitive(x.s, y.s, z.s);
    }
  }

  /** Distinct keys are always ordered one way or the other, and never both. */
  lemma Trichotomy(x: Key, y: Key)
    ensures x == y || Less(x, y) || Less(y, x)
    ensures !(Less(x, y) && Less(y, x))
  {
    if x.Text? && y.Text? {
      if x.s != y.s {
        LexTotal(x.s, y.s);
      }
      if LexLess(x.s, y.s) && LexLess(y.s, x.s) {
        LexTransitive(x.s, y.s, x.s);
        LexIrreflexive(x.s);
      }
    }
  }
}
