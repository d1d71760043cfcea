/**
 * Vocabulary shared by the agents: the optional value a dictionary lookup may
 * miss, the "status" entry of every result dictionary, the HTTP probe every
 * health check performs, and Python's ordering of strings (used to sort test
 * history by timestamp).
 */
module Common {

  datatype Option<+T> = None | Some(value: T)

  /** The "status" entry ("success" or "error") of a result dictionary. */
  datatype Status = Success | Error

  /**
   * The outcome of one HTTP GET issued with a bounded timeout: either a reply
   * with its status code, or an exception (connection refused, timeout, ...)
   * carrying its text.
   */
  datatype Probe = Answered(statusCode: int) | ProbeRaised(message: string)

  /** The URL every deployed project is served on. */
  const AppUrl: string := "http://localhost:8001"

  /**
   * Python's `a < b` on str: lexicographic by code point, a proper prefix
   * being smaller than the longer string.
   */
  predicate StrLess(a: string, b: string)
  {
    if |a| == 0 then |b| > 0
    else if |b| == 0 then false
    else if a[0] != b[0] then a[0] < b[0]
    else StrLess(a[1..], b[1..])
  }

  lemma {:induction false} StrLessIrreflexive(a: string)
    ensures !StrLess(a, a)
  {
    if |a| > 0 {
      StrLessIrreflexive(a[1..]);
    }
  }

  lemma {:induction false} StrLessTransitive(a: string, b: string, c: string)
    requires StrLess(a, b) && StrLess(b, c)
    ensures StrLess(a, c)
  {
    if |a| > 0 && a[0] == b[0] && b[0] == c[0] {
      StrLessTransitive(a[1..], b[1..], c[1..]);
    }
  }

  /** Two different strings are always ordered one way or the other. */
  lemma {:induction false} StrLessTotal(a: string, b: string)
    requires a != b
    ensures StrLess(a, b) || StrLess(b, a)
  {
    if |a| > 0 && |b| > 0 && a[0] == b[0] {
      assert a == [a[0]] + a[1..] && b == [b[0]] + b[1..];
      StrLessTotal(a[1..], b[1..]);
    }
  }

  lemma {:induction false} StrLessAsymmetric(a: string, b: string)
    requires StrLess(a, b)
    ensures !StrLess(b, a)
  {
    if |a| > 0 && a[0] == b[0] {
      StrLessAsymmetric(a[1..], b[1..]);
    }
  }

  /** "Not smaller than", the order `sorted(..., reverse=True)` arranges by, is transitive. */
  lemma NotLessTransitive(a: string, b: string, c: string)
    requires !StrLess(a, b) && !StrLess(b, c)
    ensures !StrLess(a, c)
  {
    if a == c {
      StrLessIrreflexive(a);
    } else if a != b && b != c {
      StrLessTotal(a, b);
      StrLessTotal(b, c);
      StrLessTransitive(c, b, a);
      StrLessAsymmetric(c, a);
    }
  }

  /** Writing a key twice leaves the second value. */
  lemma UpdateTwice<K, V>(m: map<K, V>, k: K, a: V, b: V)
    ensures m[k := a][k := b] == m[k := b]
  {
  }

  /** A subset has no more elements than the set containing it. */
  lemma {:induction false} SubsetCardinality(a: set<string>, b: set<string>)
    requires a <= b
    ensures |a| <= |b|
  {
    if a != {} {
      var x :| x in a;
      SubsetCardinality(a - {x}, b - {x});
    }
  }
}
