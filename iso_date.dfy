/** Dates as ISO 8601 strings (calendar dates "YYYY-MM-DD", timestamps
    "YYYY-MM-DDThh:mm:ss.sssZ"), ordered the way JavaScript orders strings:
    character by character, a proper prefix before any extension of it.
    For strings of one ISO 8601 layout this is chronological order. */
module IsoDate {

  /** JavaScript `a < b` on strings. */
  predicate Less(a: string, b: string)
  {
    if |b| == 0 then false
    else if |a| == 0 then true
    else if a[0] != b[0] then a[0] < b[0]
    else Less(a[1..], b[1..])
  }

  /** JavaScript `a <= b` on strings. */
  predicate LessEq(a: string, b: string)
  {
    !Less(b, a)
  }

  lemma {:induction false} LessIrreflexive(a: string)
    ensures !Less(a, a)
  {
    if |a| > 0 {
      LessIrreflexive(a[1..]);
    }
  }

  lemma {:induction false} LessTransitive(a: string, b: string, c: string)
    requires Less(a, b) && Less(b, c)
    ensures Less(a, c)
  {
    if |a| > 0 && a[0] == b[0] && b[0] == c[0] {
      LessTransitive(a[1..], b[1..], c[1..]);
    }
  }

  lemma {:induction false} LessTotal(a: string, b: string)
    ensures a == b || Less(a, b) || Less(b, a)
  {
    if |a| > 0 && |b| > 0 && a[0] == b[0] {
      LessTotal(a[1..], b[1..]);
      if a[1..] == b[1..] {
        assert a == [a[0]] + a[1..] && b == [b[0]] + b[1..];
      }
    }
  }

  lemma LessAsymmetric(a: string, b: string)
    requires Less(a, b)
    ensures !Less(b, a)
  {
    if Less(b, a) {
      LessTransitive(a, b, a);
      LessIrreflexive(a);
    }
  }

  /** `LessEq` is a total preorder that is also antisymmetric: a total order. */
  lemma LessEqTotal(a: string, b: string)
    ensures LessEq(a, b) || LessEq(b, a)
  {
    if Less(a, b) {
      LessAsymmetric(a, b);
    }
  }

  lemma LessEqTransitive(a: string, b: string, c: string)
    requires LessEq(a, b) && LessEq(b, c)
    ensures LessEq(a, c)
  {
    if Less(c, a) {
      LessTotal(a, b);
      if Less(a, b) {
        LessTransitive(c, a, b);
      } else if Less(b, a) {
      }
    }
  }

  lemma LessEqRefl(a: string)
    ensures LessEq(a, a)
  {
    LessIrreflexive(a);
  }

  /** A string is never after an extension of itself. */
  lemma {:induction false} PrefixLessEq(a: string, s: string)
    ensures LessEq(a, a + s)
  {
    if |a| > 0 {
      assert (a + s)[0] == a[0] && (a + s)[1..] == a[1..] + s;
      PrefixLessEq(a[1..], s);
    }
  }

  /** `s.startsWith(p)` */
  predicate StartsWith(s: string, p: string)
  {
    |p| <= |s| && s[..|p|] == p
  }

  /** `d.substring(0, 7)`: the "YYYY-MM" calendar month of an ISO 8601
      calendar date (a month with reduced accuracy, section 4.1.2.3 of
      ISO 8601:2004). */
  function MonthKey(d: string): (m: string)
    ensures |d| >= 7 ==> |m| == 7 && StartsWith(d, m)
    ensures |d| < 7 ==> m == d
  {
    if |d| >= 7 then d[..7] else d
  }

  /** For a date of full length and a month key, starting with the key is
      the same as having that month. */
  lemma StartsWithMonth(d: string, m: string)
    requires |d| >= 7 && |m| == 7
    ensures StartsWith(d, m) <==> MonthKey(d) == m
  {
  }

  /** The period filter shared by the screens: a date is kept when it is not
      before a non-empty start and not after a non-empty end (both inclusive). */
  predicate InRange(d: string, start: string, end: string)
  {
    (start == "" || !Less(d, start)) && (end == "" || !Less(end, d))
  }
}
