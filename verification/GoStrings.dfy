/** Go's built-in order on strings, which `sort.Strings` and the URL comparison
    of `sortRoutes` use: bytewise lexicographic, a proper prefix first. */
module GoStrings {

  predicate Less(a: string, b: string)
  {
    b != [] && (a == [] || a[0] < b[0] || (a[0] == b[0] && Less(a[1..], b[1..])))
  }

  /** The strings agree up to position `i`, where the first one ends or has the smaller
      character. */
  predicate SmallerAt(a: string, b: string, i: nat)
  {
    i <= |a| && i < |b| && a[..i] == b[..i] && (i == |a| || a[i] < b[i])
  }

  lemma SmallerBeyondHead(a: string, b: string, i: nat)
    ensures SmallerAt(a, b, i) && i > 0 ==> a != [] && b != [] && a[0] == b[0]
  {
    if SmallerAt(a, b, i) && i > 0 {
      assert a[..i][0] == b[..i][0];
    }
  }

  /** The order, position by position. */
  lemma {:induction false} LessIff(a: string, b: string)
    ensures Less(a, b) <==> exists i: nat :: SmallerAt(a, b, i)
  {
    if a != [] && b != [] && a[0] == b[0] {
      LessIff(a[1..], b[1..]);
      if i: nat :| SmallerAt(a[1..], b[1..], i) {
        assert a[..i + 1] == [a[0]] + a[1..][..i] && b[..i + 1] == [b[0]] + b[1..][..i];
        assert SmallerAt(a, b, i + 1);
      }
      if i: nat :| SmallerAt(a, b, i) {
        assert i > 0;
        assert a[1..][..i - 1] == a[..i][1..] && b[1..][..i - 1] == b[..i][1..];
        assert SmallerAt(a[1..], b[1..], i - 1);
      }
    } else {
      assert b != [] && (a == [] || a[0] < b[0]) ==> SmallerAt(a, b, 0);
      forall i: nat
        ensures SmallerAt(a, b, i) ==> i == 0
      {
        SmallerBeyondHead(a, b, i);
      }
    }
  }

  lemma {:induction false} LessIrreflexive(a: string)
    ensures !Less(a, a)
  {
    if a != [] {
      LessIrreflexive(a[1..]);
    }
  }

  lemma {:induction false} LessTransitive(a: string, b: string, c: string)
    requires Less(a, b) && Less(b, c)
    ensures Less(a, c)
  {
    if a != [] && a[0] == b[0] == c[0] {
      LessTransitive(a[1..], b[1..], c[1..]);
    }
  }

  lemma {:induction false} LessTotal(a: string, b: string)
    ensures a == b || Less(a, b) || Less(b, a)
  {
    if a != [] && b != [] && a[0] == b[0] {
      LessTotal(a[1..], b[1..]);
      assert a == [a[0]] + a[1..] && b == [b[0]] + b[1..];
    }
  }

  lemma LessAsymmetric(a: string, b: string)
    requires Less(a, b)
    ensures !Less(b, a)
  {
    if Less(b, a) {
      LessTransitive(a, b, a);
      LessIrreflexive(a);
    }
  }

  /** The link between the string sort and routing: a longer path that extends a
      shorter one makes a strictly greater URL, whatever host precedes both. */
  lemma {:induction false} ExtensionIsGreater(host: string, shorter: string, longer: string)
    requires shorter < longer
    ensures Less(host + shorter, host + longer)
    decreases |host| + |shorter|
  {
    if host != [] {
      assert (host + shorter)[1..] == host[1..] + shorter;
      assert (host + longer)[1..] == host[1..] + longer;
      ExtensionIsGreater(host[1..], shorter, longer);
    } else {
      assert host + shorter == shorter && host + longer == longer;
      if shorter != [] {
        ExtensionIsGreater([], shorter[1..], longer[1..]);
        assert [] + shorter[1..] == shorter[1..] && [] + longer[1..] == longer[1..];
      }
    }
  }
}
