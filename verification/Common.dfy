/** Small result types shared by the models, and facts about sequences. */
module Common {

  datatype Option<+T> = None | Some(value: T)

  datatype Result<+R, +E> = Success(value: R) | Failure(error: E)

  /** Sequences without one element, and the multiset they leave. */
  function Without<T>(s: seq<T>, i: nat): seq<T>
    requires i < |s|
  {
    s[..i] + s[i + 1..]
  }

  lemma WithoutMultiset<T>(s: seq<T>, i: nat)
    requires i < |s|
    ensures multiset(s) == multiset(Without(s, i)) + multiset{s[i]}
  {
    assert s == s[..i] + [s[i]] + s[i + 1..];
  }

  lemma MemberAt<T>(s: seq<T>, x: T) returns (i: nat)
    requires x in multiset(s)
    ensures i < |s| && s[i] == x
  {
    i :| 0 <= i < |s| && s[i] == x;
  }

  lemma PrefixStep<T>(s: seq<T>, k: nat)
    requires k < |s|
    ensures s[..k + 1] == s[..k] + [s[k]]
    ensures s[..k + 1][..k] == s[..k]
  {
  }

  lemma PrefixHolds<T>(s: seq<T>, i: nat, n: nat)
    requires i < n <= |s|
    ensures s[..n][i] == s[i] && s[i] in s[..n]
  {
  }

  /** What holds of a sequence by its head and its tail holds of each element. */
  lemma {:induction false} EachOfAll<T(!new)>(s: seq<T>, all: seq<T> -> bool, one: T -> bool, i: nat)
    requires i < |s| && all(s)
    requires forall r: seq<T> :: r != [] && all(r) ==> one(r[0]) && all(r[1..])
    ensures one(s[i])
  {
    if i > 0 {
      EachOfAll(s[1..], all, one, i - 1);
    }
  }

  lemma HeadTail<T>(s: seq<T>)
    requires s != []
    ensures s == [s[0]] + s[1..]
  {
  }

  lemma Assoc<T>(a: seq<T>, b: seq<T>, c: seq<T>)
    ensures (a + b) + c == a + (b + c)
  {
  }

  lemma DropHead<T>(x: T, s: seq<T>)
    ensures ([x] + s)[1..] == s && ([x] + s)[0] == x
  {
  }

  lemma Cut<T>(a: seq<T>, b: seq<T>)
    ensures (a + b)[..|a|] == a && (a + b)[|a|..] == b && a <= a + b
  {
  }

  lemma Resume<T>(a: seq<T>, x: T, s: seq<T>)
    requires a + [x] <= s
    ensures s == a + ([x] + s[|a| + 1..])
  {
  }

  lemma Nothing<T>(s: seq<T>)
    ensures [] + s == s && s + [] == s
  {
  }

  /** Two sequences of the same elements: the last of one is somewhere in the other, and taking both out
      leaves the same elements. */
  lemma MatchLast<T>(x: seq<T>, y: seq<T>) returns (i: nat)
    requires multiset(x) == multiset(y) && x != []
    ensures i < |y| && y[i] == x[|x| - 1] && multiset(x[..|x| - 1]) == multiset(Without(y, i))
  {
    var last := |x| - 1;
    WithoutMultiset(x, last);
    i := MemberAt(y, x[last]);
    WithoutMultiset(y, i);
    assert Without(x, last) == x[..last];
    assert multiset(x[..last]) == multiset(x) - multiset{x[last]};
  }

  lemma SameLength<T>(x: seq<T>, y: seq<T>)
    requires multiset(x) == multiset(y)
    ensures |x| == |y|
  {
    assert |x| == |multiset(x)| == |multiset(y)| == |y|;
  }

  lemma MatchHead<T>(x: seq<T>, y: seq<T>)
    requires multiset(x) == multiset(y) && x != []
    ensures y != [] && (exists i :: 0 <= i < |y| && y[i] == x[0]) && (exists j :: 0 <= j < |x| && x[j] == y[0])
    ensures x[0] == y[0] ==> multiset(x[1..]) == multiset(y[1..])
  {
    SameLength(x, y);
    var i := MemberAt(y, x[0]);
    var j := MemberAt(x, y[0]);
    WithoutMultiset(x, 0);
    WithoutMultiset(y, 0);
    assert Without(x, 0) == x[1..] && Without(y, 0) == y[1..];
    assert multiset(x[1..]) == multiset(x) - multiset{x[0]};
    assert multiset(y[1..]) == multiset(y) - multiset{y[0]};
  }
}
