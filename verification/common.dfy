/** Value types and sequence helpers shared by every module of the model:
    the optional value, the outcome of a call to the hosted language model,
    string prefixes, joining with a separator, filtering and reversing. */
module Common {

  datatype Option<T> = None | Some(value: T)

  /** A value, or the message of the error that was thrown instead. */
  datatype Result<T> = Ok(value: T) | Err(error: string)

  /** What one call to the hosted language model returned: generated text,
      or an exception carrying a message. The model itself is not modelled;
      every handler receives this outcome as an input. */
  datatype Completion = Completed(text: string) | Failed(message: string)

  /** The body of an HTTP reply: a JSON object `{"error": ...}`, or plain text. */
  datatype Body = ErrorJson(error: string) | PlainText(text: string)

  datatype Response = Response(status: int, body: Body)

  /** JavaScript/Python truthiness of a string field: null, undefined, a
      missing key and the empty string are all written "" in the model. */
  predicate Truthy(s: string) {
    s != ""
  }

  predicate StartsWith(s: string, prefix: string) {
    |prefix| <= |s| && s[..|prefix|] == prefix
  }

  /** `parts.join(sep)` in JavaScript, `sep.join(parts)` in Python. */
  function Join(parts: seq<string>, sep: string): string
    decreases |parts|
  {
    if |parts| == 0 then ""
    else if |parts| == 1 then parts[0]
    else parts[0] + sep + Join(parts[1..], sep)
  }

  /** Where part k starts inside Join(parts, sep). */
  function Offset(parts: seq<string>, sep: string, k: nat): nat
    requires k <= |parts|
  {
    if k == 0 then 0 else |parts[0]| + |sep| + Offset(parts[1..], sep, k - 1)
  }

  /** The left operand of a concatenation is its prefix. */
  lemma TakeLeft(a: string, b: string)
    ensures (a + b)[..|a|] == a
  {
    assert forall t :: 0 <= t < |a| ==> (a + b)[..|a|][t] == a[t];
  }

  /** A slice of the right operand of a concatenation, seen through it. */
  lemma SliceRight(a: string, b: string, i: nat, j: nat)
    requires i <= j <= |b|
    ensures (a + b)[|a| + i..|a| + j] == b[i..j]
  {
    assert forall t :: 0 <= t < j - i ==> (a + b)[|a| + i..|a| + j][t] == b[i..j][t];
  }

  /** Part k of Join(parts, sep) sits at Offset(k). */
  lemma {:induction false} JoinPart(parts: seq<string>, sep: string, k: nat)
    requires k < |parts|
    ensures Offset(parts, sep, k) + |parts[k]| <= |Join(parts, sep)|
    ensures Join(parts, sep)[Offset(parts, sep, k)..Offset(parts, sep, k) + |parts[k]|] == parts[k]
  {
    if k > 0 {
      var rest := parts[1..];
      var head := parts[0] + sep;
      assert Join(parts, sep) == head + Join(rest, sep);
      assert rest[k - 1] == parts[k];
      JoinPart(rest, sep, k - 1);
      var o := Offset(rest, sep, k - 1);
      assert Offset(parts, sep, k) == |head| + o;
      SliceRight(head, Join(rest, sep), o, o + |parts[k]|);
    } else if |parts| > 1 {
      assert Join(parts, sep) == parts[0] + (sep + Join(parts[1..], sep));
    }
  }

  /** Between part k and part k + 1 stands exactly the separator. */
  lemma {:induction false} JoinSeparator(parts: seq<string>, sep: string, k: nat)
    requires k + 1 < |parts|
    ensures Offset(parts, sep, k + 1) == Offset(parts, sep, k) + |parts[k]| + |sep|
    ensures Offset(parts, sep, k + 1) <= |Join(parts, sep)|
    ensures Join(parts, sep)[Offset(parts, sep, k) + |parts[k]|..Offset(parts, sep, k + 1)] == sep
  {
    var rest := parts[1..];
    if k == 0 {
      assert Join(parts, sep) == parts[0] + sep + Join(rest, sep);
    } else {
      var head := parts[0] + sep;
      assert Join(parts, sep) == head + Join(rest, sep);
      assert rest[k - 1] == parts[k];
      JoinSeparator(rest, sep, k - 1);
      var o := Offset(rest, sep, k - 1) + |parts[k]|;
      assert Offset(parts, sep, k) + |parts[k]| == |head| + o;
      assert Offset(parts, sep, k + 1) == |head| + Offset(rest, sep, k);
      SliceRight(head, Join(rest, sep), o, Offset(rest, sep, k));
    }
  }

  /** Part k, seen through a prefix. */
  lemma JoinPartAfter(head: string, parts: seq<string>, sep: string, k: nat)
    requires k < |parts|
    ensures var o := |head| + Offset(parts, sep, k);
      o + |parts[k]| <= |head + Join(parts, sep)| && (head + Join(parts, sep))[o..o + |parts[k]|] == parts[k]
  {
    JoinPart(parts, sep, k);
    var o := Offset(parts, sep, k);
    SliceRight(head, Join(parts, sep), o, o + |parts[k]|);
  }

  /** The separator after part k, seen through a prefix. */
  lemma JoinSeparatorAfter(head: string, parts: seq<string>, sep: string, k: nat)
    requires k + 1 < |parts|
    ensures var e := |head| + Offset(parts, sep, k) + |parts[k]|;
      e + |sep| <= |head + Join(parts, sep)| && (head + Join(parts, sep))[e..e + |sep|] == sep
  {
    JoinSeparator(parts, sep, k);
    var o := Offset(parts, sep, k) + |parts[k]|;
    SliceRight(head, Join(parts, sep), o, o + |sep|);
  }

  /** The last part ends the joined string: nothing follows it. */
  lemma {:induction false} JoinLength(parts: seq<string>, sep: string)
    requires |parts| > 0
    ensures |Join(parts, sep)| == Offset(parts, sep, |parts| - 1) + |parts[|parts| - 1]|
  {
    if |parts| > 1 {
      var rest := parts[1..];
      assert Join(parts, sep) == parts[0] + sep + Join(rest, sep);
      assert Offset(parts, sep, |parts| - 1) == |parts[0]| + |sep| + Offset(rest, sep, |rest| - 1);
      assert rest[|rest| - 1] == parts[|parts| - 1];
      JoinLength(rest, sep);
    }
  }

  /** Appending one part to a non-empty list appends the separator and the part. */
  lemma {:induction false} JoinSnoc(parts: seq<string>, sep: string, x: string)
    requires |parts| > 0
    ensures Join(parts + [x], sep) == Join(parts, sep) + sep + x
    decreases |parts|
  {
    if |parts| == 1 {
      assert (parts + [x])[1..] == [x];
    } else {
      assert (parts + [x])[1..] == parts[1..] + [x];
      JoinSnoc(parts[1..], sep, x);
    }
  }

  function Filter<T>(s: seq<T>, keep: T -> bool): (r: seq<T>)
    ensures |r| <= |s|
    ensures forall x :: x in r ==> x in s && keep(x)
  {
    if |s| == 0 then []
    else if keep(s[0]) then [s[0]] + Filter(s[1..], keep)
    else Filter(s[1..], keep)
  }

  /** Filtering drops exactly the elements that fail the test. */
  lemma {:induction false} FilterKeeps<T>(s: seq<T>, keep: T -> bool, x: T)
    requires x in s && keep(x)
    ensures x in Filter(s, keep)
  {
    if s[0] != x {
      FilterKeeps(s[1..], keep, x);
    }
  }

  /** Filtering distributes over concatenation, so it keeps relative order. */
  lemma {:induction false} FilterAppend<T>(a: seq<T>, b: seq<T>, keep: T -> bool)
    ensures Filter(a + b, keep) == Filter(a, keep) + Filter(b, keep)
  {
    if |a| > 0 {
      assert (a + b)[1..] == a[1..] + b;
      FilterAppend(a[1..], b, keep);
    } else {
      assert a + b == b;
    }
  }

  /** No two elements share a key: a primary key of a table. */
  predicate Distinct<T, K(==)>(s: seq<T>, key: T -> K) {
    forall i, j :: 0 <= i < j < |s| ==> key(s[i]) != key(s[j])
  }

  /** Under a primary key, a key value names one row. */
  lemma UniqueKey<T, K>(s: seq<T>, key: T -> K, x: T, y: T)
    requires Distinct(s, key) && x in s && y in s && key(x) == key(y)
    ensures x == y
  {
    var i :| 0 <= i < |s| && s[i] == x;
    var j :| 0 <= j < |s| && s[j] == y;
    assert key(s[i]) == key(s[j]);
  }

  /** A filtered table keeps its primary key. */
  lemma {:induction false} FilterDistinct<T, K>(s: seq<T>, keep: T -> bool, key: T -> K)
    requires Distinct(s, key)
    ensures Distinct(Filter(s, keep), key)
  {
    if |s| > 0 {
      FilterDistinct(s[1..], keep, key);
      var rest := Filter(s[1..], keep);
      if keep(s[0]) {
        var r := [s[0]] + rest;
        forall i, j | 0 <= i < j < |r| ensures key(r[i]) != key(r[j]) {
          if i == 0 {
            assert r[j] in s[1..];
          }
        }
      }
    }
  }

  /** Appending a row with a fresh key keeps the key a primary key. */
  lemma DistinctSnoc<T, K>(s: seq<T>, x: T, key: T -> K)
    requires Distinct(s, key)
    requires forall y :: y in s ==> key(y) != key(x)
    ensures Distinct(s + [x], key)
  {
    var r := s + [x];
    forall i, j | 0 <= i < j < |r| ensures key(r[i]) != key(r[j]) {
      if j == |s| {
        assert r[i] in s;
      } else {
        assert r[i] == s[i] && r[j] == s[j];
      }
    }
  }

  /** Replacing a row by one with the same key keeps the key a primary key. */
  lemma DistinctReplace<T, K>(s: seq<T>, k: nat, x: T, key: T -> K)
    requires k < |s| && Distinct(s, key) && key(x) == key(s[k])
    ensures Distinct(s[k := x], key)
  {
  }

  predicate Ascending<T>(s: seq<T>, key: T -> int) {
    forall i, j :: 0 <= i < j < |s| ==> key(s[i]) <= key(s[j])
  }

  predicate Descending<T>(s: seq<T>, key: T -> int) {
    forall i, j :: 0 <= i < j < |s| ==> key(s[i]) >= key(s[j])
  }

  /** Appending an element no smaller than every other keeps the order. */
  lemma AscendingSnoc<T>(s: seq<T>, x: T, key: T -> int)
    requires Ascending(s, key)
    requires forall y :: y in s ==> key(y) <= key(x)
    ensures Ascending(s + [x], key)
  {
    var r := s + [x];
    forall i, j | 0 <= i < j < |r| ensures key(r[i]) <= key(r[j]) {
      if j == |s| {
        assert r[i] in s;
      } else {
        assert r[i] == s[i] && r[j] == s[j];
      }
    }
  }

  /** Replacing an element by one with the same key keeps the order. */
  lemma AscendingReplace<T>(s: seq<T>, k: nat, x: T, key: T -> int)
    requires k < |s| && Ascending(s, key) && key(x) == key(s[k])
    ensures Ascending(s[k := x], key)
  {
  }

  /** A filtered ascending sequence is still ascending. */
  lemma {:induction false} FilterAscending<T>(s: seq<T>, keep: T -> bool, key: T -> int)
    requires Ascending(s, key)
    ensures Ascending(Filter(s, keep), key)
  {
    if |s| > 0 {
      FilterAscending(s[1..], keep, key);
      var rest := Filter(s[1..], keep);
      if keep(s[0]) {
        var r := [s[0]] + rest;
        forall i, j | 0 <= i < j < |r| ensures key(r[i]) <= key(r[j]) {
          if i == 0 {
            assert r[j] in s[1..];
          }
        }
      }
    }
  }

  function Reverse<T>(s: seq<T>): seq<T> {
    if |s| == 0 then [] else Reverse(s[1..]) + [s[0]]
  }

  lemma {:induction false} ReverseAt<T>(s: seq<T>, k: nat)
    requires k < |s|
    ensures |Reverse(s)| == |s| && Reverse(s)[k] == s[|s| - 1 - k]
  {
    ReverseLength(s[1..]);
    if k < |s| - 1 {
      ReverseAt(s[1..], k);
    }
  }

  lemma {:induction false} ReverseLength<T>(s: seq<T>)
    ensures |Reverse(s)| == |s|
  {
    if |s| > 0 {
      ReverseLength(s[1..]);
    }
  }

  /** Reversing a concatenation reverses the order of its parts. */
  lemma {:induction false} ReverseAppend<T>(a: seq<T>, b: seq<T>)
    ensures Reverse(a + b) == Reverse(b) + Reverse(a)
  {
    if |a| == 0 {
      assert a + b == b;
    } else {
      assert (a + b)[1..] == a[1..] + b;
      ReverseAppend(a[1..], b);
    }
  }

  /** Reversal holds exactly the same elements. */
  lemma ReverseMembers<T>(s: seq<T>, x: T)
    ensures x in Reverse(s) <==> x in s
  {
    ReverseLength(s);
    if x in s {
      var k :| 0 <= k < |s| && s[k] == x;
      ReverseAt(s, |s| - 1 - k);
    }
    if x in Reverse(s) {
      var k :| 0 <= k < |Reverse(s)| && Reverse(s)[k] == x;
      ReverseAt(s, k);
    }
  }

  /** Reversing an ascending sequence gives a descending one: the table order
      "oldest first" read backwards is "newest first". */
  lemma ReverseAscending<T>(s: seq<T>, key: T -> int)
    requires Ascending(s, key)
    ensures Descending(Reverse(s), key)
  {
    ReverseLength(s);
    var r := Reverse(s);
    forall i, j | 0 <= i < j < |r| ensures key(r[i]) >= key(r[j]) {
      ReverseAt(s, i);
      ReverseAt(s, j);
    }
  }
}
