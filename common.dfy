/** Values and JavaScript idioms shared by every module of the model. */
module Common {

  datatype Option<+T> = None | Some(value: T)

  /** A call that either returns a value or throws an Error carrying a message. */
  datatype Result<+T> = Ok(value: T) | Err(msg: string)

  /** Firestore document ids; the model issues them from a counter. */
  type Id = nat

  /** A resolved `serverTimestamp()`: the value of the store's write counter. */
  type Timestamp = nat

  /**
    The names a plain object literal answers through Object.prototype
    without having them as own properties: `obj[name]` finds an inherited
    method, or for "__proto__" the prototype object itself.
   */
  predicate ProtoKey(name: string)
  {
    name in {"constructor", "__proto__", "hasOwnProperty", "isPrototypeOf", "propertyIsEnumerable",
             "toLocaleString", "toString", "valueOf",
             "__defineGetter__", "__defineSetter__", "__lookupGetter__", "__lookupSetter__"}
  }

  /** JavaScript `a || b` on strings: the empty string is falsy. */
  function OrElse(a: string, b: string): string
  {
    if a != "" then a else b
  }

  /** JavaScript `a || b` on an optional string (undefined, null and "" are falsy). */
  function OptOrElse(a: Option<string>, b: string): string
  {
    if a.Some? then OrElse(a.value, b) else b
  }

  /** JavaScript `a || b` on an optional number (undefined and 0 are falsy). */
  function NumOr(a: Option<int>, b: int): int
  {
    if a.Some? && a.value != 0 then a.value else b
  }

  /** JavaScript `x || null` on an optional string. */
  function NonEmptyOrNull(a: Option<string>): Option<string>
  {
    if a.Some? && a.value != "" then a else None
  }

  /** The characters ECMAScript calls WhiteSpace or LineTerminator (used by trim and parseInt). */
  predicate IsJsWhitespace(c: char)
  {
    c == '\t' || c == '\n' || c == '\U{B}' || c == '\U{C}' || c == '\r' || c == ' '
    || c == '\U{A0}' || c == '\U{1680}' || ('\U{2000}' <= c <= '\U{200A}')
    || c == '\U{2028}' || c == '\U{2029}' || c == '\U{202F}' || c == '\U{205F}'
    || c == '\U{3000}' || c == '\U{FEFF}'
  }

  /** `s.trimStart()`. */
  function TrimStart(s: string): (r: string)
    ensures |r| <= |s| && r == s[|s| - |r|..]
    ensures r == [] || !IsJsWhitespace(r[0])
    ensures forall i :: 0 <= i < |s| - |r| ==> IsJsWhitespace(s[i])
  {
    if s != [] && IsJsWhitespace(s[0]) then TrimStart(s[1..]) else s
  }

  /** `!s.trim()`: the string is empty or whitespace only. */
  predicate IsBlank(s: string)
  {
    forall i :: 0 <= i < |s| ==> IsJsWhitespace(s[i])
  }

  /** `String.prototype.toLowerCase` on the ASCII letters. */
  function LowerChar(c: char): char
  {
    if 'A' <= c <= 'Z' then (c as int + 32) as char else c
  }

  function Lower(s: string): (r: string)
    ensures |r| == |s|
    ensures forall i :: 0 <= i < |s| ==> r[i] == LowerChar(s[i])
  {
    if s == [] then [] else [LowerChar(s[0])] + Lower(s[1..])
  }

  predicate StartsWith(s: string, prefix: string)
  {
    |prefix| <= |s| && s[..|prefix|] == prefix
  }

  /** `hay.includes(needle)`. */
  predicate Includes(hay: string, needle: string)
  {
    StartsWith(hay, needle) || (hay != [] && Includes(hay[1..], needle))
  }

  /** `a` keeps some of the elements of `b`, in their order. */
  predicate IsSubsequence<T(==)>(a: seq<T>, b: seq<T>)
    decreases |b|
  {
    a == [] || (b != [] && ((a[0] == b[0] && IsSubsequence(a[1..], b[1..])) || IsSubsequence(a, b[1..])))
  }

  lemma {:induction false} SubsequenceReflexive<T>(a: seq<T>)
    ensures IsSubsequence(a, a)
    decreases |a|
  {
    if a != [] {
      SubsequenceReflexive(a[1..]);
    }
  }

  lemma {:induction false} SubsequenceTransitive<T>(a: seq<T>, b: seq<T>, c: seq<T>)
    requires IsSubsequence(a, b) && IsSubsequence(b, c)
    ensures IsSubsequence(a, c)
    decreases |c|, |b|
  {
    if a == [] {
    } else if a[0] == b[0] && IsSubsequence(a[1..], b[1..]) {
      if b[0] == c[0] && IsSubsequence(b[1..], c[1..]) {
        SubsequenceTransitive(a[1..], b[1..], c[1..]);
      } else {
        SubsequenceTransitive(a, b, c[1..]);
      }
    } else {
      // a is a subsequence of b[1..], which is itself a subsequence of c
      assert IsSubsequence(a, b[1..]);
      SubsequenceDropFirst(b, c);
      SubsequenceTransitive(a, b[1..], c);
    }
  }

  lemma {:induction false} SubsequenceDropFirst<T>(b: seq<T>, c: seq<T>)
    requires b != [] && IsSubsequence(b, c)
    ensures IsSubsequence(b[1..], c)
    decreases |c|
  {
    if b[0] == c[0] && IsSubsequence(b[1..], c[1..]) {
      SubsequenceSkip(b[1..], c);
    } else {
      SubsequenceDropFirst(b, c[1..]);
      SubsequenceSkip(b[1..], c);
    }
  }

  lemma SubsequenceSkip<T>(a: seq<T>, c: seq<T>)
    requires c != [] && IsSubsequence(a, c[1..])
    ensures IsSubsequence(a, c)
  {
  }

  /** `s.filter(keep)`. */
  function Filter<T>(s: seq<T>, keep: T -> bool): (r: seq<T>)
    ensures |r| <= |s|
    ensures forall i :: 0 <= i < |r| ==> r[i] in s && keep(r[i])
    ensures forall i :: 0 <= i < |s| && keep(s[i]) ==> s[i] in r
    ensures IsSubsequence(r, s)
  {
    if s == [] then []
    else if keep(s[0]) then [s[0]] + Filter(s[1..], keep)
    else Filter(s[1..], keep)
  }

  /** An element survives the filter exactly when it was there and passes. */
  lemma {:induction false} FilterMember<T>(s: seq<T>, keep: T -> bool, x: T)
    ensures x in Filter(s, keep) <==> x in s && keep(x)
  {
    if s != [] {
      FilterMember(s[1..], keep, x);
      assert x in s <==> x == s[0] || x in s[1..];
    }
  }

  /** `s` is ordered by `key`, largest first. */
  predicate DescendingBy<T>(s: seq<T>, key: T -> int)
  {
    forall p, q :: 0 <= p < q < |s| ==> key(s[p]) >= key(s[q])
  }

  /**
    `Array.prototype.sort` with a comparator `(x, y) => key(y) - key(x)`:
    an insertion sort that rearranges `a` in place, largest key first.
   */
  method SortDescendingBy<T>(a: array<T>, key: T -> int)
    modifies a
    ensures DescendingBy(a[..], key)
    ensures multiset(a[..]) == multiset(old(a[..]))
  {
    var i := 0;
    while i < a.Length
      invariant i <= a.Length
      invariant DescendingBy(a[..i], key)
      invariant multiset(a[..]) == multiset(old(a[..]))
    {
      InsertDescending(a, i, key);
      i := i + 1;
    }
    assert a[..i] == a[..];
  }

  /** Moves `a[i]` left past every entry with a smaller key, so that `a[..i + 1]` is ordered. */
  method InsertDescending<T>(a: array<T>, i: nat, key: T -> int)
    requires i < a.Length
    requires DescendingBy(a[..i], key)
    modifies a
    ensures DescendingBy(a[..i + 1], key)
    ensures multiset(a[..]) == multiset(old(a[..]))
  {
    var j: nat := i;
    InsertionStarts(a[..], i, key);
    while j > 0 && key(a[j - 1]) < key(a[j])
      invariant Inserting(a[..], i, j, key)
      invariant multiset(a[..]) == multiset(old(a[..]))
    {
      ghost var s := a[..];
      a[j - 1], a[j] := a[j], a[j - 1];
      assert a[..] == Swap(s, j);
      InsertionSwaps(s, i, j, key);
      j := j - 1;
    }
    InsertionEnds(a[..], i, j, key);
  }

  /** `s` with the entries at `j - 1` and `j` exchanged. */
  function Swap<T>(s: seq<T>, j: nat): (r: seq<T>)
    requires 0 < j < |s|
    ensures |r| == |s| && r[j - 1] == s[j] && r[j] == s[j - 1]
    ensures forall k :: 0 <= k < |s| && k != j - 1 && k != j ==> r[k] == s[k]
    ensures multiset(r) == multiset(s)
  {
    s[j - 1 := s[j]][j := s[j - 1]]
  }

  /**
    The state of one insertion: `s[..i + 1]` is ordered once the entry at `j`
    is left out, and that entry has a larger key than everything after it.
   */
  predicate Inserting<T>(s: seq<T>, i: nat, j: nat, key: T -> int)
  {
    && j <= i < |s|
    && (forall p, q :: 0 <= p < q <= i && p != j && q != j ==> key(s[p]) >= key(s[q]))
    && (forall q :: j < q <= i ==> key(s[j]) > key(s[q]))
  }

  lemma InsertionStarts<T>(s: seq<T>, i: nat, key: T -> int)
    requires i < |s| && DescendingBy(s[..i], key)
    ensures Inserting(s, i, i, key)
  {
    forall p, q | 0 <= p < q <= i && p != i && q != i
      ensures key(s[p]) >= key(s[q])
    {
      assert s[..i][p] == s[p] && s[..i][q] == s[q];
    }
  }

  lemma InsertionSwaps<T>(s: seq<T>, i: nat, j: nat, key: T -> int)
    requires Inserting(s, i, j, key) && 0 < j && key(s[j - 1]) < key(s[j])
    ensures Inserting(Swap(s, j), i, j - 1, key)
  {
  }

  lemma InsertionEnds<T>(s: seq<T>, i: nat, j: nat, key: T -> int)
    requires Inserting(s, i, j, key) && (j == 0 || key(s[j - 1]) >= key(s[j]))
    ensures DescendingBy(s[..i + 1], key)
  {
    forall p, q | 0 <= p < q <= i
      ensures key(s[p]) >= key(s[q])
    {
      if p == j {
      } else if q == j {
        assert key(s[p]) >= key(s[j - 1]);
      }
    }
  }
}
