/** Vocabulary construction (model.go, NewModel): the distinct runes of all
    documents in ascending order, followed by one control token whose id is
    the number of runes. */
module Vocabulary {

  predicate StrictlySorted(s: seq<char>) {
    forall i, j | 0 <= i < j < |s| :: s[i] < s[j]
  }

  function CharSet(s: seq<char>): set<char> {
    set c | c in s
  }

  /** Every rune of every document. */
  function Alphabet(docs: seq<seq<char>>): (a: set<char>)
    ensures forall c :: c in a <==> exists d | d in docs :: c in d
  {
    if |docs| == 0 then {}
    else
      var rest := Alphabet(docs[..|docs| - 1]);
      assert forall d | d in docs :: d in docs[..|docs| - 1] || d == docs[|docs| - 1];
      rest + CharSet(docs[|docs| - 1])
  }

  /** Insert `c` into a strictly sorted sequence, unless it is already there. */
  function Insert(s: seq<char>, c: char): (r: seq<char>)
    requires StrictlySorted(s)
    ensures StrictlySorted(r)
    ensures CharSet(r) == CharSet(s) + {c}
  {
    if |s| == 0 then [c]
    else if c == s[0] then s
    else if c < s[0] then [c] + s
    else
      var t := Insert(s[1..], c);
      ConsSorted(s, c, t);
      [s[0]] + t
  }

  lemma ConsSorted(s: seq<char>, c: char, t: seq<char>)
    requires StrictlySorted(s) && |s| > 0 && s[0] < c
    requires StrictlySorted(t) && CharSet(t) == CharSet(s[1..]) + {c}
    ensures StrictlySorted([s[0]] + t)
    ensures CharSet([s[0]] + t) == CharSet(s) + {c}
  {
    assert s == [s[0]] + s[1..];
    assert CharSet(s) == {s[0]} + CharSet(s[1..]);
    assert CharSet([s[0]] + t) == {s[0]} + CharSet(t);
    forall i | 0 <= i < |t|
      ensures s[0] < t[i]
    {
      assert t[i] in CharSet(t);
    }
  }

  function InsertAll(s: seq<char>, doc: seq<char>): (r: seq<char>)
    requires StrictlySorted(s)
    ensures StrictlySorted(r)
    ensures CharSet(r) == CharSet(s) + CharSet(doc)
  {
    if |doc| == 0 then s
    else
      assert CharSet(doc) == CharSet(doc[..|doc| - 1]) + {doc[|doc| - 1]};
      Insert(InsertAll(s, doc[..|doc| - 1]), doc[|doc| - 1])
  }

  /** The sorted, duplicate-free rune list of the documents. */
  function BuildChars(docs: seq<seq<char>>): (chars: seq<char>)
    ensures StrictlySorted(chars)
    ensures CharSet(chars) == Alphabet(docs)
  {
    if |docs| == 0 then []
    else InsertAll(BuildChars(docs[..|docs| - 1]), docs[|docs| - 1])
  }

  /** A strictly sorted list is fixed by its set of elements: so the list
      above is the one that sorting the set of distinct runes produces. */
  lemma {:induction false} SortedUnique(a: seq<char>, b: seq<char>)
    requires StrictlySorted(a) && StrictlySorted(b)
    requires CharSet(a) == CharSet(b)
    ensures a == b
    decreases |a|
  {
    assert |a| > 0 ==> a[0] in CharSet(a);
    assert |b| > 0 ==> b[0] in CharSet(b);
    if |a| > 0 && |b| > 0 {
      assert a[0] in CharSet(b);
      assert b[0] in CharSet(a);
      assert a[0] == b[0];
      assert CharSet(a[1..]) == CharSet(a) - {a[0]};
      assert CharSet(b[1..]) == CharSet(b) - {b[0]};
      SortedUnique(a[1..], b[1..]);
      assert a == [a[0]] + a[1..] && b == [b[0]] + b[1..];
    }
  }

  /** The vocabulary has one entry per distinct rune of the documents. */
  lemma {:induction false} SortedCardinality(s: seq<char>)
    requires StrictlySorted(s)
    ensures |CharSet(s)| == |s|
    decreases |s|
  {
    if |s| > 0 {
      assert CharSet(s) == {s[0]} + CharSet(s[1..]);
      assert s[0] !in CharSet(s[1..]);
      SortedCardinality(s[1..]);
    }
  }
}
