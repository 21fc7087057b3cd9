/** The transcript assembler at the end of
    `chunkAndTranscribeAudioParallel`: the `{ index, text }` pairs
    collected from the chunk workers are sorted in place by `index`,
    mapped to their `text`, joined with `'\n'` and trimmed. */
module Transcript {
  import opened JsStrings

  /** `{ index, text }`: the text Whisper returned for one chunk. */
  datatype PartialTranscript = PartialTranscript(index: nat, text: string)

  predicate SortedByIndex(s: seq<PartialTranscript>) {
    forall i, j :: 0 <= i < j < |s| ==> s[i].index <= s[j].index
  }

  predicate DistinctIndices(s: seq<PartialTranscript>) {
    forall i, j :: 0 <= i < j < |s| ==> s[i].index != s[j].index
  }

  /** `partialTranscripts.map((pt) => pt.text)` */
  function Texts(s: seq<PartialTranscript>): (texts: seq<string>)
    ensures |texts| == |s|
    ensures forall i :: 0 <= i < |s| ==> texts[i] == s[i].text
  {
    seq(|s|, i requires 0 <= i < |s| => s[i].text)
  }

  /** `.map((pt) => pt.text).join('\n').trim()` over pairs already in
      the order they are to appear. */
  function JoinTexts(s: seq<PartialTranscript>): (r: string)
    ensures s == [] ==> r == ""
    ensures |s| == 1 ==> r == Trim(s[0].text)
    ensures r != [] ==> !IsWhitespace(r[0]) && !IsWhitespace(r[|r| - 1])
  {
    Trim(Join(Texts(s), "\n"))
  }

  /** Inserting one pair into a sequence sorted by index, after every
      pair whose index is smaller. */
  function Insert(p: PartialTranscript, s: seq<PartialTranscript>): (r: seq<PartialTranscript>)
    requires SortedByIndex(s)
    ensures SortedByIndex(r)
    ensures multiset(r) == multiset(s) + multiset{p}
    ensures |r| == |s| + 1 && (r[0] == p || (s != [] && r[0] == s[0]))
  {
    if s == [] || p.index <= s[0].index then
      PrependSorted(p, s);
      [p] + s
    else
      var rest := Insert(p, s[1..]);
      PrependSorted(s[0], rest);
      HeadAndTail(s);
      [s[0]] + rest
  }

  lemma PrependSorted(x: PartialTranscript, s: seq<PartialTranscript>)
    requires SortedByIndex(s)
    requires s != [] ==> x.index <= s[0].index
    ensures SortedByIndex([x] + s)
  {
  }

  lemma HeadAndTail(s: seq<PartialTranscript>)
    requires s != []
    ensures s == [s[0]] + s[1..]
    ensures multiset(s) == multiset{s[0]} + multiset(s[1..])
  {
    assert s == [s[0]] + s[1..];
  }

  /** Reference definition of the order the assembler restores: the
      pairs sorted by ascending index (an insertion sort). */
  function InIndexOrder(s: seq<PartialTranscript>): (r: seq<PartialTranscript>)
    ensures SortedByIndex(r)
    ensures multiset(r) == multiset(s)
  {
    if s == [] then []
    else
      assert s == [s[0]] + s[1..];
      Insert(s[0], InIndexOrder(s[1..]))
  }

  /** The transcript the assembler produces from the pairs, in
      whatever order they arrived. */
  function TranscriptOf(pairs: seq<PartialTranscript>): (r: string)
    ensures pairs == [] ==> r == ""
    ensures r != [] ==> !IsWhitespace(r[0]) && !IsWhitespace(r[|r| - 1])
  {
    JoinTexts(InIndexOrder(pairs))
  }

  /** Pairs that share an index are the same pair. Unlike
      `DistinctIndices` this depends only on which pairs occur, so every
      permutation keeps it. */
  predicate IndexDetermines(s: seq<PartialTranscript>) {
    forall x, y :: x in s && y in s && x.index == y.index ==> x == y
  }

  lemma DistinctIndicesDetermine(s: seq<PartialTranscript>)
    requires DistinctIndices(s)
    ensures IndexDetermines(s)
  {
  }

  lemma IndexDeterminesOfPermutation(a: seq<PartialTranscript>, b: seq<PartialTranscript>)
    requires multiset(a) == multiset(b)
    requires IndexDetermines(a)
    ensures IndexDetermines(b)
  {
    forall x, y | x in b && y in b && x.index == y.index
      ensures x == y
    {
      assert x in multiset(b) && y in multiset(b);
      assert x in a && y in a;
    }
  }

  /** Two non-empty sorted sequences holding the same pairs start with
      the same pair, when the index determines the pair. */
  lemma SortedHeadsAgree(a: seq<PartialTranscript>, b: seq<PartialTranscript>)
    requires a != [] && b != []
    requires SortedByIndex(a) && SortedByIndex(b)
    requires multiset(a) == multiset(b)
    requires IndexDetermines(a)
    ensures a[0] == b[0]
  {
    assert a[0] in multiset(b);
    var j :| 0 <= j < |b| && b[j] == a[0];
    assert b[0] in multiset(a);
    var i :| 0 <= i < |a| && a[i] == b[0];
    assert a[0].index <= a[i].index == b[0].index <= b[j].index == a[0].index;
  }

  lemma TailsArePermutations(a: seq<PartialTranscript>, b: seq<PartialTranscript>)
    requires a != [] && b != [] && a[0] == b[0]
    requires multiset(a) == multiset(b)
    ensures multiset(a[1..]) == multiset(b[1..])
  {
    assert a == [a[0]] + a[1..];
    assert b == [b[0]] + b[1..];
    assert multiset(a[1..]) == multiset(a) - multiset{a[0]};
    assert multiset(b[1..]) == multiset(b) - multiset{b[0]};
  }

  lemma TailIndexDetermines(a: seq<PartialTranscript>)
    requires a != [] && IndexDetermines(a)
    ensures IndexDetermines(a[1..])
  {
    forall x | x in a[1..] ensures x in a { }
  }

  /** When the index determines the pair there is only one arrangement
      sorted by index: two sorted sequences holding the same pairs are
      equal. */
  lemma {:induction false} SortedPermutationUnique(a: seq<PartialTranscript>, b: seq<PartialTranscript>)
    requires SortedByIndex(a) && SortedByIndex(b)
    requires multiset(a) == multiset(b)
    requires IndexDetermines(a)
    ensures a == b
  {
    assert |b| == |multiset(b)| == |multiset(a)| == |a|;
    if a != [] {
      SortedHeadsAgree(a, b);
      TailsArePermutations(a, b);
      TailIndexDetermines(a);
      SortedTail(a);
      SortedTail(b);
      SortedPermutationUnique(a[1..], b[1..]);
      SameHeadAndTail(a, b);
    }
  }

  lemma SortedTail(a: seq<PartialTranscript>)
    requires a != [] && SortedByIndex(a)
    ensures SortedByIndex(a[1..])
  {
  }

  lemma SameHeadAndTail(a: seq<PartialTranscript>, b: seq<PartialTranscript>)
    requires a != [] && b != [] && a[0] == b[0] && a[1..] == b[1..]
    ensures a == b
  {
    assert a == [a[0]] + a[1..];
    assert b == [b[0]] + b[1..];
  }

  /** Order independence: pairs with distinct indices give the same
      transcript whatever order they arrived in. */
  lemma TranscriptOrderIndependent(a: seq<PartialTranscript>, b: seq<PartialTranscript>)
    requires multiset(a) == multiset(b)
    requires DistinctIndices(a)
    ensures TranscriptOf(a) == TranscriptOf(b)
  {
    var sa, sb := InIndexOrder(a), InIndexOrder(b);
    DistinctIndicesDetermine(a);
    IndexDeterminesOfPermutation(a, sa);
    SortedPermutationUnique(sa, sb);
  }

  /** Pairs that arrive already in index order are joined as they are. */
  lemma TranscriptOfOrdered(pairs: seq<PartialTranscript>)
    requires forall i :: 0 <= i < |pairs| ==> pairs[i].index == i
    ensures TranscriptOf(pairs) == JoinTexts(pairs)
  {
    var s := InIndexOrder(pairs);
    DistinctIndicesDetermine(pairs);
    IndexDeterminesOfPermutation(pairs, s);
    SortedPermutationUnique(s, pairs);
  }

  /** Exchanges a pair with the one before it. */
  method SwapWithPrevious(a: array<PartialTranscript>, j: int)
    requires 0 < j < a.Length
    modifies a
    ensures a[j - 1] == old(a[j]) && a[j] == old(a[j - 1])
    ensures forall m :: 0 <= m < a.Length && m != j - 1 && m != j ==> a[m] == old(a[m])
    ensures multiset(a[..]) == old(multiset(a[..]))
  {
    a[j - 1], a[j] := a[j], a[j - 1];
  }

  /** One insertion step: with `a[..i]` sorted, moves `a[i]` down past
      every pair with a larger index, so that `a[..i + 1]` is sorted. */
  method SinkIntoPlace(a: array<PartialTranscript>, i: int)
    requires 0 <= i < a.Length
    requires forall k, l :: 0 <= k < l < i ==> a[k].index <= a[l].index
    modifies a
    ensures forall k, l :: 0 <= k < l <= i ==> a[k].index <= a[l].index
    ensures forall m :: i < m < a.Length ==> a[m] == old(a[m])
    ensures multiset(a[..]) == old(multiset(a[..]))
  {
    var j := i;
    while j > 0 && a[j - 1].index > a[j].index
      invariant 0 <= j <= i
      invariant forall m :: i < m < a.Length ==> a[m] == old(a[m])
      invariant forall k, l :: 0 <= k < l <= i && k != j && l != j ==> a[k].index <= a[l].index
      invariant forall l :: j < l <= i ==> a[j].index <= a[l].index
      invariant multiset(a[..]) == old(multiset(a[..]))
    {
      SwapWithPrevious(a, j);
      j := j - 1;
    }
  }

  /** `partialTranscripts.sort((a, b) => a.index - b.index)`: an in-place
      sort by ascending index (insertion sort; stable, as V8's sort is). */
  method SortByIndex(a: array<PartialTranscript>)
    modifies a
    ensures SortedByIndex(a[..])
    ensures multiset(a[..]) == old(multiset(a[..]))
  {
    var i := 0;
    while i < a.Length
      invariant 0 <= i <= a.Length
      invariant forall k, l :: 0 <= k < l < i ==> a[k].index <= a[l].index
      invariant multiset(a[..]) == old(multiset(a[..]))
    {
      SinkIntoPlace(a, i);
      i := i + 1;
    }
  }

  /** The assembler: sort the collected pairs in place, then map, join
      and trim. For pairs with distinct indices the result is the
      reference transcript of the pairs as they arrived. */
  method AssembleTranscript(a: array<PartialTranscript>) returns (transcript: string)
    modifies a
    ensures SortedByIndex(a[..]) && multiset(a[..]) == old(multiset(a[..]))
    ensures transcript == JoinTexts(a[..])
    ensures DistinctIndices(old(a[..])) ==> transcript == TranscriptOf(old(a[..]))
  {
    ghost var arrived := a[..];
    SortByIndex(a);
    transcript := JoinTexts(a[..]);
    if DistinctIndices(arrived) {
      var reference := InIndexOrder(arrived);
      DistinctIndicesDetermine(arrived);
      IndexDeterminesOfPermutation(arrived, a[..]);
      SortedPermutationUnique(a[..], reference);
    }
  }

  /** No chunks, no text: the transcript of an empty collection is "". */
  lemma EmptyTranscript()
    ensures TranscriptOf([]) == ""
  {
  }

  lemma JoinFour(t0: string, t1: string, t2: string, t3: string)
    ensures Join([t0, t1, t2, t3], "\n") == t0 + "\n" + t1 + "\n" + t2 + "\n" + t3
  {
    assert Join([t3], "\n") == t3;
    assert Join([t2, t3], "\n") == t2 + "\n" + t3;
    assert Join([t1, t2, t3], "\n") == t1 + "\n" + t2 + "\n" + t3;
  }

  lemma JoinFourTexts(ordered: seq<PartialTranscript>, t0: string, t1: string, t2: string, t3: string)
    requires ordered == [PartialTranscript(0, t0), PartialTranscript(1, t1),
                         PartialTranscript(2, t2), PartialTranscript(3, t3)]
    ensures JoinTexts(ordered) == Trim(t0 + "\n" + t1 + "\n" + t2 + "\n" + t3)
  {
    assert Texts(ordered) == [t0, t1, t2, t3];
    JoinFour(t0, t1, t2, t3);
  }

  lemma FourInOrder(ordered: seq<PartialTranscript>, t0: string, t1: string, t2: string, t3: string)
    requires ordered == [PartialTranscript(0, t0), PartialTranscript(1, t1),
                         PartialTranscript(2, t2), PartialTranscript(3, t3)]
    ensures TranscriptOf(ordered) == Trim(t0 + "\n" + t1 + "\n" + t2 + "\n" + t3)
  {
    TranscriptOfOrdered(ordered);
    JoinFourTexts(ordered, t0, t1, t2, t3);
  }

  /** Four chunks arriving in the order 2, 0, 3, 1 are put back in
      index order before their texts are joined. */
  lemma FourChunksOutOfOrder(arrived: seq<PartialTranscript>, t0: string, t1: string, t2: string, t3: string)
    requires arrived == [PartialTranscript(2, t2), PartialTranscript(0, t0),
                         PartialTranscript(3, t3), PartialTranscript(1, t1)]
    ensures TranscriptOf(arrived) == Trim(t0 + "\n" + t1 + "\n" + t2 + "\n" + t3)
  {
    var ordered := [PartialTranscript(0, t0), PartialTranscript(1, t1),
                    PartialTranscript(2, t2), PartialTranscript(3, t3)];
    ArrivalOrderIsPermutation(ordered[0], ordered[1], ordered[2], ordered[3]);
    CountingIndicesAreDistinct(ordered);
    TranscriptOrderIndependent(ordered, arrived);
    FourInOrder(ordered, t0, t1, t2, t3);
  }

  /** Arriving in the order 2, 0, 3, 1 is a permutation of 0, 1, 2, 3. */
  lemma ArrivalOrderIsPermutation<T>(a: T, b: T, c: T, d: T)
    ensures multiset([c, a, d, b]) == multiset([a, b, c, d])
  {
  }

  lemma CountingIndicesAreDistinct(ordered: seq<PartialTranscript>)
    requires forall i :: 0 <= i < |ordered| ==> ordered[i].index == i
    ensures DistinctIndices(ordered)
  {
  }

  lemma TrimMockedTranscript()
    ensures Trim("seg0" + "\n" + "seg1" + "\n" + "seg2" + "\n" + "seg3") == "seg0\nseg1\nseg2\nseg3"
  {
    var joined := "seg0\nseg1\nseg2\nseg3";
    assert "seg0" + "\n" + "seg1" + "\n" + "seg2" + "\n" + "seg3" == joined;
    assert joined[0] == 's' && joined[|joined| - 1] == '3';
    TrimKeepsTrimmed(joined);
  }

  /** Whisper's texts "seg0" to "seg3", arriving out of order, give
      "seg0\nseg1\nseg2\nseg3". */
  lemma FourMockedSegments(arrived: seq<PartialTranscript>)
    requires arrived == [PartialTranscript(2, "seg2"), PartialTranscript(0, "seg0"),
                         PartialTranscript(3, "seg3"), PartialTranscript(1, "seg1")]
    ensures TranscriptOf(arrived) == "seg0\nseg1\nseg2\nseg3"
  {
    FourChunksOutOfOrder(arrived, "seg0", "seg1", "seg2", "seg3");
    TrimMockedTranscript();
  }
}
