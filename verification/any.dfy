/**
 * The numeric, range and grapheme helpers of `src/any.rs` that the scroll engine
 * relies on.
 *
 * Text is modelled after grapheme segmentation: a string is its UTF-8 bytes
 * together with the start byte of each extended grapheme cluster (Unicode
 * Standard Annex #29). The segmentation itself is taken as given.
 */
module Any {

  datatype Option<+T> = None | Some(value: T)

  datatype Result<+T, +E> = Ok(value: T) | Err(error: E)

  const U16_MAX: nat := 0xFFFF
  const USIZE_MAX: nat := 0xFFFF_FFFF_FFFF_FFFF

  type u16 = x: int | 0 <= x <= 0xFFFF
  type usize = x: int | 0 <= x <= 0xFFFF_FFFF_FFFF_FFFF
  type byte = x: int | 0 <= x < 0x100

  /** A UTF-8 continuation byte (`10xxxxxx`): never the first byte of a character. */
  predicate IsContinuation(b: byte) {
    0x80 <= b < 0xC0
  }

  function Min(a: int, b: int): int { if a <= b then a else b }
  function Max(a: int, b: int): int { if a <= b then b else a }

  // ---------------------------------------------------------------------------
  // Saturating arithmetic on a bounded unsigned type whose maximum is `typeMax`.

  function SaturatingAdd(a: nat, b: nat, typeMax: nat): nat {
    if a + b <= typeMax then a + b else typeMax
  }

  function SaturatingSub(a: nat, b: nat): nat {
    if b <= a then a - b else 0
  }

  /**
   * `*self = self.saturating_add(&rhs).min(max_value)`: the new value of `self`.
   * All three operands have the same type, so the type's own saturation can never
   * be what decides the result: it is `value + rhs` capped at `max_value`.
   */
  function SaturatingAddInPlaceWithMax(value: nat, rhs: nat, maxValue: nat, typeMax: nat): (r: nat)
    requires value <= typeMax && rhs <= typeMax && maxValue <= typeMax
    ensures r <= maxValue
    ensures r == Min(value + rhs, maxValue)
    ensures r == value + rhs <==> value + rhs <= maxValue
  {
    Min(SaturatingAdd(value, rhs, typeMax), maxValue)
  }

  /**
   * `*self = self.saturating_sub(&rhs).min(max_value)`: the new value of `self`.
   * It never exceeds `max_value` nor the old value; a value above `max_value` is
   * pulled down to it even when `rhs` is 0.
   */
  function SaturatingSubInPlaceWithMax(value: nat, rhs: nat, maxValue: nat): (r: nat)
    ensures r <= maxValue && r <= value
    ensures r == Min(Max(value - rhs, 0), maxValue)
    ensures value <= maxValue ==> r == Max(value - rhs, 0)
  {
    Min(SaturatingSub(value, rhs), maxValue)
  }

  /**
   * `cast::<T>()`: the conversion `T::from` when the number is representable in
   * the target range `[lo, hi]`, otherwise the target's maximum. A number BELOW
   * the range also gives the maximum.
   */
  function Cast(x: int, lo: int, hi: int): (r: int)
    requires lo <= hi
    ensures lo <= r <= hi
    ensures lo <= x <= hi ==> r == x
    ensures !(lo <= x <= hi) ==> r == hi
  {
    if lo <= x <= hi then x else hi
  }

  /** `cast::<u16>()` of a count, as used for widths and heights. */
  function CastU16(n: nat): (r: u16)
    ensures r == Min(n, U16_MAX)
  {
    Cast(n, 0, U16_MAX)
  }

  /** An unsigned cast of a negative number gives the maximum, not 0. */
  lemma CastOfNegativeIsMax(x: int, hi: nat)
    requires x < 0
    ensures Cast(x, 0, hi) == hi
  {
  }

  // ---------------------------------------------------------------------------
  // Ranges

  /** `begin..end`, a half-open range of `usize` indices. */
  datatype HalfOpen = HalfOpen(start: nat, end: nat) {
    predicate Contains(i: nat) { start <= i < end }
    function Len(): nat { if start <= end then end - start else 0 }
  }

  /** `begin.range(len)`: the half-open range of `len` indices starting at `begin`. */
  function Range(begin: nat, len: nat): (r: HalfOpen)
    ensures r.Len() == len && r.start == begin
    ensures forall i: nat :: r.Contains(i) <==> begin <= i < begin + len
  {
    HalfOpen(begin, begin + len)
  }

  /** `std::ops::Bound<&usize>`. */
  datatype Bound = Included(idx: usize) | Excluded(idx: usize) | Unbounded

  /** A value implementing `RangeBounds<usize>`, seen through its two bounds. */
  datatype RangeBounds = RangeBounds(startBound: Bound, endBound: Bound)

  /** The `RangeBounds` of `r.start..r.end`. */
  function FromHalfOpen(r: HalfOpen): RangeBounds
    requires r.start <= USIZE_MAX && r.end <= USIZE_MAX
  {
    RangeBounds(Included(r.start), Excluded(r.end))
  }

  /**
   * `indices(text)`: the pair `(begin, end)` of a range's bounds. An excluded
   * start and an included end are moved one up (saturating at `usize::MAX`); an
   * unbounded start is 0 and an unbounded end is the text's BYTE length.
   */
  function Indices(bounds: RangeBounds, textLen: usize): (r: (usize, usize))
    ensures bounds.startBound.Unbounded? ==> r.0 == 0
    ensures bounds.startBound.Included? ==> r.0 == bounds.startBound.idx
    ensures bounds.startBound.Excluded? ==> r.0 == Min(bounds.startBound.idx + 1, USIZE_MAX)
    ensures bounds.endBound.Unbounded? ==> r.1 == textLen
    ensures bounds.endBound.Excluded? ==> r.1 == bounds.endBound.idx
    ensures bounds.endBound.Included? ==> r.1 == Min(bounds.endBound.idx + 1, USIZE_MAX)
  {
    var begin := match bounds.startBound
      case Included(idx) => idx
      case Excluded(idx) => SaturatingAdd(idx, 1, USIZE_MAX)
      case Unbounded => 0;
    var end := match bounds.endBound
      case Included(idx) => SaturatingAdd(idx, 1, USIZE_MAX)
      case Excluded(idx) => idx
      case Unbounded => textLen;
    (begin, end)
  }

  /** A range made by `range` comes back unchanged from `indices`. */
  lemma IndicesOfRange(begin: nat, len: nat, textLen: usize)
    requires begin + len <= USIZE_MAX
    ensures Indices(FromHalfOpen(Range(begin, len)), textLen) == (begin, begin + len)
  {
  }

  /** `begin..=last` covers the same indices as `begin..last + 1`. */
  lemma IndicesOfInclusive(begin: usize, last: usize, textLen: usize)
    requires last < USIZE_MAX
    ensures Indices(RangeBounds(Included(begin), Included(last)), textLen)
         == Indices(RangeBounds(Included(begin), Excluded(last + 1)), textLen)
  {
  }

  // ---------------------------------------------------------------------------
  // Iterator adaptors, on the sequence an iterator would yield

  /** `iter.skip(k)`. */
  function Skip<T>(s: seq<T>, k: nat): seq<T> {
    if k >= |s| then [] else s[k..]
  }

  /** `iter.take(n)`. */
  function Take<T>(s: seq<T>, n: nat): seq<T> {
    if n >= |s| then s else s[..n]
  }

  /** `Iterator::last`. */
  function LastOf<T>(s: seq<T>): Option<T> {
    if |s| == 0 then None else Some(s[|s| - 1])
  }

  /**
   * `first_and_last()`: `None` for an empty iterator, otherwise the first item
   * and the last one; with a single item both are that item.
   */
  function FirstAndLast<T>(s: seq<T>): (r: Option<(T, T)>)
    ensures r.None? <==> |s| == 0
    ensures r.Some? ==> r.value == (s[0], s[|s| - 1])
    ensures |s| == 1 ==> r == Some((s[0], s[0]))
  {
    if |s| == 0 then None
    else
      var first := s[0];
      match LastOf(s[1..])
      case Some(last) => Some((first, last))
      case None => Some((first, first))
  }

  // ---------------------------------------------------------------------------
  // Grapheme clusters

  /**
   * A `&str` together with its extended grapheme clusters: `starts[i]` is the
   * byte at which cluster `i` begins, as `grapheme_indices(true)` reports it.
   */
  datatype Graphemes = Graphemes(bytes: seq<byte>, starts: seq<nat>)

  /**
   * What a segmentation of a string always satisfies: clusters are non-empty,
   * in order, cover the whole string and begin on character boundaries.
   */
  predicate WellSegmented(g: Graphemes) {
    && (|g.starts| == 0 <==> |g.bytes| == 0)
    && (|g.starts| > 0 ==> g.starts[0] == 0)
    && (forall i, j :: 0 <= i < j < |g.starts| ==> g.starts[i] < g.starts[j])
    && (forall i :: 0 <= i < |g.starts| ==> g.starts[i] < |g.bytes| && !IsContinuation(g.bytes[g.starts[i]]))
  }

  /** A segmented text. */
  type Text = g: Graphemes | WellSegmented(g) witness Graphemes([], [])

  /** A Rust `&str`: a segmented text of at most `usize::MAX` bytes. */
  type Str = t: Text | |t.bytes| <= USIZE_MAX witness Graphemes([], [])

  /** A text of one-byte clusters, one per byte (ASCII text, say). */
  predicate SingleByteClusters(t: Text) {
    |t.starts| == |t.bytes|
  }

  /** `len_graphemes`: the number of extended grapheme clusters. */
  function LenGraphemes(t: Text): (r: nat)
    ensures r <= |t.bytes|
  {
    ClusterCountAtMostByteLength(t);
    |t.starts|
  }

  /** Every cluster holds at least one byte, so there are at most as many clusters as bytes. */
  lemma ClusterCountAtMostByteLength(t: Text)
    ensures |t.starts| <= |t.bytes|
  {
    if |t.starts| > 0 {
      StartsAtLeastRest(t, 0);
    }
  }

  /** Cluster `i` starts no earlier than byte `i`: every cluster holds at least one byte. */
  lemma {:induction false} StartsAtLeastIndex(t: Text, i: nat)
    requires i < |t.starts|
    ensures t.starts[i] >= i
  {
    if i > 0 {
      StartsAtLeastIndex(t, i - 1);
    }
  }

  /** The byte where cluster `i` starts; `Boundary(t, count)` is the text's end. */
  function Boundary(t: Text, i: nat): (r: nat)
    requires i <= |t.starts|
    ensures r <= |t.bytes|
  {
    if i < |t.starts| then t.starts[i] else |t.bytes|
  }

  /** Boundaries strictly increase, so every cluster is a non-empty run of bytes. */
  lemma BoundaryIncreasing(t: Text, i: nat, j: nat)
    requires i < j <= |t.starts|
    ensures Boundary(t, i) < Boundary(t, j)
  {
  }

  /** Boundaries never decrease. */
  lemma BoundaryMonotone(t: Text, i: nat, j: nat)
    requires i <= j <= |t.starts|
    ensures Boundary(t, i) <= Boundary(t, j)
  {
    if i < j {
      BoundaryIncreasing(t, i, j);
    }
  }

  /** Cluster `i` of the text. */
  function Cluster(t: Text, i: nat): (r: seq<byte>)
    requires i < |t.starts|
    ensures |r| > 0 && !IsContinuation(r[0])
  {
    BoundaryIncreasing(t, i, i + 1);
    t.bytes[Boundary(t, i)..Boundary(t, i + 1)]
  }

  /**
   * `text.grapheme_indices(true)`. Each item `(i, s)` pairs a cluster's start
   * byte `i` with the cluster `s`, a `&str` borrowed from the text; the item is
   * the byte span `[i, i + s.len())` of `s` within the text, so `span.start` is
   * `i` and `span.Len()` is `s.len()`.
   */
  function GraphemeIndices(t: Text): (r: seq<HalfOpen>)
    ensures |r| == |t.starts|
  {
    IndicesFrom(t, 0)
  }

  /** The byte ranges of clusters `i` onwards. */
  function IndicesFrom(t: Text, i: nat): (r: seq<HalfOpen>)
    requires i <= |t.starts|
    ensures |r| == |t.starts| - i
    decreases |t.starts| - i
  {
    if i == |t.starts| then []
    else [HalfOpen(Boundary(t, i), Boundary(t, i + 1))] + IndicesFrom(t, i + 1)
  }

  /** Item `k - i` of the ranges from cluster `i` is cluster `k`'s range. */
  lemma {:induction false} IndicesFromAt(t: Text, i: nat, k: nat)
    requires i <= k < |t.starts|
    ensures IndicesFrom(t, i)[k - i] == HalfOpen(Boundary(t, k), Boundary(t, k + 1))
    decreases k - i
  {
    if i < k {
      IndicesFromAt(t, i + 1, k);
    }
  }

  /** Item `i` of `grapheme_indices` spans exactly cluster `i`. */
  lemma GraphemeIndexSpan(t: Text, i: nat)
    requires i < |t.starts|
    ensures GraphemeIndices(t)[i].start == Boundary(t, i)
    ensures GraphemeIndices(t)[i].start + GraphemeIndices(t)[i].Len() == Boundary(t, i + 1)
    ensures t.bytes[GraphemeIndices(t)[i].start..GraphemeIndices(t)[i].end] == Cluster(t, i)
  {
    IndicesFromAt(t, 0, i);
    BoundaryIncreasing(t, i, i + 1);
  }

  /** Rust's `str::is_char_boundary` on the text's bytes. */
  predicate IsCharBoundary(bytes: seq<byte>, i: nat) {
    i == 0 || i == |bytes| || (i < |bytes| && !IsContinuation(bytes[i]))
  }

  /** Cutting at a cluster boundary never cuts a character. */
  lemma BoundaryIsCharBoundary(t: Text, i: nat)
    requires i <= |t.starts|
    ensures IsCharBoundary(t.bytes, Boundary(t, i))
  {
  }

  /** The clusters `substring` selects: `grapheme_indices.skip(begin).take(end - begin)`. */
  function Selected(t: Text, bounds: RangeBounds): seq<HalfOpen>
    requires |t.bytes| <= USIZE_MAX
  {
    var ends := Indices(bounds, |t.bytes|);
    Take(Skip(GraphemeIndices(t), ends.0), SaturatingSub(ends.1, ends.0))
  }

  /** The first selected cluster index, and one past the last. */
  function SelectedFrom(t: Text, bounds: RangeBounds): nat
    requires |t.bytes| <= USIZE_MAX
  {
    Min(Indices(bounds, |t.bytes|).0, |t.starts|)
  }

  function SelectedTo(t: Text, bounds: RangeBounds): nat
    requires |t.bytes| <= USIZE_MAX
  {
    Max(SelectedFrom(t, bounds), Min(Indices(bounds, |t.bytes|).1, |t.starts|))
  }

  /** Skipping `begin` items and taking `end - begin` keeps the items in `[begin, end)`. */
  lemma SkipTakeWindow<T>(s: seq<T>, begin: nat, end: nat)
    ensures Take(Skip(s, begin), SaturatingSub(end, begin))
         == s[Min(begin, |s|)..Max(Min(begin, |s|), Min(end, |s|))]
  {
  }

  /** `substring` selects exactly the clusters with index in `[from, to)`. */
  lemma SelectedWindow(t: Text, bounds: RangeBounds)
    requires |t.bytes| <= USIZE_MAX
    ensures SelectedFrom(t, bounds) <= SelectedTo(t, bounds) <= |t.starts|
    ensures Selected(t, bounds) == GraphemeIndices(t)[SelectedFrom(t, bounds)..SelectedTo(t, bounds)]
  {
    var ends := Indices(bounds, |t.bytes|);
    SkipTakeWindow(GraphemeIndices(t), ends.0, ends.1);
  }

  /**
   * `first_and_last` of the clusters `[from, to)`: nothing when the window is
   * empty, otherwise the first one starts at boundary `from`, the last one
   * starts at boundary `to - 1` and ends at boundary `to`.
   */
  lemma WindowEnds(t: Text, from: nat, to: nat)
    requires from <= to <= |t.starts|
    ensures var fl := FirstAndLast(GraphemeIndices(t)[from..to]);
      && (fl.None? <==> from == to)
      && (fl.Some? ==>
            && fl.value.0.start == Boundary(t, from)
            && fl.value.1.start == Boundary(t, to - 1)
            && fl.value.1.start + fl.value.1.Len() == Boundary(t, to))
  {
    if from < to {
      WindowFirstAndLast(GraphemeIndices(t), from, to);
      GraphemeIndexSpan(t, from);
      GraphemeIndexSpan(t, to - 1);
    }
  }

  /** The first and last items of a non-empty window `s[from..to]` are `s[from]` and `s[to - 1]`. */
  lemma WindowFirstAndLast<T>(s: seq<T>, from: nat, to: nat)
    requires from < to <= |s|
    ensures FirstAndLast(s[from..to]) == Some((s[from], s[to - 1]))
  {
  }

  /** Why Rust's `str` slicing panics: an end past the string or before the start, or inside a character. */
  datatype SliceError = OutOfRange | NotCharBoundary(index: nat)

  /**
   * `&text[begin..=last]`: Rust panics unless `begin <= last + 1 <= len` and both
   * slice ends are character boundaries; the panic is `Err` here.
   */
  function SliceInclusive(bytes: seq<byte>, begin: nat, last: nat): (r: Result<seq<byte>, SliceError>)
    ensures r.Ok? <==> begin <= last + 1 <= |bytes| && IsCharBoundary(bytes, begin) && IsCharBoundary(bytes, last + 1)
    ensures r.Ok? ==> begin <= last + 1 <= |bytes| && r.value == bytes[begin..last + 1]
  {
    if !(begin <= last + 1 <= |bytes|) then Err(OutOfRange)
    else if !IsCharBoundary(bytes, begin) then Err(NotCharBoundary(begin))
    else if !IsCharBoundary(bytes, last + 1) then Err(NotCharBoundary(last + 1))
    else Ok(bytes[begin..last + 1])
  }

  /**
   * The second half of `substring(range)` as written, given the selected
   * clusters: the slice from the first one's start byte to the LAST one's start
   * byte plus one (`text[begin_idx..=last_idx]`). Where Rust would panic, the
   * result is `Err`.
   */
  function CutAsWritten(t: Text, selected: seq<HalfOpen>): Result<seq<byte>, SliceError> {
    var firstAndLast := FirstAndLast(selected);
    if firstAndLast.None? then Ok([])
    else SliceInclusive(t.bytes, firstAndLast.value.0.start, firstAndLast.value.1.start)
  }

  /**
   * `substring(range)` as written: nothing for an empty selection, otherwise the
   * bytes from the first selected cluster's start through the byte at which the
   * last selected cluster starts.
   */
  function SubstringAsWritten(t: Text, bounds: RangeBounds): (r: Result<seq<byte>, SliceError>)
    requires |t.bytes| <= USIZE_MAX
    ensures SelectedFrom(t, bounds) <= SelectedTo(t, bounds) <= |t.starts|
    ensures SelectedFrom(t, bounds) == SelectedTo(t, bounds) ==> r == Ok([])
    ensures SelectedFrom(t, bounds) < SelectedTo(t, bounds) ==>
      r == SliceInclusive(t.bytes, Boundary(t, SelectedFrom(t, bounds)), Boundary(t, SelectedTo(t, bounds) - 1))
  {
    SelectedWindow(t, bounds);
    CutAsWrittenWindow(t, SelectedFrom(t, bounds), SelectedTo(t, bounds));
    CutAsWritten(t, Selected(t, bounds))
  }

  /**
   * The cut as written of the clusters `[from, to)`: nothing for an empty window,
   * otherwise the bytes from boundary `from` through the byte at which the last
   * cluster starts.
   */
  lemma CutAsWrittenWindow(t: Text, from: nat, to: nat)
    requires from <= to <= |t.starts|
    ensures from == to ==> CutAsWritten(t, GraphemeIndices(t)[from..to]) == Ok([])
    ensures from < to ==>
      CutAsWritten(t, GraphemeIndices(t)[from..to]) == SliceInclusive(t.bytes, Boundary(t, from), Boundary(t, to - 1))
  {
    WindowEnds(t, from, to);
  }

  /**
   * The second half of `substring(range)` as evidently intended: the slice from
   * the first selected cluster's start to the last selected cluster's END.
   */
  function Cut(t: Text, selected: seq<HalfOpen>): seq<byte>
    requires var fl := FirstAndLast(selected);
      fl.Some? ==> fl.value.0.start <= fl.value.1.start + fl.value.1.Len() <= |t.bytes|
  {
    var firstAndLast := FirstAndLast(selected);
    if firstAndLast.None? then []
    else t.bytes[firstAndLast.value.0.start..firstAndLast.value.1.start + firstAndLast.value.1.Len()]
  }

  /** The intended cut of the clusters `[from, to)` is exactly their bytes. */
  lemma CutWindow(t: Text, from: nat, to: nat)
    requires from <= to <= |t.starts|
    ensures var fl := FirstAndLast(GraphemeIndices(t)[from..to]);
      fl.Some? ==> fl.value.0.start <= fl.value.1.start + fl.value.1.Len() <= |t.bytes|
    ensures Cut(t, GraphemeIndices(t)[from..to]) == t.bytes[Boundary(t, from)..Boundary(t, to)]
  {
    WindowEnds(t, from, to);
    BoundaryMonotone(t, from, to);
  }

  /**
   * `substring(range)` as evidently intended: exactly the bytes of the selected
   * clusters, from the first one's start to the last one's end.
   */
  function Substring(t: Text, bounds: RangeBounds): (r: seq<byte>)
    requires |t.bytes| <= USIZE_MAX
    ensures SelectedFrom(t, bounds) <= SelectedTo(t, bounds) <= |t.starts|
    ensures r == t.bytes[Boundary(t, SelectedFrom(t, bounds))..Boundary(t, SelectedTo(t, bounds))]
  {
    SelectedWindow(t, bounds);
    CutWindow(t, SelectedFrom(t, bounds), SelectedTo(t, bounds));
    Cut(t, Selected(t, bounds))
  }

  /** The range `begin..end` over cluster indices. */
  function ClusterRange(begin: usize, end: usize): RangeBounds {
    RangeBounds(Included(begin), Excluded(end))
  }

  /**
   * The range selects no cluster when it starts at or past the last cluster or
   * ends at or before its start; `substring` then gives the empty string.
   */
  lemma EmptySelection(t: Text, bounds: RangeBounds)
    requires |t.bytes| <= USIZE_MAX
    requires var ends := Indices(bounds, |t.bytes|); ends.0 >= |t.starts| || ends.1 <= ends.0
    ensures SubstringAsWritten(t, bounds) == Ok([]) && Substring(t, bounds) == []
  {
  }

  /** An unbounded end means "to the end of the text": every cluster from `begin` on is selected. */
  lemma UnboundedEndSelectsRest(t: Text, startBound: Bound)
    requires |t.bytes| <= USIZE_MAX
    ensures SelectedTo(t, RangeBounds(startBound, Unbounded)) == |t.starts|
  {
    var _ := LenGraphemes(t);
  }

  /**
   * The slice as written for a non-empty window `[from, to)` ends one byte after
   * the last cluster's start: exactly at the window's end when that cluster is one
   * byte, and strictly inside the cluster otherwise.
   */
  lemma AsWrittenWindowEnd(t: Text, from: nat, to: nat)
    requires from < to <= |t.starts|
    ensures Boundary(t, from) <= Boundary(t, to - 1) < Boundary(t, to)
    ensures |Cluster(t, to - 1)| == 1 <==> Boundary(t, to - 1) + 1 == Boundary(t, to)
  {
    BoundaryMonotone(t, from, to - 1);
    BoundaryIncreasing(t, to - 1, to);
  }

  /** With a one-byte last cluster, the slice as written is the window's bytes. */
  lemma AsWrittenWindowAgrees(t: Text, from: nat, to: nat)
    requires from < to <= |t.starts| && |Cluster(t, to - 1)| == 1
    ensures SliceInclusive(t.bytes, Boundary(t, from), Boundary(t, to - 1)) == Ok(t.bytes[Boundary(t, from)..Boundary(t, to)])
  {
    AsWrittenWindowEnd(t, from, to);
    BoundaryIsCharBoundary(t, from);
    BoundaryIsCharBoundary(t, to);
  }

  /** `a` is `b` cut short: strictly shorter, and equal to `b`'s first `|a|` items. */
  predicate IsProperPrefix(a: seq<byte>, b: seq<byte>) {
    |a| < |b| && a == b[..|a|]
  }

  /** With a longer last cluster, the slice as written fails or is a proper prefix of the window's bytes. */
  lemma AsWrittenWindowMisses(t: Text, from: nat, to: nat)
    requires from < to <= |t.starts| && |Cluster(t, to - 1)| > 1
    ensures var r := SliceInclusive(t.bytes, Boundary(t, from), Boundary(t, to - 1));
      && r != Ok(t.bytes[Boundary(t, from)..Boundary(t, to)])
      && (r.Ok? ==> IsProperPrefix(r.value, t.bytes[Boundary(t, from)..Boundary(t, to)]))
  {
    AsWrittenWindowEnd(t, from, to);
    var begin, cut, end := Boundary(t, from), Boundary(t, to - 1) + 1, Boundary(t, to);
    SlicePrefix(t.bytes, begin, cut, end);
  }

  /** A shorter slice from the same start is a prefix of the longer one. */
  lemma SlicePrefix(s: seq<byte>, begin: nat, cut: nat, end: nat)
    requires begin <= cut <= end <= |s|
    ensures s[begin..cut] == s[begin..end][..cut - begin]
  {
    assert forall i :: 0 <= i < cut - begin ==> s[begin..cut][i] == s[begin..end][..cut - begin][i];
  }

  /**
   * Where the last selected cluster is a single byte, the slice as written ends
   * exactly where that cluster ends, so it equals the intended substring.
   */
  lemma AsWrittenAgreesOnSingleByteEnd(t: Text, bounds: RangeBounds)
    requires |t.bytes| <= USIZE_MAX
    requires SelectedFrom(t, bounds) < SelectedTo(t, bounds) ==> |Cluster(t, SelectedTo(t, bounds) - 1)| == 1
    ensures SubstringAsWritten(t, bounds) == Ok(Substring(t, bounds))
  {
    var from, to := SelectedFrom(t, bounds), SelectedTo(t, bounds);
    if from < to {
      AsWrittenWindowAgrees(t, from, to);
    }
  }

  /** In a text of one-byte clusters, cluster `i` is byte `i`. */
  lemma SingleByteBoundaries(t: Text, i: nat)
    requires SingleByteClusters(t) && i <= |t.starts|
    ensures Boundary(t, i) == i
  {
    if i < |t.starts| {
      StartsAtLeastIndex(t, i);
      StartsAtLeastRest(t, i);
    }
  }

  /** Cluster `i` starts at least `count - 1 - i` bytes before the end. */
  lemma {:induction false} StartsAtLeastRest(t: Text, i: nat)
    requires i < |t.starts|
    ensures t.starts[i] + (|t.starts| - i) <= |t.bytes|
    decreases |t.starts| - i
  {
    if i + 1 < |t.starts| {
      StartsAtLeastRest(t, i + 1);
    }
  }

  /**
   * When every cluster is one byte, `substring` as written is exactly the
   * concatenation of the clusters with index in `[begin, min(end, count))`.
   */
  lemma AsWrittenConcatenatesSingleByteClusters(t: Text, bounds: RangeBounds)
    requires |t.bytes| <= USIZE_MAX && SingleByteClusters(t)
    ensures SubstringAsWritten(t, bounds) == Ok(t.bytes[SelectedFrom(t, bounds)..SelectedTo(t, bounds)])
  {
    var from, to := SelectedFrom(t, bounds), SelectedTo(t, bounds);
    SingleByteWindow(t, from, to);
    AsWrittenAgreesOnSingleByteEnd(t, bounds);
    SameSlice(t.bytes, Boundary(t, from), Boundary(t, to), from, to);
  }

  /** Equal slice ends give equal slices. */
  lemma SameSlice(s: seq<byte>, i: nat, j: nat, from: nat, to: nat)
    requires i == from && j == to && i <= j <= |s|
    ensures s[i..j] == s[from..to]
  {
  }

  /** In a text of one-byte clusters, the window `[from, to)` is bytes `[from, to)`, one byte per cluster. */
  lemma SingleByteWindow(t: Text, from: nat, to: nat)
    requires SingleByteClusters(t) && from <= to <= |t.starts|
    ensures Boundary(t, from) == from && Boundary(t, to) == to
    ensures from < to ==> |Cluster(t, to - 1)| == 1
  {
    SingleByteBoundaries(t, from);
    SingleByteBoundaries(t, to);
    if from < to {
      SingleByteBoundaries(t, to - 1);
    }
  }

  /** "é" (bytes C3 A9) cut to its first column: Rust panics, the slice ends inside the character. */
  lemma AsWrittenFailsInsideCharacter()
    ensures SubstringAsWritten(Graphemes([0xC3, 0xA9], [0]), ClusterRange(0, 1)) == Err(NotCharBoundary(1))
    ensures Substring(Graphemes([0xC3, 0xA9], [0]), ClusterRange(0, 1)) == [0xC3, 0xA9]
  {
    var t: Text := Graphemes([0xC3, 0xA9], [0]);
    assert SelectedFrom(t, ClusterRange(0, 1)) == 0 && SelectedTo(t, ClusterRange(0, 1)) == 1;
  }

  /** "e" + U+0301 (one cluster, bytes 65 CC 81) cut to its first column loses the accent. */
  lemma AsWrittenDropsCombiningMark()
    ensures SubstringAsWritten(Graphemes([0x65, 0xCC, 0x81], [0]), ClusterRange(0, 1)) == Ok([0x65])
    ensures Substring(Graphemes([0x65, 0xCC, 0x81], [0]), ClusterRange(0, 1)) == [0x65, 0xCC, 0x81]
  {
    var t: Text := Graphemes([0x65, 0xCC, 0x81], [0]);
    assert SelectedFrom(t, ClusterRange(0, 1)) == 0 && SelectedTo(t, ClusterRange(0, 1)) == 1;
    assert IsCharBoundary(t.bytes, 1);
    assert t.bytes[0..1] == [0x65];
  }

  /**
   * Column extraction never splits a cluster: the columns `[0, n)` followed by the
   * columns `[n, count)` give back the whole line, for every `n`.
   */
  lemma SubstringSplit(t: Text, n: nat)
    requires |t.bytes| <= USIZE_MAX && n <= |t.starts|
    ensures LenGraphemes(t) <= USIZE_MAX
    ensures Substring(t, ClusterRange(0, n)) + Substring(t, ClusterRange(n, |t.starts|)) == t.bytes
  {
    var _ := LenGraphemes(t);
    var count := |t.starts|;
    var front, back := Substring(t, ClusterRange(0, n)), Substring(t, ClusterRange(n, count));
    assert front == t.bytes[0..Boundary(t, n)] by {
      assert SelectedFrom(t, ClusterRange(0, n)) == 0 && SelectedTo(t, ClusterRange(0, n)) == n;
      assert Boundary(t, 0) == 0;
    }
    assert back == t.bytes[Boundary(t, n)..|t.bytes|] by {
      assert SelectedFrom(t, ClusterRange(n, count)) == n && SelectedTo(t, ClusterRange(n, count)) == count;
    }
    SplitAt(t.bytes, Boundary(t, n), front, back);
  }

  lemma SplitAt(s: seq<byte>, m: nat, front: seq<byte>, back: seq<byte>)
    requires m <= |s| && front == s[0..m] && back == s[m..|s|]
    ensures front + back == s
  {
  }
}
