/** The harmonic grouping of source/services.py: for every spectral bin the lower bin
    taken as its fundamental, the per-fundamental sums of magnitude kept in insertion
    order as Python's dict does, and the "loudest harmonic of the loudest group". */
module Harmonics {
  import opened Common

  /** The harmonic test: `abs(freq - base * round(freq / base)) <= lenience`. */
  predicate WithinLenience(freq: real, base: real, lenience: real)
    requires base != 0.0
  {
    Abs(freq - base * RoundHalfEven(freq / base) as real) <= lenience
  }

  /** Bin `j` is an acceptable base for bin `i`: lower, at most half its frequency,
      and `freqs[i]` within `lenience` of a multiple of it. */
  predicate IsBase(freqs: seq<real>, i: nat, j: nat, lenience: real)
    requires i < |freqs|
  {
    j < i && freqs[j] <= freqs[i] / 2.0 && freqs[j] != 0.0 && WithinLenience(freqs[i], freqs[j], lenience)
  }

  /** Bin `j` ends the scan of bin `i` with an exception: a zero frequency passes the
      halving test, and `round(freq / 0)` then sees inf or nan. */
  predicate Blocks(freqs: seq<real>, i: nat, j: nat)
    requires i < |freqs|
  {
    j < i && freqs[j] == 0.0 && freqs[j] <= freqs[i] / 2.0
  }

  /** The inner loop for bin `i`, from candidate `j` upwards, stopping at the first
      base it accepts. */
  function BaseScan(freqs: seq<real>, i: nat, j: nat, lenience: real): (r: Result<Option<nat>>)
    requires i < |freqs| && j <= i
    ensures r.Ok? && r.value.Some? ==>
              j <= r.value.value && IsBase(freqs, i, r.value.value, lenience) &&
              forall k :: j <= k < r.value.value ==> !IsBase(freqs, i, k, lenience) && !Blocks(freqs, i, k)
    ensures r == Ok(None) ==> forall k :: j <= k < i ==> !IsBase(freqs, i, k, lenience) && !Blocks(freqs, i, k)
    ensures r.Err? ==>
              r.error == NonFiniteRound &&
              exists z :: j <= z < i && Blocks(freqs, i, z) && forall k :: j <= k < z ==> !IsBase(freqs, i, k, lenience)
    decreases i - j
  {
    if j == i then Ok(None)
    else if freqs[j] <= freqs[i] / 2.0 then
      if freqs[j] == 0.0 then assert Blocks(freqs, i, j); Err(NonFiniteRound)
      else if WithinLenience(freqs[i], freqs[j], lenience) then Ok(Some(j))
      else BaseScan(freqs, i, j + 1, lenience)
    else BaseScan(freqs, i, j + 1, lenience)
  }

  /** `b` is the smallest acceptable base of bin `i`, or `None` when it has none. */
  predicate SmallestBase(freqs: seq<real>, i: nat, lenience: real, b: Option<nat>)
    requires i < |freqs|
  {
    match b
    case Some(j) => IsBase(freqs, i, j, lenience) && forall k :: 0 <= k < j ==> !IsBase(freqs, i, k, lenience)
    case None => forall k :: 0 <= k < i ==> !IsBase(freqs, i, k, lenience)
  }

  /** `base_frequency_indexes`: a pre-sized list of `None`, filled by a nested scan
      that records, for every bin, the first lower bin that passes the harmonic test. */
  method BaseFrequencyIndexes(frequencies: seq<real>, lenience: real) returns (r: Result<seq<Option<nat>>>)
    ensures r.Err? <==> exists i :: 0 <= i < |frequencies| && BaseScan(frequencies, i, 0, lenience).Err?
    ensures r.Err? ==> r.error == NonFiniteRound
    ensures r.Ok? ==> |r.value| == |frequencies|
    ensures r.Ok? ==> forall i :: 0 <= i < |frequencies| ==> Ok(r.value[i]) == BaseScan(frequencies, i, 0, lenience)
    ensures r.Ok? ==> forall i :: 0 <= i < |frequencies| ==>
              SmallestBase(frequencies, i, lenience, r.value[i]) &&
              (r.value[i].Some? ==> r.value[i].value < i)
  {
    var baseIndices: seq<Option<nat>> := seq(|frequencies|, _ => None);
    var i := 0;
    while i < |frequencies|
      invariant 0 <= i <= |frequencies| && |baseIndices| == |frequencies|
      invariant forall k :: 0 <= k < i ==> BaseScan(frequencies, k, 0, lenience) == Ok(baseIndices[k])
      invariant forall k :: i <= k < |frequencies| ==> baseIndices[k] == None
    {
      var freq := frequencies[i];
      var j := 0;
      while j < i
        invariant 0 <= j <= i && |baseIndices| == |frequencies|
        invariant BaseScan(frequencies, i, 0, lenience) == BaseScan(frequencies, i, j, lenience)
        invariant forall k :: 0 <= k < i ==> BaseScan(frequencies, k, 0, lenience) == Ok(baseIndices[k])
        invariant forall k :: i <= k < |frequencies| ==> baseIndices[k] == None
      {
        var baseFreq := frequencies[j];
        if baseFreq <= freq / 2.0 {
          if baseFreq == 0.0 {
            return Err(NonFiniteRound);
          }
          if WithinLenience(freq, baseFreq, lenience) {
            assert BaseScan(frequencies, i, j, lenience) == Ok(Some(j));
            baseIndices := baseIndices[i := Some(j)];
            break;
          }
        }
        j := j + 1;
      }
      assert BaseScan(frequencies, i, 0, lenience) == Ok(baseIndices[i]);
      i := i + 1;
    }
    forall i | 0 <= i < |frequencies|
      ensures SmallestBase(frequencies, i, lenience, baseIndices[i])
    {
      BaseScanIsSmallestBase(frequencies, i, lenience);
    }
    return Ok(baseIndices);
  }

  /** A successful scan from the lowest bin finds the smallest base. */
  lemma BaseScanIsSmallestBase(freqs: seq<real>, i: nat, lenience: real)
    requires i < |freqs| && BaseScan(freqs, i, 0, lenience).Ok?
    ensures SmallestBase(freqs, i, lenience, BaseScan(freqs, i, 0, lenience).value)
  {
  }

  /** Every anchored bin below `n` has a magnitude (otherwise `magnitudes[i]` raises). */
  predicate Covered(bases: seq<Option<nat>>, mags: seq<real>, n: nat)
    requires n <= |bases|
  {
    forall k :: 0 <= k < n && bases[k].Some? ==> k < |mags|
  }

  /** The summed magnitude of group `b` over the first `n` bins. */
  function GroupSum(bases: seq<Option<nat>>, mags: seq<real>, b: nat, n: nat): real
    requires n <= |bases| && Covered(bases, mags, n)
  {
    if n == 0 then 0.0
    else GroupSum(bases, mags, b, n - 1) + (if bases[n - 1] == Some(b) then mags[n - 1] else 0.0)
  }

  /** A group with no bin among the first `n` sums to zero. */
  lemma {:induction false} GroupSumAbsent(bases: seq<Option<nat>>, mags: seq<real>, b: nat, n: nat)
    requires n <= |bases| && Covered(bases, mags, n)
    requires forall k :: 0 <= k < n ==> bases[k] != Some(b)
    ensures GroupSum(bases, mags, b, n) == 0.0
  {
    if n > 0 {
      GroupSumAbsent(bases, mags, b, n - 1);
    }
  }

  /** The groups met in the first `n` bins, in order of first appearance: the key
      order of the `harmonic_sums` dict. */
  function GroupOrder(bases: seq<Option<nat>>, n: nat): seq<nat>
    requires n <= |bases|
  {
    if n == 0 then []
    else
      var o := GroupOrder(bases, n - 1);
      if bases[n - 1].Some? && bases[n - 1].value !in o then o + [bases[n - 1].value] else o
  }

  /** The dict holds exactly the groups that some bin belongs to. */
  lemma {:induction false} GroupOrderMembers(bases: seq<Option<nat>>, n: nat)
    requires n <= |bases|
    ensures forall b :: b in GroupOrder(bases, n) <==> exists k :: 0 <= k < n && bases[k] == Some(b)
  {
    if n > 0 {
      GroupOrderMembers(bases, n - 1);
    }
  }

  /** A group listed earlier in the dict order has a bin before every bin of a group
      listed later. */
  lemma {:induction false} GroupOrderIsInsertionOrder(bases: seq<Option<nat>>, n: nat, p: nat, q: nat, k: nat)
    requires n <= |bases| && p < q < |GroupOrder(bases, n)|
    requires k < n && bases[k] == Some(GroupOrder(bases, n)[q])
    ensures exists k' :: 0 <= k' < k && bases[k'] == Some(GroupOrder(bases, n)[p])
  {
    var o, o' := GroupOrder(bases, n), GroupOrder(bases, n - 1);
    GroupOrderMembers(bases, n - 1);
    if q < |o'| {
      assert o[p] == o'[p] && o[q] == o'[q];
      if k < n - 1 {
        GroupOrderIsInsertionOrder(bases, n - 1, p, q, k);
      } else {
        assert o'[q] in o';
        var k0 :| 0 <= k0 < n - 1 && bases[k0] == Some(o'[q]);
        GroupOrderIsInsertionOrder(bases, n - 1, p, q, k0);
      }
    } else {
      assert o == o' + [bases[n - 1].value] && o[q] == bases[n - 1].value;
      if k < n - 1 {
        assert false;
      }
      assert o'[p] in o';
      var k' :| 0 <= k' < n - 1 && bases[k'] == Some(o'[p]);
      assert o[p] == o'[p];
    }
  }

  /** The loudest bin of group `b` among the first `n`, the earliest on equal
      magnitudes: the `loudest_harmonics` dict entry. */
  function LoudestMember(bases: seq<Option<nat>>, mags: seq<real>, b: nat, n: nat): (r: Option<nat>)
    requires n <= |bases| && Covered(bases, mags, n)
    ensures r.Some? ==> r.value < n && bases[r.value] == Some(b)
  {
    if n == 0 then None
    else
      var prev := LoudestMember(bases, mags, b, n - 1);
      if bases[n - 1] == Some(b) && (prev.None? || mags[n - 1] > mags[prev.value]) then Some(n - 1)
      else prev
  }

  /** Where the loudest bin of a group lies, and that it is the first of largest magnitude. */
  lemma {:induction false} LoudestMemberIsLoudest(bases: seq<Option<nat>>, mags: seq<real>, b: nat, n: nat)
    requires n <= |bases| && Covered(bases, mags, n)
    ensures var r := LoudestMember(bases, mags, b, n);
            (r.None? <==> forall k :: 0 <= k < n ==> bases[k] != Some(b)) &&
            (r.Some? ==>
               r.value < n && r.value < |mags| && bases[r.value] == Some(b) &&
               (forall k :: 0 <= k < n && bases[k] == Some(b) ==> mags[k] <= mags[r.value]) &&
               (forall k :: 0 <= k < r.value && bases[k] == Some(b) ==> mags[k] < mags[r.value]))
  {
    if n > 0 {
      LoudestMemberIsLoudest(bases, mags, b, n - 1);
    }
  }

  /** Bin `i` is the loudest bin of the loudest group: its group has the largest sum,
      a group tied with it has no bin before its first bin, and within the group `i`
      is the first bin of largest magnitude. */
  predicate LoudestOfLoudestGroup(bases: seq<Option<nat>>, mags: seq<real>, i: nat)
    requires Covered(bases, mags, |bases|)
  {
    var n := |bases|;
    i < n && i < |mags| && bases[i].Some? &&
    var g := bases[i].value;
    (forall k :: 0 <= k < n && bases[k].Some? ==> GroupSum(bases, mags, bases[k].value, n) <= GroupSum(bases, mags, g, n)) &&
    (forall k ::
       (0 <= k < n && bases[k].Some? && bases[k].value != g &&
        GroupSum(bases, mags, bases[k].value, n) == GroupSum(bases, mags, g, n)) ==>
       exists k' :: 0 <= k' < k && bases[k'] == Some(g)) &&
    (forall k :: 0 <= k < n && bases[k] == Some(g) ==> mags[k] <= mags[i]) &&
    (forall k :: 0 <= k < i && bases[k] == Some(g) ==> mags[k] < mags[i])
  }

  /** A group not yet in the dict order has sum zero and no loudest bin. */
  lemma {:induction false} NewGroupIsEmpty(bases: seq<Option<nat>>, mags: seq<real>, b: nat, n: nat)
    requires n <= |bases| && Covered(bases, mags, n) && b !in GroupOrder(bases, n)
    ensures GroupSum(bases, mags, b, n) == 0.0 && LoudestMember(bases, mags, b, n) == None
  {
    if n > 0 {
      assert b !in GroupOrder(bases, n - 1) && bases[n - 1] != Some(b);
      NewGroupIsEmpty(bases, mags, b, n - 1);
    }
  }

  /** The `harmonic_sums` dict of `loudest_harmonic_of_loudest_base` after the first `i`
      bins, with `order` its key order. */
  ghost predicate SumsTracked(bases: seq<Option<nat>>, mags: seq<real>, i: nat,
                              sums: map<nat, real>, order: seq<nat>)
  {
    i <= |bases| && Covered(bases, mags, i) &&
    order == GroupOrder(bases, i) &&
    (forall b :: b in sums <==> b in order) &&
    (forall b :: b in sums ==> sums[b] == GroupSum(bases, mags, b, i))
  }

  /** The `loudest_harmonics` dict after the first `i` bins; it has the same keys. */
  ghost predicate LoudestTracked(bases: seq<Option<nat>>, mags: seq<real>, i: nat,
                                 loudest: map<nat, nat>, order: seq<nat>)
  {
    i <= |bases| && Covered(bases, mags, i) &&
    (forall b :: b in loudest <==> b in order) &&
    (forall b :: b in loudest ==> loudest[b] < i && LoudestMember(bases, mags, b, i) == Some(loudest[b]))
  }

  /** One iteration keeps `harmonic_sums` equal to its specification. */
  lemma SumsStep(bases: seq<Option<nat>>, mags: seq<real>, i: nat,
                 sums: map<nat, real>, order: seq<nat>, sums': map<nat, real>, order': seq<nat>)
    requires SumsTracked(bases, mags, i, sums, order) && i < |bases|
    requires bases[i].Some? ==> i < |mags|
    requires bases[i].None? ==> sums' == sums && order' == order
    requires bases[i].Some? ==>
               var b := bases[i].value;
               var start := if b in sums then sums else sums[b := 0.0];
               sums' == start[b := start[b] + mags[i]] &&
               order' == (if b in sums then order else order + [b])
    ensures SumsTracked(bases, mags, i + 1, sums', order')
  {
    assert Covered(bases, mags, i + 1);
    if bases[i].Some? && bases[i].value !in sums {
      NewGroupIsEmpty(bases, mags, bases[i].value, i);
    }
  }

  /** An unanchored bin leaves `loudest_harmonics` as it is. */
  lemma LoudestStepUnanchored(bases: seq<Option<nat>>, mags: seq<real>, i: nat,
                              loudest: map<nat, nat>, order: seq<nat>)
    requires LoudestTracked(bases, mags, i, loudest, order) && i < |bases| && bases[i].None?
    ensures LoudestTracked(bases, mags, i + 1, loudest, order)
  {
    assert Covered(bases, mags, i + 1);
    forall b | b in loudest
      ensures LoudestMember(bases, mags, b, i + 1) == LoudestMember(bases, mags, b, i)
    {
    }
  }

  /** A bin of group `c` becomes the group's loudest bin exactly when it is the first
      or strictly louder than the loudest so far. */
  lemma LoudestStepAnchored(bases: seq<Option<nat>>, mags: seq<real>, i: nat, c: nat,
                            loudest: map<nat, nat>, order: seq<nat>, loudest': map<nat, nat>, order': seq<nat>)
    requires LoudestTracked(bases, mags, i, loudest, order) && order == GroupOrder(bases, i)
    requires i < |bases| && i < |mags| && bases[i] == Some(c)
    requires order' == if c in order then order else order + [c]
    requires loudest' == if c !in loudest || mags[i] > mags[loudest[c]] then loudest[c := i] else loudest
    ensures LoudestTracked(bases, mags, i + 1, loudest', order')
  {
    assert Covered(bases, mags, i + 1);
    if c !in loudest {
      NewGroupIsEmpty(bases, mags, c, i);
    }
    forall b | b in loudest'
      ensures loudest'[b] < i + 1 && LoudestMember(bases, mags, b, i + 1) == Some(loudest'[b])
    {
      if b != c {
        assert LoudestMember(bases, mags, b, i + 1) == LoudestMember(bases, mags, b, i);
      }
    }
  }

  /** The group sums in dict order: what `max(harmonic_sums, key=harmonic_sums.get)` ranges over. */
  function GroupSums(bases: seq<Option<nat>>, mags: seq<real>, n: nat): (s: seq<real>)
    requires n <= |bases| && Covered(bases, mags, n)
    ensures |s| == |GroupOrder(bases, n)|
    ensures forall p :: 0 <= p < |s| ==> s[p] == GroupSum(bases, mags, GroupOrder(bases, n)[p], n)
  {
    var o := GroupOrder(bases, n);
    seq(|o|, p requires 0 <= p < |o| => GroupSum(bases, mags, o[p], n))
  }

  /** Taking the first group of largest sum in dict order, and then its loudest bin,
      selects the loudest bin of the loudest group. */
  lemma FirstLoudestGroupWins(bases: seq<Option<nat>>, mags: seq<real>)
    requires Covered(bases, mags, |bases|) && |GroupOrder(bases, |bases|)| > 0
    ensures var n := |bases|;
            var g := GroupOrder(bases, n)[ArgMax(GroupSums(bases, mags, n))];
            LoudestMember(bases, mags, g, n).Some? &&
            LoudestOfLoudestGroup(bases, mags, LoudestMember(bases, mags, g, n).value)
  {
    var n := |bases|;
    var order, sums := GroupOrder(bases, n), GroupSums(bases, mags, n);
    var a := ArgMax(sums);
    var g := order[a];
    GroupOrderMembers(bases, n);
    LoudestMemberIsLoudest(bases, mags, g, n);
    assert g in order;
    forall k | 0 <= k < n && bases[k].Some?
      ensures GroupSum(bases, mags, bases[k].value, n) <= GroupSum(bases, mags, g, n)
      ensures bases[k].value != g && GroupSum(bases, mags, bases[k].value, n) == GroupSum(bases, mags, g, n) ==>
                exists k' :: 0 <= k' < k && bases[k'] == Some(g)
    {
      var b := bases[k].value;
      assert b in order;
      var p :| 0 <= p < |order| && order[p] == b;
      if b != g && sums[p] == sums[a] {
        assert p != a;
        GroupOrderIsInsertionOrder(bases, n, a, p, k);
      }
    }
  }

  /** `loudest_harmonic_of_loudest_base`: accumulate per-group sums and per-group loudest
      bins in two dicts, then take the first group of largest sum; `None` when no bin
      is anchored. */
  method LoudestHarmonicOfLoudestBase(bases: seq<Option<nat>>, mags: seq<real>) returns (r: Result<Option<nat>>)
    ensures r.Err? <==> !Covered(bases, mags, |bases|)
    ensures r.Err? ==> r.error == IndexOutOfRange
    ensures r.Ok? ==> (r.value.None? <==> forall k :: 0 <= k < |bases| ==> bases[k].None?)
    ensures r.Ok? && r.value.Some? ==> LoudestOfLoudestGroup(bases, mags, r.value.value)
  {
    var covered, harmonicSums, loudestHarmonics, order := AccumulateGroups(bases, mags);
    if !covered {
      return Err(IndexOutOfRange);
    }
    SelectionIsLoudest(bases, mags, harmonicSums, loudestHarmonics, order);
    if harmonicSums == map[] {
      return Ok(None);
    }
    var sums := seq(|order|, p requires 0 <= p < |order| => harmonicSums[order[p]]);
    var loudestBaseIndex := order[ArgMax(sums)];
    return Ok(Some(loudestHarmonics[loudestBaseIndex]));
  }

  /** The loop of `loudest_harmonic_of_loudest_base` that fills `harmonic_sums` and
      `loudest_harmonics`; it stops early, as `magnitudes[i]` raises, at an anchored
      bin without a magnitude. */
  method AccumulateGroups(bases: seq<Option<nat>>, mags: seq<real>)
    returns (covered: bool, harmonicSums: map<nat, real>, loudestHarmonics: map<nat, nat>, order: seq<nat>)
    ensures covered <==> Covered(bases, mags, |bases|)
    ensures covered ==> SumsTracked(bases, mags, |bases|, harmonicSums, order)
    ensures covered ==> LoudestTracked(bases, mags, |bases|, loudestHarmonics, order)
  {
    harmonicSums, loudestHarmonics, order := map[], map[], [];  // `order` is the key order of both dicts
    for i := 0 to |bases|
      invariant SumsTracked(bases, mags, i, harmonicSums, order)
      invariant LoudestTracked(bases, mags, i, loudestHarmonics, order)
    {
      var binCovered;
      binCovered, harmonicSums, loudestHarmonics, order := AccumulateBin(bases, mags, i, harmonicSums, loudestHarmonics, order);
      if !binCovered {
        return false, harmonicSums, loudestHarmonics, order;
      }
    }
    covered := true;
  }

  /** One iteration of that loop, on bin `i`. */
  method AccumulateBin(bases: seq<Option<nat>>, mags: seq<real>, i: nat,
                       sums: map<nat, real>, loudest: map<nat, nat>, order: seq<nat>)
    returns (covered: bool, sums': map<nat, real>, loudest': map<nat, nat>, order': seq<nat>)
    requires i < |bases|
    requires SumsTracked(bases, mags, i, sums, order) && LoudestTracked(bases, mags, i, loudest, order)
    ensures covered <==> (bases[i].Some? ==> i < |mags|)
    ensures !covered ==> !Covered(bases, mags, |bases|)
    ensures covered ==> SumsTracked(bases, mags, i + 1, sums', order') && LoudestTracked(bases, mags, i + 1, loudest', order')
  {
    sums', loudest', order' := sums, loudest, order;
    if bases[i].None? {
      SumsStep(bases, mags, i, sums, order, sums', order');
      LoudestStepUnanchored(bases, mags, i, loudest, order);
      return true, sums', loudest', order';
    }
    var baseIndex := bases[i].value;
    if baseIndex !in sums' {
      sums' := sums'[baseIndex := 0.0];
      order' := order' + [baseIndex];
    }
    if i >= |mags| {
      assert !Covered(bases, mags, |bases|) by {
        assert 0 <= i < |bases| && bases[i].Some? && !(i < |mags|);
      }
      return false, sums', loudest', order';
    }
    sums' := sums'[baseIndex := sums'[baseIndex] + mags[i]];
    SumsStep(bases, mags, i, sums, order, sums', order');
    if baseIndex !in loudest' || mags[i] > mags[loudest'[baseIndex]] {
      loudest' := loudest'[baseIndex := i];
    }
    LoudestStepAnchored(bases, mags, i, baseIndex, loudest, order, loudest', order');
    covered := true;
  }

  /** Once every bin is accumulated, the dicts are empty exactly when no bin is anchored,
      and otherwise the first key of largest sum leads to the loudest bin of the
      loudest group. */
  lemma SelectionIsLoudest(bases: seq<Option<nat>>, mags: seq<real>,
                           sums: map<nat, real>, loudest: map<nat, nat>, order: seq<nat>)
    requires SumsTracked(bases, mags, |bases|, sums, order)
    requires LoudestTracked(bases, mags, |bases|, loudest, order)
    ensures sums == map[] <==> forall k :: 0 <= k < |bases| ==> bases[k].None?
    ensures sums != map[] ==>
              order != [] &&
              var s := seq(|order|, p requires 0 <= p < |order| => sums[order[p]]);
              order[ArgMax(s)] in loudest &&
              LoudestOfLoudestGroup(bases, mags, loudest[order[ArgMax(s)]])
  {
    var n := |bases|;
    GroupOrderMembers(bases, n);
    if sums != map[] {
      assert order != [] by {
        var b :| b in sums;
      }
      var s := seq(|order|, p requires 0 <= p < |order| => sums[order[p]]);
      assert s == GroupSums(bases, mags, n);
      FirstLoudestGroupWins(bases, mags);
    }
  }

  /** The keys of the `loudest_base_frequency_index` dict, `None` included, in order of
      first appearance among the first `n` bins. */
  function KeyOrder(bases: seq<Option<nat>>, n: nat): seq<Option<nat>>
    requires n <= |bases|
  {
    if n == 0 then []
    else
      var o := KeyOrder(bases, n - 1);
      if bases[n - 1] !in o then o + [bases[n - 1]] else o
  }

  /** The dict holds exactly the keys that occur among the first `n` bins. */
  lemma {:induction false} KeyOrderMembers(bases: seq<Option<nat>>, n: nat)
    requires n <= |bases|
    ensures forall key :: key in KeyOrder(bases, n) <==> exists k :: 0 <= k < n && bases[k] == key
  {
    if n > 0 {
      KeyOrderMembers(bases, n - 1);
    }
  }

  /** The magnitude of the last unanchored bin below `n`: later `None` entries
      overwrite earlier ones instead of adding to them. */
  function LastUnanchored(bases: seq<Option<nat>>, mags: seq<real>, n: nat): (m: real)
    requires n <= |bases| && n <= |mags|
    ensures forall k :: 0 <= k < n && bases[k].None? && (forall k' :: k < k' < n ==> bases[k'].Some?) ==> m == mags[k]
  {
    if n == 0 then 0.0
    else if bases[n - 1].None? then mags[n - 1]
    else LastUnanchored(bases, mags, n - 1)
  }

  /** The value the dict holds for `key` after the first `n` bins. */
  function KeyValue(bases: seq<Option<nat>>, mags: seq<real>, key: Option<nat>, n: nat): real
    requires n <= |bases| && n <= |mags|
  {
    match key
    case Some(b) => GroupSum(bases, mags, b, n)
    case None => LastUnanchored(bases, mags, n)
  }

  /** The state of the `harmonic_sums` dict of `loudest_base_frequency_index` after the
      first `i` bins, with `order` its key order. */
  ghost predicate Summed(bases: seq<Option<nat>>, mags: seq<real>, i: nat,
                         sums: map<Option<nat>, real>, order: seq<Option<nat>>)
  {
    i <= |bases| && i <= |mags| &&
    order == KeyOrder(bases, i) &&
    (forall key :: key in sums <==> key in order) &&
    (forall key :: key in sums ==> sums[key] == KeyValue(bases, mags, key, i))
  }

  /** One iteration of the summing loop keeps the dict equal to its specification. */
  lemma SumStep(bases: seq<Option<nat>>, mags: seq<real>, i: nat,
                sums: map<Option<nat>, real>, order: seq<Option<nat>>,
                sums': map<Option<nat>, real>, order': seq<Option<nat>>)
    requires Summed(bases, mags, i, sums, order) && i < |bases| && i < |mags|
    requires order' == if bases[i] in sums then order else order + [bases[i]]
    requires bases[i].None? ==> sums' == sums[bases[i] := mags[i]]
    requires bases[i].Some? ==>
               var start := if bases[i] in sums then sums else sums[bases[i] := 0.0];
               sums' == start[bases[i] := start[bases[i]] + mags[i]]
    ensures Summed(bases, mags, i + 1, sums', order')
  {
    if bases[i].Some? && bases[i] !in sums {
      KeyOrderMembers(bases, i);
      GroupSumAbsent(bases, mags, bases[i].value, i);
    }
  }

  /** `loudest_base_frequency_index`: sums per base, a single overwritten entry for the
      `None` key, and the first key of largest value; `max` of an empty dict raises. */
  method LoudestBaseFrequencyIndex(bases: seq<Option<nat>>, mags: seq<real>) returns (r: Result<Option<nat>>)
    ensures r.Err? <==> |bases| == 0 || |mags| < |bases|
    ensures r.Err? ==> r.error == (if |mags| < |bases| then IndexOutOfRange else EmptySequence)
    ensures r.Ok? ==> exists k :: 0 <= k < |bases| && bases[k] == r.value
    ensures r.Ok? ==> forall k :: 0 <= k < |bases| ==>
              KeyValue(bases, mags, bases[k], |bases|) <= KeyValue(bases, mags, r.value, |bases|)
    ensures r.Ok? ==> var o := KeyOrder(bases, |bases|);
              forall p :: 0 <= p < |o| && o[p] != r.value && KeyValue(bases, mags, o[p], |bases|) == KeyValue(bases, mags, r.value, |bases|) ==>
                exists q :: 0 <= q < p && o[q] == r.value
  {
    var harmonicSums: map<Option<nat>, real> := map[];
    var order: seq<Option<nat>> := [];  // the key order of the dict
    for i := 0 to |bases|
      invariant i <= |mags|
      invariant Summed(bases, mags, i, harmonicSums, order)
    {
      ghost var (sums0, order0) := (harmonicSums, order);
      var baseIndex := bases[i];
      if baseIndex !in harmonicSums {
        order := order + [baseIndex];
      }
      if i >= |mags| {
        return Err(IndexOutOfRange);
      }
      if baseIndex.Some? {
        if baseIndex !in harmonicSums {
          harmonicSums := harmonicSums[baseIndex := 0.0];
        }
        harmonicSums := harmonicSums[baseIndex := harmonicSums[baseIndex] + mags[i]];
      } else {
        harmonicSums := harmonicSums[baseIndex := mags[i]];
      }
      SumStep(bases, mags, i, sums0, order0, harmonicSums, order);
    }
    var n := |bases|;
    if order == [] {
      return Err(EmptySequence);
    }
    var values := seq(|order|, p requires 0 <= p < |order| => harmonicSums[order[p]]);
    var a := ArgMax(values);
    KeyOrderMembers(bases, n);
    assert order[a] in order;
    forall k | 0 <= k < n
      ensures KeyValue(bases, mags, bases[k], n) <= KeyValue(bases, mags, order[a], n)
    {
      assert bases[k] in order;
      var p :| 0 <= p < |order| && order[p] == bases[k];
      assert values[p] == KeyValue(bases, mags, bases[k], n);
    }
    forall p | 0 <= p < |order| && order[p] != order[a] && KeyValue(bases, mags, order[p], n) == KeyValue(bases, mags, order[a], n)
      ensures exists q :: 0 <= q < p && order[q] == order[a]
    {
      assert values[p] == values[a];
    }
    return Ok(order[a]);
  }
}
