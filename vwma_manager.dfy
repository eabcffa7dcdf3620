/**
 * The indicator editor: the guards on colour and period changes, the fixed
 * display order of the indicators, their display names, and the period
 * draft that each indicator row keeps while it is being edited.
 */
module VwmaManager {
  import opened Quotes

  const MIN_PERIOD := 10
  const MAX_PERIOD := 2000

  /** The display order of the known indicators. */
  const ORDER: seq<string> := ["vwma-gray", "vwma-blue", "vwma-green", "vwma-red"]

  const INDICATOR_NAMES: map<string, string> := map[
    "vwma-gray" := "Быстрый",
    "vwma-blue" := "Средний",
    "vwma-green" := "Медленный",
    "vwma-red" := "Долгий"
  ]

  /** The partial update handed to the registry: only the field that changed. */
  datatype Patch = ColorPatch(color: string) | PeriodPatch(period: int)

  datatype Update = Update(id: string, patch: Patch)

  /** `handleColorChange`: always forwarded, carrying the colour alone. */
  function HandleColorChange(id: string, color: string): (u: Update)
    ensures u.id == id && u.patch.ColorPatch? && u.patch.color == color
  {
    Update(id, ColorPatch(color))
  }

  /** `handlePeriodChange`: forwarded only for periods in [10, 2000]. */
  function HandlePeriodChange(id: string, period: int): (u: Option<Update>)
    ensures u.Some? <==> MIN_PERIOD <= period <= MAX_PERIOD
    ensures u.Some? ==> u.value == Update(id, PeriodPatch(period))
  {
    if period >= MIN_PERIOD && period <= MAX_PERIOD then Some(Update(id, PeriodPatch(period))) else None
  }

  /** `order.indexOf(x)`: the first position of `x`, or -1 when absent. */
  function IndexOf(order: seq<string>, x: string): (r: int)
    ensures -1 <= r < |order|
    ensures r == -1 <==> x !in order
    ensures r >= 0 ==> order[r] == x && forall j | 0 <= j < r :: order[j] != x
  {
    if order == [] then -1
    else if order[0] == x then 0
    else
      var r := IndexOf(order[1..], x);
      assert x in order[1..] <==> x in order;
      if r == -1 then -1 else r + 1
  }

  /** The sort key of an indicator: its id's place in ORDER, -1 for an id not listed. */
  function SortKey(indicator: VWMAIndicator): (k: int)
    ensures k == -1 <==> indicator.id !in ORDER
    ensures 0 <= k ==> k < |ORDER| && ORDER[k] == indicator.id
  {
    IndexOf(ORDER, indicator.id)
  }

  ghost predicate SortedBy(s: seq<VWMAIndicator>, key: VWMAIndicator -> int)
  {
    forall m, n | 0 <= m < n < |s| :: key(s[m]) <= key(s[n])
  }

  ghost predicate SortedByKey(s: seq<VWMAIndicator>)
  {
    SortedBy(s, SortKey)
  }

  /** In a list sorted by key, an unlisted id never follows a listed one. */
  lemma UnlistedFirst(s: seq<VWMAIndicator>, m: nat, n: nat)
    requires SortedByKey(s) && m < n < |s|
    requires s[n].id !in ORDER
    ensures s[m].id !in ORDER
  {
  }

  /** In a list sorted by key, the listed ids appear in the order gray, blue, green, red. */
  lemma ListedInOrder(s: seq<VWMAIndicator>, m: nat, n: nat)
    requires SortedByKey(s) && m < n < |s|
    requires s[m].id in ORDER && s[n].id in ORDER && s[m].id != s[n].id
    ensures SortKey(s[m]) < SortKey(s[n])
  {
  }

  /** The entries of `s` whose key is `k`, in their order in `s`. */
  function WithKey(s: seq<VWMAIndicator>, key: VWMAIndicator -> int, k: int): seq<VWMAIndicator>
  {
    if s == [] then []
    else WithKey(s[..|s| - 1], key, k) + (if key(s[|s| - 1]) == k then [s[|s| - 1]] else [])
  }

  lemma {:induction false} WithKeyConcat(s: seq<VWMAIndicator>, t: seq<VWMAIndicator>, key: VWMAIndicator -> int, k: int)
    ensures WithKey(s + t, key, k) == WithKey(s, key, k) + WithKey(t, key, k)
  {
    if t == [] {
      assert s + t == s;
    } else {
      var n := |t| - 1;
      assert (s + t)[..|s + t| - 1] == s + t[..n];
      assert (s + t)[|s + t| - 1] == t[n];
      WithKeyConcat(s, t[..n], key, k);
    }
  }

  /** Two entries with different keys: their order never shows in any one key's entries. */
  lemma PairWithKey(x: VWMAIndicator, y: VWMAIndicator, key: VWMAIndicator -> int, k: int)
    requires key(x) != key(y)
    ensures WithKey([x, y], key, k) == WithKey([y, x], key, k)
  {
    assert [x, y][..1] == [x] && [y, x][..1] == [y];
    assert [x][..0] == [] && [y][..0] == [];
  }

  /** Exchanging two neighbours with different keys keeps every key's entries in their order. */
  lemma SwapKeepsWithKey(s: seq<VWMAIndicator>, j: nat, key: VWMAIndicator -> int, k: int)
    requires 0 < j < |s| && key(s[j - 1]) != key(s[j])
    ensures WithKey(s[j - 1 := s[j]][j := s[j - 1]], key, k) == WithKey(s, key, k)
  {
    var front, back := s[..j - 1], s[j + 1..];
    var pair, swappedPair := [s[j - 1], s[j]], [s[j], s[j - 1]];
    assert s == (front + pair) + back;
    assert s[j - 1 := s[j]][j := s[j - 1]] == (front + swappedPair) + back;
    WithKeyConcat(front + pair, back, key, k);
    WithKeyConcat(front, pair, key, k);
    WithKeyConcat(front + swappedPair, back, key, k);
    WithKeyConcat(front, swappedPair, key, k);
    PairWithKey(s[j - 1], s[j], key, k);
  }

  /** An entry is among the key-`k` entries exactly when it is in the list and has key `k`. */
  lemma {:induction false} WithKeyMembers(s: seq<VWMAIndicator>, key: VWMAIndicator -> int, k: int, x: VWMAIndicator)
    ensures x in WithKey(s, key, k) <==> x in s && key(x) == k
  {
    if s != [] {
      var n := |s| - 1;
      WithKeyMembers(s[..n], key, k, x);
      assert s == s[..n] + [s[n]];
    }
  }

  /** No entry of a key-sorted list has a larger key than its last entry. */
  lemma LastKeyIsLargest(s: seq<VWMAIndicator>, key: VWMAIndicator -> int, x: VWMAIndicator)
    requires SortedBy(s, key) && s != [] && x in s
    ensures key(x) <= key(s[|s| - 1])
  {
    var i :| 0 <= i < |s| && s[i] == x;
    if i < |s| - 1 {
      assert key(s[i]) <= key(s[|s| - 1]);
    }
  }

  /**
   * The sort's contract determines its result: two key-sorted lists in which every
   * key's entries come in the same order are the same list.
   */
  lemma {:induction false} StableSortUnique(s: seq<VWMAIndicator>, t: seq<VWMAIndicator>, key: VWMAIndicator -> int)
    requires SortedBy(s, key) && SortedBy(t, key) && SameKeyOrder(s, t, key)
    ensures s == t
    decreases |s| + |t|
  {
    if s != [] {
      var x := s[|s| - 1];
      WithKeyMembers(s, key, key(x), x);
      WithKeyMembers(t, key, key(x), x);
    }
    if t != [] {
      var y := t[|t| - 1];
      WithKeyMembers(t, key, key(y), y);
      WithKeyMembers(s, key, key(y), y);
    }
    if s != [] && t != [] {
      var m, n := |s| - 1, |t| - 1;
      var x, y := s[m], t[n];
      LastKeyIsLargest(t, key, x);
      LastKeyIsLargest(s, key, y);
      assert key(x) == key(y);
      forall k ensures WithKey(s[..m], key, k) == WithKey(t[..n], key, k) {
        var ws, wt := WithKey(s[..m], key, k), WithKey(t[..n], key, k);
        assert WithKey(s, key, k) == WithKey(t, key, k);
        if key(x) == k {
          assert WithKey(s, key, k) == ws + [x];
          assert WithKey(t, key, k) == wt + [y];
          assert ws == (ws + [x])[..|ws|];
          assert wt == (wt + [y])[..|wt|];
        } else {
          assert WithKey(s, key, k) == ws;
          assert WithKey(t, key, k) == wt;
        }
      }
      assert WithKey(s, key, key(x))[|WithKey(s, key, key(x))| - 1] == x;
      assert WithKey(t, key, key(y))[|WithKey(t, key, key(y))| - 1] == y;
      StableSortUnique(s[..m], t[..n], key);
      assert s == s[..m] + [x] && t == t[..n] + [y];
    }
  }

  /** Exchanges two entries of the array. */
  method Swap(a: array<VWMAIndicator>, i: nat, j: nat)
    requires i < a.Length && j < a.Length
    modifies a
    ensures a[..] == old(a[..])[i := old(a[j])][j := old(a[i])]
    ensures multiset(a[..]) == multiset(old(a[..]))
  {
    a[i], a[j] := a[j], a[i];
  }

  /** Every key's entries appear in `s` in the same order as in `t`. */
  ghost predicate SameKeyOrder(s: seq<VWMAIndicator>, t: seq<VWMAIndicator>, key: VWMAIndicator -> int)
  {
    forall k :: WithKey(s, key, k) == WithKey(t, key, k)
  }

  /** Sinks `a[i]` into the sorted prefix `a[..i]`, one exchange with a larger-keyed neighbour at a time. */
  method InsertByKey(a: array<VWMAIndicator>, i: nat, key: VWMAIndicator -> int)
    requires i < a.Length
    requires forall m, n | 0 <= m < n < i :: key(a[m]) <= key(a[n])
    modifies a
    ensures forall m, n | 0 <= m < n <= i :: key(a[m]) <= key(a[n])
    ensures multiset(a[..]) == multiset(old(a[..]))
    ensures SameKeyOrder(a[..], old(a[..]), key)
  {
    var j := i;
    while j > 0 && key(a[j - 1]) > key(a[j])
      invariant 0 <= j <= i
      invariant forall m, n | 0 <= m < n <= i && n != j :: key(a[m]) <= key(a[n])
      invariant multiset(a[..]) == multiset(old(a[..]))
      invariant SameKeyOrder(a[..], old(a[..]), key)
    {
      ghost var before := a[..];
      Swap(a, j - 1, j);
      forall k ensures WithKey(a[..], key, k) == WithKey(before, key, k) {
        SwapKeepsWithKey(before, j, key, k);
      }
      j := j - 1;
    }
  }

  /**
   * Sorts the array in place by `key` with an insertion sort. Entries with equal
   * keys keep their relative order, as in the stable sort of the runtime.
   */
  method SortByKey(a: array<VWMAIndicator>, key: VWMAIndicator -> int)
    modifies a
    ensures SortedBy(a[..], key)
    ensures multiset(a[..]) == multiset(old(a[..]))
    ensures SameKeyOrder(a[..], old(a[..]), key)
  {
    for i := 0 to a.Length
      invariant forall m, n | 0 <= m < n < i :: key(a[m]) <= key(a[n])
      invariant multiset(a[..]) == multiset(old(a[..]))
      invariant SameKeyOrder(a[..], old(a[..]), key)
    {
      InsertByKey(a, i, key);
    }
  }

  /** `sortedIndicators`: a sorted copy; the given list itself is left as it was. */
  method SortedIndicators(indicators: seq<VWMAIndicator>) returns (sorted: seq<VWMAIndicator>)
    ensures SortedByKey(sorted)
    ensures multiset(sorted) == multiset(indicators)
    ensures SameKeyOrder(sorted, indicators, SortKey)
  {
    var copy := new VWMAIndicator[|indicators|](i requires 0 <= i < |indicators| => indicators[i]);
    assert copy[..] == indicators;
    SortByKey(copy, SortKey);
    sorted := copy[..];
  }

  /** `INDICATOR_NAMES[id] || id`: the mapped name for a known id, otherwise the id itself. */
  function DisplayName(id: string): (name: string)
    ensures id in INDICATOR_NAMES ==> name == INDICATOR_NAMES[id]
    ensures id !in INDICATOR_NAMES ==> name == id
  {
    if id in INDICATOR_NAMES && INDICATOR_NAMES[id] != "" then INDICATOR_NAMES[id] else id
  }

  /** `parseInt(value) || indicator.period`: NaN (None) and 0 fall back to the indicator's period. */
  function DraftFromInput(parsed: Option<int>, fallback: int): (draft: int)
    ensures parsed.None? ==> draft == fallback
    ensures parsed == Some(0) ==> draft == fallback
    ensures parsed.Some? && parsed.value != 0 ==> draft == parsed.value
  {
    match parsed
    case Some(n) => if n != 0 then n else fallback
    case None => fallback
  }

  /** One row of the editor, with its local edit flag and period draft. */
  class IndicatorItem {
    var indicator: VWMAIndicator
    var isEditing: bool
    var period: int

    /** The row starts out of edit mode, its draft at the indicator's period. */
    constructor (indicator: VWMAIndicator)
      ensures this.indicator == indicator && !isEditing && period == indicator.period
    {
      this.indicator := indicator;
      isEditing := false;
      period := indicator.period;
    }

    /** A re-render with a new indicator: the local state is kept as it was. */
    method ReceiveIndicator(indicator: VWMAIndicator)
      modifies this
      ensures this.indicator == indicator && isEditing == old(isEditing) && period == old(period)
    {
      this.indicator := indicator;
    }

    /** Clicking the period label enters edit mode. */
    method StartEditing()
      modifies this
      ensures isEditing && indicator == old(indicator) && period == old(period)
    {
      isEditing := true;
    }

    /** Typing into the period field, given what `parseInt` made of it. */
    method Input(parsed: Option<int>)
      modifies this
      ensures period == DraftFromInput(parsed, indicator.period)
      ensures indicator == old(indicator) && isEditing == old(isEditing)
    {
      period := DraftFromInput(parsed, indicator.period);
    }

    /** Save: forward the draft through the period guard and always leave edit mode. */
    method Save() returns (update: Option<Update>)
      modifies this
      ensures update == HandlePeriodChange(indicator.id, period)
      ensures update.Some? <==> MIN_PERIOD <= period <= MAX_PERIOD
      ensures !isEditing && indicator == old(indicator) && period == old(period)
    {
      update := HandlePeriodChange(indicator.id, period);
      isEditing := false;
    }

    /** Cancel: leave edit mode and reset the draft to the indicator's period. */
    method Cancel()
      modifies this
      ensures !isEditing && period == indicator.period && indicator == old(indicator)
    {
      isEditing := false;
      period := indicator.period;
    }
  }
}
