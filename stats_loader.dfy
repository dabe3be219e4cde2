/** The statistics reader of the random anonymizer (`_load_scaling_ranges`):
    the per-dimension min/max object of the statistics file, ordered by the
    integer value of its keys. The file read and the JSON parse are replaced
    by their result, the object's items in file order. */
module StatsLoader {
  import opened Wrappers

  /** One item `key: {"min": .., "max": ..}` of the statistics object; a field
      the object lacks is None. */
  datatype StatEntry = StatEntry(key: string, min: Option<real>, max: Option<real>)

  /** The (min, max) pair kept for one embedding dimension. */
  datatype DimRange = DimRange(min: real, max: real)

  /** The readable files: path to the parsed statistics object. */
  type FileSystem = map<string, seq<StatEntry>>

  /** The file read when the loader is given no path. */
  const DefaultStatsPath: string := "stats_per_dim.json"

  // ---------------------------------------------------------------------
  // int(key)
  // ---------------------------------------------------------------------

  predicate IsDigit(c: char) { '0' <= c <= '9' }

  predicate AllDigits(s: string) { forall i :: 0 <= i < |s| ==> IsDigit(s[i]) }

  function DigitValue(c: char): nat
    requires IsDigit(c)
  {
    c as int - '0' as int
  }

  function DigitChar(d: nat): (c: char)
    requires d < 10
    ensures IsDigit(c) && DigitValue(c) == d
  {
    ('0' as int + d) as char
  }

  /** The value of a string of decimal digits, most significant first. */
  function DigitsValue(s: string): nat
    requires AllDigits(s)
  {
    if s == [] then 0 else 10 * DigitsValue(s[..|s| - 1]) + DigitValue(s[|s| - 1])
  }

  /** Python's `int(key)` on a base-10 literal: an optional sign followed by
      at least one digit; anything else is a ValueError (None). */
  function ParseInt(s: string): (r: Option<int>)
    ensures r.Some? <==> |s| > 0 && (IsDigit(s[0]) || (|s| > 1 && (s[0] == '-' || s[0] == '+')))
                         && forall i :: 0 < i < |s| ==> IsDigit(s[i])
    ensures r.Some? && IsDigit(s[0]) ==> r.value >= 0
  {
    if |s| > 0 && (s[0] == '-' || s[0] == '+') then
      var digits := s[1..];
      if |digits| > 0 && AllDigits(digits) then
        var magnitude: int := DigitsValue(digits);
        Some(if s[0] == '-' then -magnitude else magnitude)
      else None
    else if |s| > 0 && AllDigits(s) then Some(DigitsValue(s))
    else None
  }

  /** The canonical decimal spelling of a natural number (Python's `str`). */
  function ShowNat(n: nat): (s: string)
    ensures |s| > 0 && AllDigits(s)
  {
    if n < 10 then [DigitChar(n)] else ShowNat(n / 10) + [DigitChar(n % 10)]
  }

  function ShowInt(n: int): string
  {
    if n < 0 then "-" + ShowNat(-n) else ShowNat(n)
  }

  lemma {:induction false} ShowNatValue(n: nat)
    ensures DigitsValue(ShowNat(n)) == n
  {
    var s := ShowNat(n);
    if n >= 10 {
      ShowNatValue(n / 10);
      assert s[..|s| - 1] == ShowNat(n / 10);
    }
  }

  /** Every integer's canonical key is read back as that integer. */
  lemma ParseShowInt(n: int)
    ensures ParseInt(ShowInt(n)) == Some(n)
  {
    if n < 0 {
      var digits := ShowNat(-n);
      ShowNatValue(-n);
      assert ("-" + digits)[1..] == digits;
    } else {
      ShowNatValue(n);
    }
  }

  lemma {:induction false} LeadingZeroValue(s: string)
    requires AllDigits(s)
    ensures AllDigits("0" + s) && DigitsValue("0" + s) == DigitsValue(s)
  {
    if s != [] {
      var t := "0" + s;
      assert t[..|t| - 1] == "0" + s[..|s| - 1];
      LeadingZeroValue(s[..|s| - 1]);
    }
  }

  /** Distinct keys can name the same dimension: "02" and "2" both read as 2. */
  lemma LeadingZeroIgnored(s: string)
    requires |s| > 0 && AllDigits(s)
    ensures ParseInt("0" + s) == ParseInt(s)
  {
    LeadingZeroValue(s);
  }

  /** A sign in front of a digit string: `+` keeps its value, `-` negates it,
      whatever leading zeros the digits carry ("-05" reads as -5, "-0" as 0). */
  lemma SignedKey(s: string)
    requires |s| > 0 && AllDigits(s)
    ensures ParseInt("+" + s) == ParseInt(s)
    ensures ParseInt("-" + s) == Some(-ParseInt(s).value)
  {
    assert ("+" + s)[1..] == s;
    assert ("-" + s)[1..] == s;
  }

  // ---------------------------------------------------------------------
  // sorted(items, key=lambda x: int(x[0]))
  // ---------------------------------------------------------------------

  /** An item of the statistics object together with `int` of its key. */
  datatype Keyed = Keyed(index: int, entry: StatEntry)

  predicate SortedByIndex(s: seq<Keyed>)
  {
    forall i, j :: 0 <= i < j < |s| ==> s[i].index <= s[j].index
  }

  /** The items of `s` whose key reads as `k`, in the order of `s`. */
  function Only(s: seq<Keyed>, k: int): seq<Keyed>
  {
    if s == [] then [] else (if s[0].index == k then [s[0]] else []) + Only(s[1..], k)
  }

  /** Inserts `x` before the first item whose index is not smaller. */
  function Insert(x: Keyed, s: seq<Keyed>): (r: seq<Keyed>)
    requires SortedByIndex(s)
    ensures SortedByIndex(r)
    ensures multiset(r) == multiset(s) + multiset{x}
    ensures |r| == |s| + 1 && (r[0] == x || (s != [] && r[0] == s[0]))
  {
    if s == [] || x.index <= s[0].index then [x] + s
    else
      var t := Insert(x, s[1..]);
      assert s == [s[0]] + s[1..];
      [s[0]] + t
  }

  /** Python's `sorted` with the integer value of the key as sort key. */
  function SortByIndex(s: seq<Keyed>): (r: seq<Keyed>)
    ensures SortedByIndex(r)
    ensures multiset(r) == multiset(s)
  {
    if s == [] then []
    else
      assert s == [s[0]] + s[1..];
      Insert(s[0], SortByIndex(s[1..]))
  }

  lemma {:induction false} OnlyInsert(x: Keyed, s: seq<Keyed>, k: int)
    requires SortedByIndex(s)
    ensures Only(Insert(x, s), k) == (if x.index == k then [x] else []) + Only(s, k)
  {
    if s == [] || x.index <= s[0].index {
      assert ([x] + s)[1..] == s;
    } else {
      var t := Insert(x, s[1..]);
      OnlyInsert(x, s[1..], k);
      assert ([s[0]] + t)[1..] == t;
    }
  }

  /** The sort is stable: items whose keys read as the same integer keep
      their file order. */
  lemma {:induction false} SortStable(s: seq<Keyed>, k: int)
    ensures Only(SortByIndex(s), k) == Only(s, k)
  {
    if s != [] {
      SortStable(s[1..], k);
      OnlyInsert(s[0], SortByIndex(s[1..]), k);
    }
  }

  lemma {:induction false} SortedHeadBelow(s: seq<Keyed>, k: int)
    requires SortedByIndex(s) && Only(s, k) != []
    ensures s != [] && s[0].index <= k
  {
    if s[0].index != k {
      SortedHeadBelow(s[1..], k);
    }
  }

  lemma OnlyOfHead(s: seq<Keyed>)
    requires s != []
    ensures Only(s, s[0].index) == [s[0]] + Only(s[1..], s[0].index)
  {
  }

  /** A sorted sequence is determined by its per-key subsequences: there is
      exactly one stable sort of a sequence. */
  lemma {:induction false} SortedUnique(a: seq<Keyed>, b: seq<Keyed>)
    requires SortedByIndex(a) && SortedByIndex(b)
    requires forall k :: Only(a, k) == Only(b, k)
    ensures a == b
  {
    if a != [] {
      var m := a[0].index;
      OnlyOfHead(a);
      SortedHeadBelow(b, m);
      OnlyOfHead(b);
      SortedHeadBelow(a, b[0].index);
      assert b[0].index == m;
      assert Only(a, m)[0] == a[0] && Only(b, m)[0] == b[0];
      assert a[0] == b[0];
      forall k
        ensures Only(a[1..], k) == Only(b[1..], k)
      {
        assert Only(a, k) == (if a[0].index == k then [a[0]] else []) + Only(a[1..], k);
        assert Only(b, k) == (if b[0].index == k then [b[0]] else []) + Only(b[1..], k);
        assert Only(a, k) == Only(b, k);
        if a[0].index == k {
          assert Only(a[1..], k) == Only(a, k)[1..];
          assert Only(b[1..], k) == Only(b, k)[1..];
        } else {
          assert Only(a[1..], k) == Only(a, k);
          assert Only(b[1..], k) == Only(b, k);
        }
      }
      SortedUnique(a[1..], b[1..]);
      assert a == [a[0]] + a[1..] && b == [b[0]] + b[1..];
    } else if b != [] {
      OnlyOfHead(b);
    }
  }

  // ---------------------------------------------------------------------
  // _load_scaling_ranges
  // ---------------------------------------------------------------------

  /** Reads every key as an integer, in file order; the first key that is
      not an integer raises. */
  function KeyAll(entries: seq<StatEntry>): (r: Result<seq<Keyed>>)
    ensures r.Ok? <==> forall i :: 0 <= i < |entries| ==> ParseInt(entries[i].key).Some?
    ensures r.Ok? ==> |r.value| == |entries|
    ensures r.Ok? ==> forall i :: 0 <= i < |entries| ==>
      r.value[i] == Keyed(ParseInt(entries[i].key).value, entries[i])
    ensures r.Err? ==> exists i :: (0 <= i < |entries| && ParseInt(entries[i].key).None?
      && r.error == NonIntegerKey(entries[i].key)
      && forall j :: 0 <= j < i ==> ParseInt(entries[j].key).Some?)
  {
    if entries == [] then Ok([])
    else match ParseInt(entries[0].key)
      case None => Err(NonIntegerKey(entries[0].key))
      case Some(n) =>
        match KeyAll(entries[1..])
        case Err(e) =>
          ghost var i :| 0 <= i < |entries[1..]| && ParseInt(entries[1..][i].key).None?
            && e == NonIntegerKey(entries[1..][i].key)
            && forall j :: 0 <= j < i ==> ParseInt(entries[1..][j].key).Some?;
          assert entries[i + 1] == entries[1..][i];
          Err(e)
        case Ok(rest) =>
          assert forall i :: 1 <= i < |entries| ==> entries[i] == entries[1..][i - 1];
          Ok([Keyed(n, entries[0])] + rest)
  }

  predicate HasBounds(e: StatEntry) { e.min.Some? && e.max.Some? }

  /** `[(v["min"], v["max"]) for k, v in items]`; the first item without
      "min" (looked up first) or "max" raises. */
  function RangesOf(s: seq<Keyed>): (r: Result<seq<DimRange>>)
    ensures r.Ok? <==> forall i :: 0 <= i < |s| ==> HasBounds(s[i].entry)
    ensures r.Ok? ==> |r.value| == |s|
    ensures r.Ok? ==> forall i :: 0 <= i < |s| ==>
      r.value[i] == DimRange(s[i].entry.min.value, s[i].entry.max.value)
    ensures r.Err? ==> exists i :: (0 <= i < |s| && !HasBounds(s[i].entry)
      && r.error == MissingField(s[i].entry.key, if s[i].entry.min.None? then "min" else "max")
      && forall j :: 0 <= j < i ==> HasBounds(s[j].entry))
  {
    if s == [] then Ok([])
    else if s[0].entry.min.None? then Err(MissingField(s[0].entry.key, "min"))
    else if s[0].entry.max.None? then Err(MissingField(s[0].entry.key, "max"))
    else
      match RangesOf(s[1..])
      case Err(e) =>
        ghost var i :| 0 <= i < |s[1..]| && !HasBounds(s[1..][i].entry)
          && e == MissingField(s[1..][i].entry.key, if s[1..][i].entry.min.None? then "min" else "max")
          && forall j :: 0 <= j < i ==> HasBounds(s[1..][j].entry);
        assert s[i + 1] == s[1..][i];
        Err(e)
      case Ok(rest) =>
        assert forall i :: 1 <= i < |s| ==> s[i] == s[1..][i - 1];
        Ok([DimRange(s[0].entry.min.value, s[0].entry.max.value)] + rest)
  }

  /** The body of `_load_scaling_ranges` after `json.load`. */
  function ParseStats(entries: seq<StatEntry>): (r: Result<seq<DimRange>>)
    ensures r.Ok? ==> |r.value| == |entries|
    ensures KeyAll(entries).Err? ==> r == Err(KeyAll(entries).error)
  {
    match KeyAll(entries)
    case Err(e) => Err(e)
    case Ok(keyed) =>
      var sorted := SortByIndex(keyed);
      assert |sorted| == |multiset(sorted)| == |multiset(keyed)| == |keyed|;
      RangesOf(sorted)
  }

  /** `_load_scaling_ranges(path)`: no path means the default file; a path
      that is not a readable file raises. */
  function LoadScalingRanges(fs: FileSystem, path: Option<string>): (r: Result<seq<DimRange>>)
    ensures var p := if path.Some? then path.value else DefaultStatsPath;
      && (p !in fs ==> r == Err(FileNotFound(p)))
      && (p in fs ==> r == ParseStats(fs[p]))
  {
    var p := if path.Some? then path.value else DefaultStatsPath;
    if p in fs then ParseStats(fs[p]) else Err(FileNotFound(p))
  }

  /** Reordering items does not change whether all of them have both bounds. */
  lemma BoundedPermutation(s: seq<Keyed>, t: seq<Keyed>)
    requires multiset(s) == multiset(t)
    requires forall i :: 0 <= i < |s| ==> HasBounds(s[i].entry)
    ensures forall j :: 0 <= j < |t| ==> HasBounds(t[j].entry)
  {
    forall j | 0 <= j < |t|
      ensures HasBounds(t[j].entry)
    {
      assert t[j] in multiset(s);
      var i :| 0 <= i < |s| && s[i] == t[j];
    }
  }

  /** The load succeeds exactly when every key is an integer and every entry
      has both "min" and "max". */
  lemma ParseStatsOkIff(entries: seq<StatEntry>)
    ensures ParseStats(entries).Ok? <==>
      forall i :: 0 <= i < |entries| ==> ParseInt(entries[i].key).Some? && HasBounds(entries[i])
  {
    var k := KeyAll(entries);
    if k.Ok? {
      var sorted := SortByIndex(k.value);
      assert ParseStats(entries) == RangesOf(sorted);
      if RangesOf(sorted).Ok? {
        BoundedPermutation(sorted, k.value);
      } else if forall i :: 0 <= i < |k.value| ==> HasBounds(k.value[i].entry) {
        BoundedPermutation(k.value, sorted);
      }
    }
  }

  /** The loaded ranges are the bounds of the entries in THE stable order by
      integer key: any sequence sorted by key that keeps the file order of
      equal keys gives the same ranges. */
  lemma ParseStatsIsStableSort(entries: seq<StatEntry>, ks: seq<Keyed>)
    requires KeyAll(entries).Ok?
    requires SortedByIndex(ks)
    requires forall k :: Only(ks, k) == Only(KeyAll(entries).value, k)
    ensures ParseStats(entries) == RangesOf(ks)
  {
    var keyed := KeyAll(entries).value;
    forall k
      ensures Only(SortByIndex(keyed), k) == Only(ks, k)
    {
      SortStable(keyed, k);
    }
    SortedUnique(SortByIndex(keyed), ks);
  }

  lemma ExampleKeys(ten: StatEntry, two: StatEntry)
    requires ten.key == "10" && two.key == "2"
    ensures KeyAll([ten, two]) == Ok([Keyed(10, ten), Keyed(2, two)])
  {
    assert "10"[..1] == "1";
    assert DigitsValue("10") == 10;
    assert ParseInt("10") == Some(10);
    assert ParseInt("2") == Some(2);
    var entries := [ten, two];
    assert ParseInt(entries[0].key).Some? && ParseInt(entries[1].key).Some?;
    var k := KeyAll(entries);
    assert k.Ok? && |k.value| == 2;
    assert k.value == [Keyed(10, ten), Keyed(2, two)];
  }

  lemma ExampleSort(ten: StatEntry, two: StatEntry)
    ensures SortByIndex([Keyed(10, ten), Keyed(2, two)]) == [Keyed(2, two), Keyed(10, ten)]
  {
    var keyed := [Keyed(10, ten), Keyed(2, two)];
    assert keyed[1..] == [Keyed(2, two)];
    assert SortByIndex(keyed[1..]) == [Keyed(2, two)];
  }

  /** Keys are ordered as numbers, not as strings: "2" comes before "10". */
  lemma NumericNotLexicalOrder()
    ensures ParseStats([StatEntry("10", Some(1.0), Some(2.0)), StatEntry("2", Some(3.0), Some(4.0))])
      == Ok([DimRange(3.0, 4.0), DimRange(1.0, 2.0)])
  {
    var ten := StatEntry("10", Some(1.0), Some(2.0));
    var two := StatEntry("2", Some(3.0), Some(4.0));
    ExampleKeys(ten, two);
    ExampleSort(ten, two);
    var sorted := [Keyed(2, two), Keyed(10, ten)];
    assert ParseStats([ten, two]) == RangesOf(sorted);
    assert HasBounds(sorted[0].entry) && HasBounds(sorted[1].entry);
    var r := RangesOf(sorted);
    assert r.Ok? && |r.value| == 2;
    assert r.value == [DimRange(3.0, 4.0), DimRange(1.0, 2.0)];
  }
}
