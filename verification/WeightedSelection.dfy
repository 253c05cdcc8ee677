/** Weighted choice (internal/provider/provider.go:186-209, 309-360): a rejection-sampled 64-bit draw
    picks a provider, or a fallback state, with exactly the share its weight says. */
module WeightedSelection {
  import opened Model
  import opened SortedStrings

  const TWO_TO_THE_64 := 0x1_0000_0000_0000_0000
  const MAX_UINT64 := TWO_TO_THE_64 - 1

  datatype SelectError = InvalidLimit | InvalidRange | RandomSource | NoWeight | SelectionFailed

  // ---------------------------------------------------------------------------
  // Drawing a number below a limit
  // ---------------------------------------------------------------------------

  function Ceiling(limit: nat): nat
    requires 0 < limit <= MAX_UINT64
  {
    MAX_UINT64 - MAX_UINT64 % limit
  }

  predicate Accepted(draw: nat, limit: nat)
    requires 0 < limit <= MAX_UINT64
  {
    draw < Ceiling(limit)
  }

  /** cryptoUint's answer: the first accepted draw, reduced to the limit. The draws are what the random
      source yields before it fails. */
  function FirstDraw(draws: seq<nat>, limit: nat): Result<nat, SelectError>
    requires 0 < limit <= MAX_UINT64
  {
    if draws == [] then Err(RandomSource)
    else if Accepted(draws[0], limit) then Ok(draws[0] % limit)
    else FirstDraw(draws[1..], limit)
  }

  ghost predicate IsFirstAccepted(draws: seq<nat>, limit: nat, i: nat)
    requires 0 < limit <= MAX_UINT64
  {
    i < |draws| && Accepted(draws[i], limit) && forall j :: 0 <= j < i ==> !Accepted(draws[j], limit)
  }

  method CryptoUint(limit: nat, draws: seq<nat>) returns (r: Result<nat, SelectError>)
    requires limit <= MAX_UINT64
    ensures r == if limit == 0 then Err(InvalidLimit) else FirstDraw(draws, limit)
    ensures r.Ok? ==> r.value < limit
    ensures r.Ok? ==> exists i: nat :: IsFirstAccepted(draws, limit, i) && draws[i] % limit == r.value
  {
    if limit == 0 {
      return Err(InvalidLimit);
    }
    var ceiling := MAX_UINT64 - MAX_UINT64 % limit;
    var i := 0;
    while i < |draws|
      invariant i <= |draws| && FirstDraw(draws[i..], limit) == FirstDraw(draws, limit)
      invariant forall j :: 0 <= j < i ==> !Accepted(draws[j], limit)
    {
      if draws[i] < ceiling {
        assert IsFirstAccepted(draws, limit, i);
        return Ok(draws[i] % limit);
      }
      i := i + 1;
    }
    return Err(RandomSource);
  }

  /** cryptoInt on 64-bit operands: the width of the range is taken modulo 2^64, so a range that covers
      all of them is refused. */
  method CryptoInt(min: int, max: int, draws: seq<nat>) returns (r: Result<int, SelectError>)
    requires 0 <= max - min < TWO_TO_THE_64 || max < min
    ensures max < min ==> r == Err(InvalidRange)
    ensures min <= max && max - min == MAX_UINT64 ==> r == Err(InvalidLimit)
    ensures r.Ok? ==> min <= r.value <= max
    ensures 0 <= max - min < MAX_UINT64 ==>
              r == match FirstDraw(draws, max - min + 1) case Ok(n) => Ok(min + n) case Err(e) => Err(e)
  {
    if max < min {
      return Err(InvalidRange);
    }
    var limit := (max - min + 1) % TWO_TO_THE_64;
    WrappedWidth(max - min);
    var n := CryptoUint(limit, draws);
    match n
    case Ok(v) => return Ok(min + v);
    case Err(e) => return Err(e);
  }

  lemma WrappedWidth(width: nat)
    requires width < TWO_TO_THE_64
    ensures (width + 1) % TWO_TO_THE_64 == if width == MAX_UINT64 then 0 else width + 1
  {
  }

  // ---------------------------------------------------------------------------
  // Counting draws
  // ---------------------------------------------------------------------------

  /** The 64-bit draws that are accepted and whose residue lies in [lo, hi). */
  ghost function DrawsIn(limit: nat, lo: nat, hi: nat): set<int>
    requires 0 < limit <= MAX_UINT64
  {
    set x: int | 0 <= x < TWO_TO_THE_64 && Accepted(x, limit) && lo <= x % limit < hi
  }

  predicate Within(x: int, a: int, b: int) {
    a <= x < b
  }

  ghost function Interval(a: int, b: int): set<int> {
    set x: int | a <= x < b && Within(x, a, b)
  }

  lemma {:induction false} IntervalSize(a: int, b: int)
    requires a <= b
    ensures |Interval(a, b)| == b - a
    decreases b - a
  {
    if a < b {
      IntervalSize(a, b - 1);
      assert Interval(a, b) == Interval(a, b - 1) + {b - 1};
    } else {
      assert Interval(a, b) == {};
    }
  }

  lemma NoSmallMultiple(k: int, m: nat)
    ensures k >= 1 ==> k * m >= m
    ensures k <= -1 ==> k * m <= -(m as int)
  {
    assert k * m == (k - 1) * m + m && k * m == (k + 1) * m - m;
    assert k >= 1 ==> (k - 1) * m >= 0;
    assert k <= -1 ==> (k + 1) * m <= 0;
  }

  /** Within the block of `limit` numbers that starts at a multiple of it, the residue is the offset. */
  lemma ResidueInBlock(x: int, q: nat, limit: nat, base: int)
    requires limit > 0 && base == q * limit && base <= x < base + limit
    ensures x % limit == x - base
  {
    var p := x / limit;
    assert x == p * limit + x % limit;
    assert (p - q) * limit == p * limit - q * limit;
    NoSmallMultiple(p - q, limit);
  }

  ghost function Below(bound: int, limit: nat, lo: nat, hi: nat): set<int>
    requires limit > 0
  {
    set x: int | 0 <= x < bound && lo <= x % limit < hi
  }

  lemma OneMoreBlock(q: nat, limit: nat, base: int, lo: nat, hi: nat)
    requires limit > 0 && base == q * limit && lo <= hi <= limit && base >= 0
    ensures |Below(base + limit, limit, lo, hi)| == |Below(base, limit, lo, hi)| + (hi - lo)
  {
    var block := Interval(base + lo, base + hi);
    IntervalSize(base + lo, base + hi);
    forall x: int ensures x in Below(base + limit, limit, lo, hi) <==> x in Below(base, limit, lo, hi) || x in block {
      if base <= x < base + limit {
        ResidueInBlock(x, q, limit, base);
      }
    }
    assert Below(base + limit, limit, lo, hi) == Below(base, limit, lo, hi) + block;
    assert Below(base, limit, lo, hi) !! block;
  }

  lemma {:induction false} BelowSize(q: nat, limit: nat, lo: nat, hi: nat)
    requires limit > 0 && lo <= hi <= limit
    ensures |Below(q * limit, limit, lo, hi)| == q * (hi - lo)
  {
    if q == 0 {
      assert Below(q * limit, limit, lo, hi) == {};
    } else {
      BelowSize(q - 1, limit, lo, hi);
      OneMoreBlock(q - 1, limit, (q - 1) * limit, lo, hi);
      assert q * limit == (q - 1) * limit + limit;
      assert q * (hi - lo) == (q - 1) * (hi - lo) + (hi - lo);
    }
  }

  /** Every residue class gets the same number of accepted draws: an interval of residues gets its
      length times that number. */
  lemma DrawsAreEven(limit: nat, lo: nat, hi: nat)
    requires 0 < limit <= MAX_UINT64 && lo <= hi <= limit
    ensures |DrawsIn(limit, lo, hi)| == (MAX_UINT64 / limit) * (hi - lo)
    ensures MAX_UINT64 / limit >= 1
  {
    var q := MAX_UINT64 / limit;
    assert MAX_UINT64 == q * limit + MAX_UINT64 % limit;
    assert Ceiling(limit) == q * limit;
    BelowSize(q, limit, lo, hi);
    assert DrawsIn(limit, lo, hi) == Below(q * limit, limit, lo, hi);
  }

  // ---------------------------------------------------------------------------
  // Walking down the weights
  // ---------------------------------------------------------------------------

  function Total(weights: seq<nat>): nat {
    if weights == [] then 0 else weights[0] + Total(weights[1..])
  }

  /** The position at which subtracting the weights from `n` one after the other first goes below zero. */
  function Choose(weights: seq<nat>, n: nat): Option<nat> {
    if weights == [] then None
    else if n < weights[0] then Some(0)
    else match Choose(weights[1..], n - weights[0])
      case Some(i) => Some(i + 1)
      case None => None
  }

  /** Position `i` is chosen by exactly the numbers of an interval as long as its weight, and some
      position by every number below the total. */
  lemma {:induction false} ChooseShare(weights: seq<nat>, n: nat, i: nat)
    ensures Choose(weights, n) == Some(i) <==>
              i < |weights| && Total(weights[..i]) <= n < Total(weights[..i]) + weights[i]
    ensures Choose(weights, n) == None <==> n >= Total(weights)
    ensures i < |weights| ==> Total(weights[..i]) + weights[i] <= Total(weights)
  {
    if weights != [] {
      var rest := weights[1..];
      if i == 0 {
        assert weights[..0] == [];
        ChooseShare(rest, if n >= weights[0] then n - weights[0] else 0, 0);
      } else {
        ChooseShare(rest, if n >= weights[0] then n - weights[0] else 0, i - 1);
        if i < |weights| {
          assert weights[..i][1..] == rest[..i - 1];
        }
      }
    }
  }

  /** The draws that lead to position `i`. */
  ghost function DrawsFor(weights: seq<nat>, i: nat): set<int>
    requires 0 < Total(weights) <= MAX_UINT64
  {
    set x: int | 0 <= x < TWO_TO_THE_64 && Accepted(x, Total(weights)) && Choose(weights, x % Total(weights)) == Some(i)
  }

  /** Selection is exact end to end: of the accepted 64-bit draws, position `i` gets exactly its weight's
      share, and no accepted draw gets lost. */
  lemma SharesAreExact(weights: seq<nat>, i: nat)
    requires 0 < Total(weights) <= MAX_UINT64 && i < |weights|
    ensures |DrawsFor(weights, i)| == (MAX_UINT64 / Total(weights)) * weights[i]
    ensures |DrawsIn(Total(weights), 0, Total(weights))| == (MAX_UINT64 / Total(weights)) * Total(weights)
    ensures forall x :: x in DrawsIn(Total(weights), 0, Total(weights)) ==> Choose(weights, x % Total(weights)).Some?
  {
    var total := Total(weights);
    var lo := Total(weights[..i]);
    ChooseShare(weights, 0, i);
    DrawsAreEven(total, lo, lo + weights[i]);
    DrawsAreEven(total, 0, total);
    forall x: int | 0 <= x < TWO_TO_THE_64
      ensures x in DrawsFor(weights, i) <==> x in DrawsIn(total, lo, lo + weights[i])
      ensures Choose(weights, x % total).Some?
    {
      ChooseShare(weights, x % total, i);
    }
    assert DrawsFor(weights, i) == DrawsIn(total, lo, lo + weights[i]);
  }

  // ---------------------------------------------------------------------------
  // Providers
  // ---------------------------------------------------------------------------

  /** The part of a provider definition that selection looks at. */
  datatype Definition = Definition(id: string, enabled: bool, weight: int)

  predicate Selectable(d: Definition) {
    d.enabled && d.weight > 0
  }

  function Candidates(ds: seq<Definition>): seq<Definition> {
    if ds == [] then [] else
      var last := ds[|ds| - 1];
      Candidates(ds[..|ds| - 1]) + (if Selectable(last) then [last] else [])
  }

  lemma {:induction false} CandidatesAreSelectable(ds: seq<Definition>)
    ensures forall i :: 0 <= i < |Candidates(ds)| ==> Selectable(Candidates(ds)[i]) && Candidates(ds)[i] in ds
    ensures forall i :: 0 <= i < |ds| && Selectable(ds[i]) ==> ds[i] in Candidates(ds)
  {
    if ds != [] {
      CandidatesAreSelectable(ds[..|ds| - 1]);
      assert ds == ds[..|ds| - 1] + [ds[|ds| - 1]];
    }
  }

  function Weights(ds: seq<Definition>): seq<nat>
    requires forall i :: 0 <= i < |ds| ==> ds[i].weight > 0
  {
    seq(|ds|, i requires 0 <= i < |ds| => ds[i].weight)
  }

  lemma {:induction false} TotalGrows(weights: seq<nat>, w: nat)
    ensures Total(weights + [w]) == Total(weights) + w
  {
    if weights != [] {
      assert (weights + [w])[1..] == weights[1..] + [w];
      TotalGrows(weights[1..], w);
    }
  }

  ghost function CandidateWeights(ds: seq<Definition>): seq<nat> {
    CandidatesAreSelectable(ds);
    Weights(Candidates(ds))
  }

  /** The answer of SelectWeighted as a function of the draws. */
  ghost function Selection(ds: seq<Definition>, draws: seq<nat>): Result<Definition, SelectError>
    requires Total(CandidateWeights(ds)) <= MAX_UINT64
  {
    var total := Total(CandidateWeights(ds));
    if total == 0 then Err(NoWeight) else
    match FirstDraw(draws, total)
    case Err(e) => Err(e)
    case Ok(n) =>
      match Choose(CandidateWeights(ds), n)
      case None => Err(SelectionFailed)
      case Some(i) => if i < |Candidates(ds)| then Ok(Candidates(ds)[i]) else Err(SelectionFailed)
  }

  /** The first loop of SelectWeighted. */
  method CollectEnabled(definitions: seq<Definition>) returns (enabled: seq<Definition>, total: nat)
    ensures enabled == Candidates(definitions) && total == Total(CandidateWeights(definitions))
  {
    enabled, total := [], 0;
    for i := 0 to |definitions|
      invariant enabled == Candidates(definitions[..i]) && total == Total(CandidateWeights(definitions[..i]))
    {
      var d := definitions[i];
      assert definitions[..i + 1][..i] == definitions[..i];
      if d.enabled && d.weight > 0 {
        TotalGrows(CandidateWeights(definitions[..i]), d.weight);
        enabled := enabled + [d];
        total := total + d.weight;
        assert CandidateWeights(definitions[..i + 1]) == CandidateWeights(definitions[..i]) + [d.weight];
      }
    }
    assert definitions[..|definitions|] == definitions;
  }

  /** The second loop: subtract until the number goes below zero. */
  method WalkDown(weights: seq<nat>, draw: nat) returns (r: Option<nat>)
    ensures r == Choose(weights, draw)
  {
    var n: int := draw;
    for i := 0 to |weights|
      invariant n >= 0
      invariant Choose(weights, draw) == match Choose(weights[i..], n) case Some(j) => Some(j + i) case None => None
    {
      assert weights[i..][0] == weights[i] && weights[i..][1..] == weights[i + 1..];
      n := n - weights[i];
      if n < 0 {
        return Some(i);
      }
    }
    return None;
  }

  /** SelectWeighted: the "selection failed" exit is never taken, and with `ProviderShare` each enabled
      provider is chosen by exactly its share of the draws. */
  method SelectWeighted(definitions: seq<Definition>, draws: seq<nat>) returns (r: Result<Definition, SelectError>)
    requires Total(CandidateWeights(definitions)) <= 0x7fff_ffff_ffff_ffff
    ensures r == Selection(definitions, draws) && r != Err(SelectionFailed)
    ensures r.Ok? ==> r.value in definitions && r.value.enabled && r.value.weight >= 1
    ensures r == Err(NoWeight) <==>
              forall i :: 0 <= i < |definitions| ==> !definitions[i].enabled || definitions[i].weight <= 0
  {
    var enabled, total := CollectEnabled(definitions);
    NoneSelectable(definitions);
    if total == 0 {
      return Err(NoWeight);
    }
    CandidatesAreSelectable(definitions);
    var draw := CryptoInt(0, total - 1, draws);
    FirstDrawError(draws, total);
    if draw.Err? {
      return Err(draw.error);
    }
    ChooseShare(CandidateWeights(definitions), draw.value, 0);
    var i := WalkDown(Weights(enabled), draw.value);
    ChooseInRange(CandidateWeights(definitions), draw.value);
    return Ok(enabled[i.value]);
  }

  /** The draws on which SelectWeighted answers with `d` at once. */
  ghost function DrawsSelecting(ds: seq<Definition>, d: Definition): set<int>
    requires Total(CandidateWeights(ds)) <= MAX_UINT64
  {
    set x: int | 0 <= x < TWO_TO_THE_64 && Selection(ds, [x]) == Ok(d)
  }

  /** The weight of a definition in a list, counted as often as it is listed. */
  function WeightOf(ds: seq<Definition>, d: Definition): int {
    if ds == [] then 0 else WeightOf(ds[..|ds| - 1], d) + (if ds[|ds| - 1] == d then d.weight else 0)
  }

  /** The draws that lead to one of the first `n` candidates, and that being `d`. */
  ghost function DrawsAmong(ds: seq<Definition>, n: nat, d: Definition): set<int>
    requires 0 < Total(CandidateWeights(ds)) <= MAX_UINT64 && n <= |Candidates(ds)|
  {
    set x: int | 0 <= x < TWO_TO_THE_64 && Among(ds, n, d, x)
  }

  ghost predicate Among(ds: seq<Definition>, n: nat, d: Definition, x: nat)
    requires 0 < Total(CandidateWeights(ds)) <= MAX_UINT64 && n <= |Candidates(ds)|
  {
    && Accepted(x, Total(CandidateWeights(ds)))
    && var i := Choose(CandidateWeights(ds), x % Total(CandidateWeights(ds)));
       i.Some? && i.value < n && Candidates(ds)[i.value] == d
  }

  lemma {:induction false} AmongShare(ds: seq<Definition>, n: nat, d: Definition)
    requires 0 < Total(CandidateWeights(ds)) <= MAX_UINT64 && n <= |Candidates(ds)|
    ensures |DrawsAmong(ds, n, d)| == (MAX_UINT64 / Total(CandidateWeights(ds))) * WeightOf(Candidates(ds)[..n], d)
    decreases n
  {
    var weights, q := CandidateWeights(ds), MAX_UINT64 / Total(CandidateWeights(ds));
    if n == 0 {
      assert DrawsAmong(ds, 0, d) == {};
    } else {
      AmongShare(ds, n - 1, d);
      assert Candidates(ds)[..n][..n - 1] == Candidates(ds)[..n - 1];
      if Candidates(ds)[n - 1] == d {
        SharesAreExact(weights, n - 1);
        assert DrawsAmong(ds, n, d) == DrawsAmong(ds, n - 1, d) + DrawsFor(weights, n - 1);
        assert DrawsAmong(ds, n - 1, d) !! DrawsFor(weights, n - 1);
        Distributes(q, WeightOf(Candidates(ds)[..n - 1], d), d.weight);
      } else {
        assert DrawsAmong(ds, n, d) == DrawsAmong(ds, n - 1, d);
      }
    }
  }

  lemma Distributes(q: int, a: int, b: int)
    ensures q * (a + b) == q * a + q * b
  {
  }

  /** Of the accepted 64-bit draws, exactly its weight's share selects a provider; one that is listed more
      than once gets the sum. */
  lemma ProviderShare(ds: seq<Definition>, d: Definition)
    requires 0 < Total(CandidateWeights(ds)) <= MAX_UINT64
    ensures |DrawsSelecting(ds, d)| == (MAX_UINT64 / Total(CandidateWeights(ds))) * WeightOf(Candidates(ds), d)
  {
    var weights, n := CandidateWeights(ds), |Candidates(ds)|;
    AmongShare(ds, n, d);
    assert Candidates(ds)[..n] == Candidates(ds);
    forall x: int | 0 <= x < TWO_TO_THE_64 ensures x in DrawsSelecting(ds, d) <==> x in DrawsAmong(ds, n, d) {
      OneDraw(x, Total(weights));
      ChooseInRange(weights, x % Total(weights));
    }
    assert DrawsSelecting(ds, d) == DrawsAmong(ds, n, d);
  }

  lemma OneDraw(x: nat, limit: nat)
    requires 0 < limit <= MAX_UINT64
    ensures FirstDraw([x], limit) == if Accepted(x, limit) then Ok(x % limit) else Err(RandomSource)
  {
    assert [x][1..] == [];
  }

  lemma NoneSelectable(ds: seq<Definition>)
    ensures Total(CandidateWeights(ds)) == 0 <==> forall i :: 0 <= i < |ds| ==> !Selectable(ds[i])
  {
    CandidatesAreSelectable(ds);
    NoCandidates(CandidateWeights(ds));
    if Candidates(ds) != [] {
      assert CandidateWeights(ds)[0] == Candidates(ds)[0].weight;
      assert Candidates(ds)[0] in ds;
    }
  }

  lemma ChooseInRange(weights: seq<nat>, n: nat)
    ensures Choose(weights, n).Some? ==> Choose(weights, n).value < |weights|
  {
    if Choose(weights, n).Some? {
      ChooseShare(weights, n, Choose(weights, n).value);
    }
  }

  lemma NoCandidates(weights: seq<nat>)
    ensures Total(weights) == 0 <==> forall i :: 0 <= i < |weights| ==> weights[i] == 0
  {
    if weights != [] {
      NoCandidates(weights[1..]);
      assert weights == [weights[0]] + weights[1..];
    }
  }

  // ---------------------------------------------------------------------------
  // Fallback states
  // ---------------------------------------------------------------------------

  /** A weight in millionths, as the source truncates it. */
  function Micro(weight: real): nat {
    if weight <= 0.0 then 0 else (weight * 1000000.0).Floor
  }

  lemma MicroMeans(weight: real)
    ensures weight <= 0.0 ==> Micro(weight) == 0
    ensures weight > 0.0 ==> Micro(weight) as real <= weight * 1000000.0 < (Micro(weight) + 1) as real
  {
  }

  function Micros(weights: map<string, real>, keys: seq<string>): seq<nat>
    requires forall i :: 0 <= i < |keys| ==> keys[i] in weights
  {
    seq(|keys|, i requires 0 <= i < |keys| => Micro(weights[keys[i]]))
  }

  /** The keys with a positive weight, in the order sort.Strings gives them. */
  ghost predicate IsKeyOrder(weights: map<string, real>, keys: seq<string>) {
    Sorted(keys) && forall k :: k in keys <==> k in weights && weights[k] > 0.0
  }

  ghost function Enumerate(keys: set<string>): seq<string> {
    if keys == {} then [] else var k :| k in keys; [k] + Enumerate(keys - {k})
  }

  lemma {:induction false} EnumerateLists(keys: set<string>)
    ensures Distinct(Enumerate(keys)) && forall k :: k in Enumerate(keys) <==> k in keys
  {
    if keys != {} {
      var k :| k in keys && Enumerate(keys) == [k] + Enumerate(keys - {k});
      EnumerateLists(keys - {k});
      assert forall j :: 0 <= j < |Enumerate(keys - {k})| ==> Enumerate(keys - {k})[j] in Enumerate(keys - {k});
    }
  }

  ghost function KeyOrder(weights: map<string, real>): (keys: seq<string>)
    ensures IsKeyOrder(weights, keys)
  {
    var positive := set k | k in weights && weights[k] > 0.0;
    EnumerateLists(positive);
    SortSorts(Enumerate(positive));
    Sort(Enumerate(positive))
  }

  /** The loop over the map, in whatever order it is visited. */
  method CollectStates(weights: map<string, real>) returns (keys: seq<string>, total: nat)
    ensures Distinct(keys) && (forall k :: k in keys <==> k in weights && weights[k] > 0.0)
    ensures total == Total(Micros(weights, keys))
  {
    keys, total := [], 0;
    var rest := weights.Keys;
    while rest != {}
      invariant rest <= weights.Keys && Distinct(keys)
      invariant forall k :: k in keys <==> k in weights && k !in rest && weights[k] > 0.0
      invariant total == Total(Micros(weights, keys))
    {
      var k := Pick(rest);
      if weights[k] > 0.0 {
        TotalGrows(Micros(weights, keys), Micro(weights[k]));
        assert Micros(weights, keys + [k]) == Micros(weights, keys) + [Micro(weights[k])];
        keys := keys + [k];
        total := total + Micro(weights[k]);
      }
      rest := rest - {k};
    }
  }

  lemma {:induction false} TotalOfInsert(weights: map<string, real>, x: string, s: seq<string>)
    requires x in weights && forall i :: 0 <= i < |s| ==> s[i] in weights
    ensures forall i :: 0 <= i < |Insert(x, s)| ==> Insert(x, s)[i] in weights
    ensures Total(Micros(weights, Insert(x, s))) == Micro(weights[x]) + Total(Micros(weights, s))
  {
    if s == [] || Less(x, s[0]) {
      assert Micros(weights, [x] + s)[1..] == Micros(weights, s);
    } else {
      TotalOfInsert(weights, x, s[1..]);
      var rest := Insert(x, s[1..]);
      assert Micros(weights, [s[0]] + rest)[1..] == Micros(weights, rest);
      assert Micros(weights, s)[1..] == Micros(weights, s[1..]);
    }
  }

  /** The total does not depend on the order in which the weights are summed. */
  lemma {:induction false} TotalOfSort(weights: map<string, real>, s: seq<string>)
    requires forall i :: 0 <= i < |s| ==> s[i] in weights
    ensures forall i :: 0 <= i < |Sort(s)| ==> Sort(s)[i] in weights
    ensures Total(Micros(weights, Sort(s))) == Total(Micros(weights, s))
  {
    if s != [] {
      var init, last := s[..|s| - 1], s[|s| - 1];
      TotalOfSort(weights, init);
      TotalOfInsert(weights, last, Sort(init));
      TotalGrows(Micros(weights, init), Micro(weights[last]));
      assert Micros(weights, s) == Micros(weights, init) + [Micro(weights[last])];
    }
  }

  lemma NoMicros(weights: map<string, real>, keys: seq<string>)
    requires IsKeyOrder(weights, keys)
    ensures Total(Micros(weights, keys)) == 0 <==> forall k :: k in weights ==> weights[k] * 1000000.0 < 1.0
  {
    var micros := Micros(weights, keys);
    NoCandidates(micros);
    forall k | k in weights ensures Micro(weights[k]) == 0 <==> weights[k] * 1000000.0 < 1.0 {
      MicroMeans(weights[k]);
    }
    if Total(micros) == 0 {
      forall k | k in weights ensures Micro(weights[k]) == 0 {
        if weights[k] > 0.0 {
          var i :| 0 <= i < |keys| && keys[i] == k;
          assert micros[i] == 0;
        }
      }
    } else {
      var i :| 0 <= i < |micros| && micros[i] != 0;
      assert keys[i] in keys;
      assert Micro(weights[keys[i]]) != 0;
    }
  }

  /** weightedString: summed in map order and selected in sorted order, it never fails to select; the key
      it picks is the one the draw falls on when the keys are laid out in order, so that with `StateShare`
      every key has exactly its weight's share of the draws. */
  method WeightedString(weights: map<string, real>, draws: seq<nat>) returns (r: Result<string, SelectError>)
    requires Total(Micros(weights, KeyOrder(weights))) <= MAX_UINT64
    ensures r != Err(SelectionFailed)
    ensures r == Err(NoWeight) <==> Total(Micros(weights, KeyOrder(weights))) == 0
    ensures r == StateSelection(weights, draws)
    ensures r.Ok? ==> r.value in weights && weights[r.value] * 1000000.0 >= 1.0
    ensures r == Err(NoWeight) <==> forall k :: k in weights ==> weights[k] * 1000000.0 < 1.0
  {
    ghost var keys := KeyOrder(weights);
    var found, total := CollectStates(weights);
    SortSorts(found);
    TotalOfSort(weights, found);
    SortedIsUnique(Sort(found), keys);
    NoMicros(weights, keys);
    if total == 0 {
      return Err(NoWeight);
    }
    var sorted := Sort(found);
    var n := CryptoUint(total, draws);
    if n.Err? {
      FirstDrawError(draws, total);
      return Err(n.error);
    }
    ChooseShare(Micros(weights, sorted), n.value, 0);
    ChooseInRange(Micros(weights, sorted), n.value);
    var i := WalkDown(Micros(weights, sorted), n.value);
    ChooseShare(Micros(weights, sorted), n.value, i.value);
    MicroMeans(weights[sorted[i.value]]);
    return Ok(sorted[i.value]);
  }

  /** The answer of weightedString as a function of the draws. */
  ghost function StateSelection(weights: map<string, real>, draws: seq<nat>): Result<string, SelectError>
    requires Total(Micros(weights, KeyOrder(weights))) <= MAX_UINT64
  {
    var keys := KeyOrder(weights);
    var total := Total(Micros(weights, keys));
    if total == 0 then Err(NoWeight) else
    match FirstDraw(draws, total)
    case Err(e) => Err(e)
    case Ok(n) =>
      match Choose(Micros(weights, keys), n)
      case None => Err(SelectionFailed)
      case Some(i) => if i < |keys| then Ok(keys[i]) else Err(SelectionFailed)
  }

  ghost function DrawsOfState(weights: map<string, real>, key: string): set<int>
    requires Total(Micros(weights, KeyOrder(weights))) <= MAX_UINT64
  {
    set x: int | 0 <= x < TWO_TO_THE_64 && StateSelection(weights, [x]) == Ok(key)
  }

  /** Of the accepted 64-bit draws, exactly its weight's share selects a fallback state. */
  lemma StateShare(weights: map<string, real>, key: string)
    requires 0 < Total(Micros(weights, KeyOrder(weights))) <= MAX_UINT64 && key in weights && weights[key] > 0.0
    ensures |DrawsOfState(weights, key)|
         == (MAX_UINT64 / Total(Micros(weights, KeyOrder(weights)))) * Micro(weights[key])
  {
    var keys := KeyOrder(weights);
    var micros := Micros(weights, keys);
    var i :| 0 <= i < |keys| && keys[i] == key;
    SharesAreExact(micros, i);
    forall x: int | 0 <= x < TWO_TO_THE_64 ensures x in DrawsOfState(weights, key) <==> x in DrawsFor(micros, i) {
      OneDraw(x, Total(micros));
      ChooseInRange(micros, x % Total(micros));
      SortedAreDistinct(keys);
    }
    assert DrawsOfState(weights, key) == DrawsFor(micros, i);
  }

  lemma SortedAreDistinct(keys: seq<string>)
    requires Sorted(keys)
    ensures forall i, j :: 0 <= i < |keys| && 0 <= j < |keys| && keys[i] == keys[j] ==> i == j
  {
    forall i, j | 0 <= i < j < |keys| ensures keys[i] != keys[j] {
      LessIsTotal(keys[i], keys[j]);
    }
  }

  lemma {:induction false} FirstDrawError(draws: seq<nat>, limit: nat)
    requires 0 < limit <= MAX_UINT64
    ensures FirstDraw(draws, limit).Err? ==> FirstDraw(draws, limit).error == RandomSource
  {
    if draws != [] {
      FirstDrawError(draws[1..], limit);
    }
  }
}
