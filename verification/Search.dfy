/** Two-list paging of search results: exact hits and similar names share each page half and half, until one list
 * runs out. */
module Search {
  import opened Operations

  /** What `retain` keeps. */
  function Without(list: seq<Uuid>, other: seq<Uuid>): seq<Uuid> {
    if list == [] then []
    else
      var rest := Without(list[..|list| - 1], other);
      if list[|list| - 1] in other then rest else rest + [list[|list| - 1]]
  }

  predicate Duplicateless(list: seq<Uuid>) {
    forall i, j | 0 <= i < j < |list| :: list[i] != list[j]
  }

  /** Somewhere in the list `y` comes after `x`. */
  ghost predicate Follows(list: seq<Uuid>, x: Uuid, y: Uuid) {
    exists a, b :: 0 <= a < b < |list| && list[a] == x && list[b] == y
  }

  /** What is kept comes in the list's order. */
  ghost predicate InOrderOf(kept: seq<Uuid>, list: seq<Uuid>) {
    forall i, j | 0 <= i < j < |kept| :: Follows(list, kept[i], kept[j])
  }

  lemma {:induction false} WithoutKeeps(list: seq<Uuid>, other: seq<Uuid>)
    ensures forall x :: x in Without(list, other) <==> x in list && x !in other
    ensures Duplicateless(list) ==> Duplicateless(Without(list, other))
    ensures InOrderOf(Without(list, other), list)
  {
    if list != [] {
      var n := |list| - 1;
      WithoutKeeps(list[..n], other);
      assert list == list[..n] + [list[n]];
      StaysInOrder(Without(list[..n], other), list[..n], list[n]);
    }
  }

  lemma StaysInOrder(rest: seq<Uuid>, front: seq<Uuid>, last: Uuid)
    requires InOrderOf(rest, front) && forall x | x in rest :: x in front
    ensures InOrderOf(rest, front + [last]) && InOrderOf(rest + [last], front + [last])
  {
    var list, kept := front + [last], rest + [last];
    forall i, j | 0 <= i < j < |kept| ensures Follows(list, kept[i], kept[j]) {
      if j < |rest| {
        assert Follows(front, rest[i], rest[j]);
        var a, b :| 0 <= a < b < |front| && front[a] == rest[i] && front[b] == rest[j];
        assert list[a] == kept[i] && list[b] == kept[j];
      } else {
        assert rest[i] in rest;
        var a :| 0 <= a < |front| && front[a] == rest[i];
        assert list[a] == kept[i] && list[|front|] == kept[j];
      }
    }
    forall i, j | 0 <= i < j < |rest| ensures Follows(list, rest[i], rest[j]) {
      assert kept[i] == rest[i] && kept[j] == rest[j];
    }
  }

  method RemoveDuplicates(list: seq<Uuid>, other: seq<Uuid>) returns (kept: seq<Uuid>)
    ensures kept == Without(list, other)
    ensures forall x :: x in kept <==> x in list && x !in other
    ensures InOrderOf(kept, list)
  {
    WithoutKeeps(list, other);
    kept := [];
    assert list[..0] == [];
    for i := 0 to |list|
      invariant kept == Without(list[..i], other)
    {
      assert list[..i + 1][..i] == list[..i];
      if list[i] !in other {
        kept := kept + [list[i]];
      }
    }
    assert list[..|list|] == list;
  }

  function Min(a: nat, b: nat): nat {
    if a < b then a else b
  }

  function Times(a: nat, b: nat): nat {
    a * b
  }

  /** Pages that both lists fill with a half each. */
  function SharedPages(a: nat, b: nat, half: nat): nat
    requires half > 0
  {
    Min(a / half, b / half)
  }

  /** How much of a list the pages before `n` show when it is the shorter one, and shares of `half` while they last. */
  function ShortFrom(short: nat, half: nat, shared: nat, n: nat): nat {
    if n <= shared then Times(n, half) else short
  }

  /** ... and of the longer one, which fills what the shorter leaves of its last page and all pages after it. */
  function LongFrom(short: nat, long: nat, size: nat, half: nat, shared: nat, n: nat): nat
    requires short <= Times(shared, half) + size
  {
    if n <= shared then Times(n, half)
      else Min(long, Times(shared, half) + (size - (short - Times(shared, half))) + Times(n - shared - 1, size))
  }

  /** The paging of two lists of these lengths. */
  datatype Paging = Paging(tan: nat, sim: nat, size: nat) {
    predicate Valid() {
      size >= 2
    }

    function Half(): (h: nat)
      requires Valid()
      ensures h > 0 && (size == 2 * h || size == 2 * h + 1)
    {
      size / 2
    }

    function Shared(): nat
      requires Valid()
    {
      SharedPages(tan, sim, Half())
    }

    predicate TanIsShort()
      requires Valid()
    {
      Shared() == tan / Half()
    }

    /** Exact hits shown before page `n`. */
    function TanFrom(n: nat): nat
      requires Valid()
    {
      ShortFits(tan, sim, Half(), size);
      if TanIsShort() then ShortFrom(tan, Half(), Shared(), n) else LongFrom(sim, tan, size, Half(), Shared(), n)
    }

    /** Similar names shown before page `n`. */
    function SimFrom(n: nat): nat
      requires Valid()
    {
      ShortFits(tan, sim, Half(), size);
      if TanIsShort() then LongFrom(tan, sim, size, Half(), Shared(), n) else ShortFrom(sim, Half(), Shared(), n)
    }

    function Total(): nat {
      tan + sim
    }

    /** The last page the search answers for. */
    function LastServed(): nat
      requires Valid()
    {
      Total() / size + 1
    }
  }

  lemma DivisionBounds(a: nat, half: nat)
    requires half > 0
    ensures Times(a / half, half) <= a < Times(a / half, half) + half
  {
  }

  lemma Scale(a: nat, b: nat, k: nat)
    requires a <= b
    ensures Times(a, k) <= Times(b, k)
  {
    assert b * k - a * k == (b - a) * k;
  }

  lemma OneMoreTime(a: nat, k: nat)
    ensures Times(a + 1, k) == Times(a, k) + k && Times(0, k) == 0
  {
  }

  /** The list that runs out first leaves less than half a page for the page after the shared ones. */
  lemma ShortFits(a: nat, b: nat, half: nat, size: nat)
    requires half > 0 && size >= half
    ensures var shared := SharedPages(a, b, half);
      && Times(shared, half) <= a && Times(shared, half) <= b
      && (shared == a / half ==> a < Times(shared, half) + half && a <= Times(shared, half) + size)
      && (shared != a / half ==>
        shared == b / half && b < Times(shared, half) + half && b <= Times(shared, half) + size)
  {
    hide Times;
    var shared := SharedPages(a, b, half);
    DivisionBounds(a, half);
    DivisionBounds(b, half);
    Scale(shared, a / half, half);
    Scale(shared, b / half, half);
  }

  /** One page further: both lists move on within their lengths, and while the longer one lasts the page is full. */
  lemma LongStays(short: nat, long: nat, size: nat, half: nat, shared: nat, n: nat)
    requires half > 0 && (size == 2 * half || size == 2 * half + 1)
    requires Times(shared, half) <= short < Times(shared, half) + half && Times(shared, half) <= long
    ensures LongFrom(short, long, size, half, shared, n) <= LongFrom(short, long, size, half, shared, n + 1) <= long
    ensures ShortFrom(short, half, shared, n) <= ShortFrom(short, half, shared, n + 1) <= short
    ensures LongFrom(short, long, size, half, shared, 0) == ShortFrom(short, half, shared, 0) == 0
    ensures LongFrom(short, long, size, half, shared, n + 1) < long && n >= shared ==>
      LongFrom(short, long, size, half, shared, n + 1) + ShortFrom(short, half, shared, n + 1) ==
      LongFrom(short, long, size, half, shared, n) + ShortFrom(short, half, shared, n) + size
    ensures n < shared ==>
      && LongFrom(short, long, size, half, shared, n + 1) == LongFrom(short, long, size, half, shared, n) + half
      && ShortFrom(short, half, shared, n + 1) == ShortFrom(short, half, shared, n) + half
  {
    hide Times;
    OneMoreTime(n, half);
    OneMoreTime(0, size);
    OneMoreTime(0, half);
    if n < shared {
      Scale(n + 1, shared, half);
    } else if n > shared {
      OneMoreTime(n - shared - 1, size);
    }
  }

  /** Pages follow on each other in both lists, start at the front, and stay within them. */
  lemma PagesFollow(p: Paging, n: nat)
    requires p.Valid()
    ensures p.TanFrom(n) <= p.TanFrom(n + 1) <= p.tan && p.SimFrom(n) <= p.SimFrom(n + 1) <= p.sim
    ensures p.TanFrom(0) == 0 && p.SimFrom(0) == 0
  {
    hide LongFrom, ShortFrom;
    ShortFits(p.tan, p.sim, p.Half(), p.size);
    if p.TanIsShort() {
      LongStays(p.tan, p.sim, p.size, p.Half(), p.Shared(), n);
    } else {
      LongStays(p.sim, p.tan, p.size, p.Half(), p.Shared(), n);
    }
  }

  /** What page `n` shows: a stretch of the exact hits, then a stretch of the similar names. */
  function Page(tan: seq<Uuid>, sim: seq<Uuid>, p: Paging, n: nat): seq<Uuid>
    requires p.Valid() && p.tan == |tan| && p.sim == |sim|
  {
    PagesFollow(p, n);
    tan[p.TanFrom(n)..p.TanFrom(n + 1)] + sim[p.SimFrom(n)..p.SimFrom(n + 1)]
  }

  /** `skip` and `take`, which stop at the end of the list. */
  function Window(list: seq<Uuid>, skip: nat, take: nat): seq<Uuid> {
    list[Min(skip, |list|)..Min(skip + take, |list|)]
  }

  /** While both lists have half a page left, a page shows half of each, exact hits first. */
  lemma PageIsHalves(tan: seq<Uuid>, sim: seq<Uuid>, p: Paging, n: nat)
    requires p.Valid() && p.tan == |tan| && p.sim == |sim|
    requires n < |tan| / (p.size / 2) && n < |sim| / (p.size / 2)
    ensures var half := p.size / 2;
      && n * half + half <= |tan| && n * half + half <= |sim|
      && Page(tan, sim, p, n) == tan[n * half..n * half + half] + sim[n * half..n * half + half]
  {
    hide Paging.TanFrom, Paging.SimFrom;
    SharedPage(p, n);
  }

  /** The first list that has less than half a page left is shown to its end on that page. */
  lemma ShorterRunsOut(tan: seq<Uuid>, sim: seq<Uuid>, p: Paging, n: nat)
    requires p.Valid() && p.tan == |tan| && p.sim == |sim|
    requires var half := p.size / 2; |tan| / half <= n || |sim| / half <= n
    ensures var half := p.size / 2;
      if |tan| / half <= |sim| / half then ShownTan(tan, p, n + 1) == tan else ShownSim(sim, p, n + 1) == sim
  {
    hide Paging.TanFrom, Paging.SimFrom;
    ShownIsPrefix(tan, sim, p, n + 1);
    EndOfShorter(p, n);
  }

  lemma EndOfShorter(p: Paging, n: nat)
    requires p.Valid() && n >= p.Shared()
    ensures if p.TanIsShort() then p.TanFrom(n + 1) == p.tan else p.SimFrom(n + 1) == p.sim
  {
    hide LongFrom, Times;
  }

  /** Every page that does not show the last of both lists is full; only while pages are half and half, an odd size
   * leaves one place empty. */
  lemma PageIsFull(tan: seq<Uuid>, sim: seq<Uuid>, p: Paging, n: nat)
    requires p.Valid() && p.tan == |tan| && p.sim == |sim|
    requires ShownTan(tan, p, n + 1) != tan || ShownSim(sim, p, n + 1) != sim
    ensures var half := p.size / 2;
      |Page(tan, sim, p, n)| == if n < |tan| / half && n < |sim| / half then 2 * half else p.size
  {
    hide LongFrom, ShortFrom, Times;
    ShownIsPrefix(tan, sim, p, n + 1);
    ShortFits(p.tan, p.sim, p.Half(), p.size);
    PagesFollow(p, n);
    if p.TanIsShort() {
      LongStays(p.tan, p.sim, p.size, p.Half(), p.Shared(), n);
      ShortRunsOut(p.tan, p.Half(), p.Shared(), n);
    } else {
      LongStays(p.sim, p.tan, p.size, p.Half(), p.Shared(), n);
      ShortRunsOut(p.sim, p.Half(), p.Shared(), n);
    }
  }

  /** A page goes on where the pages before it stopped: some exact hits, then some similar names. */
  lemma PageGoesOn(tan: seq<Uuid>, sim: seq<Uuid>, p: Paging, n: nat) returns (a: seq<Uuid>, b: seq<Uuid>)
    requires p.Valid() && p.tan == |tan| && p.sim == |sim|
    ensures Page(tan, sim, p, n) == a + b
    ensures ShownTan(tan, p, n + 1) == ShownTan(tan, p, n) + a && ShownSim(sim, p, n + 1) == ShownSim(sim, p, n) + b
  {
    hide Paging.TanFrom, Paging.SimFrom;
    PagesFollow(p, n);
    a, b := tan[p.TanFrom(n)..p.TanFrom(n + 1)], sim[p.SimFrom(n)..p.SimFrom(n + 1)];
  }

  lemma ShortRunsOut(short: nat, half: nat, shared: nat, n: nat)
    ensures n >= shared ==> ShortFrom(short, half, shared, n + 1) == short
  {
  }

  /** The stretches of the exact hits over the first `n` pages, in order. */
  function ShownTan(tan: seq<Uuid>, p: Paging, n: nat): seq<Uuid>
    requires p.Valid() && p.tan == |tan|
  {
    if n == 0 then []
    else
      PagesFollow(p, n - 1);
      ShownTan(tan, p, n - 1) + tan[p.TanFrom(n - 1)..p.TanFrom(n)]
  }

  function ShownSim(sim: seq<Uuid>, p: Paging, n: nat): seq<Uuid>
    requires p.Valid() && p.sim == |sim|
  {
    if n == 0 then []
    else
      PagesFollow(p, n - 1);
      ShownSim(sim, p, n - 1) + sim[p.SimFrom(n - 1)..p.SimFrom(n)]
  }

  lemma {:induction false} ShownIsPrefix(tan: seq<Uuid>, sim: seq<Uuid>, p: Paging, n: nat)
    requires p.Valid() && p.tan == |tan| && p.sim == |sim|
    ensures p.TanFrom(n) <= |tan| && ShownTan(tan, p, n) == tan[..p.TanFrom(n)]
    ensures p.SimFrom(n) <= |sim| && ShownSim(sim, p, n) == sim[..p.SimFrom(n)]
  {
    hide Paging.TanFrom, Paging.SimFrom;
    PagesFollow(p, n);
    if n > 0 {
      PagesFollow(p, n - 1);
      ShownIsPrefix(tan, sim, p, n - 1);
    }
  }

  // ---- does the cut-off drop anything? ----

  lemma TimesAdds(a: nat, b: nat, k: nat)
    ensures Times(a + b, k) == Times(a, k) + Times(b, k)
    ensures k > 0 ==> Times(a, k) >= a
  {
    if k > 0 {
      assert a * k - a == a * (k - 1);
    }
  }

  lemma TimesHalves(n: nat, half: nat, size: nat)
    requires size == 2 * half || size == 2 * half + 1
    ensures Times(n, size) == 2 * Times(n, half) + (if size % 2 == 1 then n else 0)
  {
  }

  /** Pages past the last one served would be empty exactly when this holds; for even sizes it always does. */
  predicate AllServed(p: Paging)
    requires p.Valid()
  {
    (if p.size % 2 == 1 then p.Shared() else 0) + p.Total() % p.size <= 2 * p.size
  }

  lemma LongServed(short: nat, long: nat, size: nat, half: nat, shared: nat, last: nat)
    requires half > 0 && (size == 2 * half || size == 2 * half + 1)
    requires Times(shared, half) <= short < Times(shared, half) + half && Times(shared, half) <= long
    requires last == (short + long) / size + 1
    ensures (ShortFrom(short, half, shared, last + 1) == short
      && LongFrom(short, long, size, half, shared, last + 1) == long) <==>
      (if size % 2 == 1 then shared else 0) + (short + long) % size <= 2 * size
  {
    hide Times;
    var total := short + long;
    TimesHalves(shared, half, size);
    Divided(total, size);
    OneMoreTime(last - 1, size);
    OneMoreTime(last, size);
    if last >= shared {
      TimesAdds(last - shared, shared + 1, size);
      OneMoreTime(shared, size);
    } else {
      TimesHalves(last + 1, half, size);
      TimesAdds(shared - (last + 1), last + 1, half);
      TimesAdds(shared - (last + 1), last + 1, size);
    }
  }

  lemma Divided(a: nat, size: nat)
    requires size > 0
    ensures a == Times(a / size, size) + a % size
  {
  }

  lemma ServedExactly(p: Paging)
    requires p.Valid()
    ensures p.TanFrom(p.LastServed() + 1) == p.tan && p.SimFrom(p.LastServed() + 1) == p.sim <==> AllServed(p)
  {
    hide LongFrom, ShortFrom, Times;
    ShortFits(p.tan, p.sim, p.Half(), p.size);
    if p.TanIsShort() {
      LongServed(p.tan, p.sim, p.size, p.Half(), p.Shared(), p.LastServed());
    } else {
      LongServed(p.sim, p.tan, p.size, p.Half(), p.Shared(), p.LastServed());
    }
  }

  /** The pages served show both lists completely, each in its own order and every hit once, exactly when this holds. */
  lemma PagesPartition(tan: seq<Uuid>, sim: seq<Uuid>, p: Paging)
    requires p.Valid() && p.tan == |tan| && p.sim == |sim|
    ensures ShownTan(tan, p, p.LastServed() + 1) == tan && ShownSim(sim, p, p.LastServed() + 1) == sim <==> AllServed(p)
    ensures p.size % 2 == 0 ==> AllServed(p)
  {
    hide Paging.TanFrom, Paging.SimFrom;
    ShownIsPrefix(tan, sim, p, p.LastServed() + 1);
    ServedExactly(p);
  }

  /** With three a page and fifty hits in each list, the last pages are never answered. */
  lemma OddPagesLoseHits()
    ensures !AllServed(Paging(50, 50, 3))
  {
  }

  // ---- the search ----

  /** The lists as they are paged: phrase hits after the others, similar names last, nothing twice. */
  function Exact(full: seq<Uuid>, tan: seq<Uuid>): seq<Uuid> {
    Without(tan, full) + full
  }

  function Similar(full: seq<Uuid>, tan: seq<Uuid>, sim: seq<Uuid>): seq<Uuid> {
    Without(sim, Exact(full, tan))
  }

  lemma NothingTwice(full: seq<Uuid>, tan: seq<Uuid>, sim: seq<Uuid>)
    requires Duplicateless(full) && Duplicateless(tan) && Duplicateless(sim)
    ensures Duplicateless(Exact(full, tan)) && Duplicateless(Similar(full, tan, sim))
    ensures forall x :: x in Exact(full, tan) <==> x in tan || x in full
    ensures forall x :: x in Similar(full, tan, sim) <==> x in sim && x !in tan && x !in full
  {
    WithoutKeeps(tan, full);
    WithoutKeeps(sim, Exact(full, tan));
    var kept := Without(tan, full);
    forall i, j | 0 <= i < j < |kept + full| ensures (kept + full)[i] != (kept + full)[j] {
      if i < |kept| <= j {
        assert kept[i] in kept && full[j - |kept|] in full;
      }
    }
  }

  /** The list of exact hits: the hits of the single words that are no hits of the whole phrase, then those, and all of
   * them in the order they came. */
  lemma PhraseHitsComeLast(full: seq<Uuid>, tan: seq<Uuid>)
    ensures var list := Exact(full, tan);
      && |full| <= |list| && list[|list| - |full|..] == full
      && (forall i | 0 <= i < |list| - |full| :: list[i] in tan && list[i] !in full)
      && (forall x | x in tan && x !in full :: x in list[..|list| - |full|])
      && InOrderOf(list[..|list| - |full|], tan)
  {
    WithoutKeeps(tan, full);
    var list := Exact(full, tan);
    assert list[..|list| - |full|] == Without(tan, full) && list[|list| - |full|..] == full;
  }

  function Ids(list: seq<Uuid>): set<Uuid> {
    set x | x in list
  }

  lemma {:induction false} EachOnce(list: seq<Uuid>)
    requires Duplicateless(list)
    ensures |Ids(list)| == |list|
  {
    if list != [] {
      var n := |list| - 1;
      EachOnce(list[..n]);
      assert list == list[..n] + [list[n]];
      assert Ids(list) == Ids(list[..n]) + {list[n]};
    }
  }

  lemma IdsInTwo(full: seq<Uuid>, tan: seq<Uuid>, sim: seq<Uuid>, a: seq<Uuid>, b: seq<Uuid>)
    requires forall x :: x in a <==> x in tan || x in full
    requires forall x :: x in b <==> x in sim && x !in tan && x !in full
    ensures Ids(a) !! Ids(b) && Ids(full) + Ids(tan) + Ids(sim) == Ids(a) + Ids(b)
  {
  }

  /** The total is the number of different hits. */
  lemma TotalIsDistinct(full: seq<Uuid>, tan: seq<Uuid>, sim: seq<Uuid>)
    requires Duplicateless(full) && Duplicateless(tan) && Duplicateless(sim)
    ensures |Exact(full, tan)| + |Similar(full, tan, sim)| == |Ids(full) + Ids(tan) + Ids(sim)|
  {
    hide Exact, Similar, Duplicateless, Ids;
    NothingTwice(full, tan, sim);
    var a, b := Exact(full, tan), Similar(full, tan, sim);
    EachOnce(a);
    EachOnce(b);
    IdsInTwo(full, tan, sim, a, b);
  }

  lemma SharedPage(p: Paging, n: nat)
    requires p.Valid() && n < p.Shared()
    ensures p.TanFrom(n) == Times(n, p.Half()) && p.TanFrom(n + 1) == Times(n, p.Half()) + p.Half() <= p.tan
    ensures p.SimFrom(n) == Times(n, p.Half()) && p.SimFrom(n + 1) == Times(n, p.Half()) + p.Half() <= p.sim
  {
    hide Times;
    PagesFollow(p, n);
    OneMoreTime(n, p.Half());
  }

  lemma LastSharedPage(p: Paging)
    requires p.Valid()
    ensures var n, start := p.Shared(), Times(p.Shared(), p.Half());
      && p.TanFrom(n) == start <= p.tan && p.SimFrom(n) == start <= p.sim
      && (p.TanIsShort() ==>
        p.tan - start <= p.size && p.TanFrom(n + 1) == p.tan
          && p.SimFrom(n + 1) == Min(p.sim, start + (p.size - (p.tan - start))))
      && (!p.TanIsShort() ==>
        p.sim - start <= p.size && p.SimFrom(n + 1) == p.sim
          && p.TanFrom(n + 1) == Min(p.tan, start + (p.size - (p.sim - start))))
  {
    hide Times;
    ShortFits(p.tan, p.sim, p.Half(), p.size);
    OneMoreTime(0, p.size);
  }

  lemma LaterPage(p: Paging, n: nat)
    requires p.Valid() && n > p.Shared()
    ensures var start, more := Times(p.Shared(), p.Half()), Times(n - p.Shared() - 1, p.size);
      && start <= p.tan && start <= p.sim
      && (p.TanIsShort() ==> p.tan - start <= p.size && p.TanFrom(n) == p.tan == p.TanFrom(n + 1))
      && (p.TanIsShort() ==>
        var skip := start + (p.size - (p.tan - start)) + more;
        p.SimFrom(n) == Min(p.sim, skip) && p.SimFrom(n + 1) == Min(p.sim, skip + p.size))
      && (!p.TanIsShort() ==> p.sim - start <= p.size && p.SimFrom(n) == p.sim == p.SimFrom(n + 1))
      && (!p.TanIsShort() ==>
        var skip := start + (p.size - (p.sim - start)) + more;
        p.TanFrom(n) == Min(p.tan, skip) && p.TanFrom(n + 1) == Min(p.tan, skip + p.size))
  {
    hide Times;
    ShortFits(p.tan, p.sim, p.Half(), p.size);
    OneMoreTime(n - p.Shared() - 1, p.size);
  }

  /** Pages smaller than two divide by zero, unless the page asked for is cut off before. */
  method Search(full: seq<Uuid>, tan: seq<Uuid>, sim: seq<Uuid>, pageSize: nat, offset: nat)
    returns (r: Option<(nat, seq<Uuid>)>)
    ensures var total := |Exact(full, tan)| + |Similar(full, tan, sim)|;
      r.None? <==> pageSize == 0 || (pageSize == 1 && offset <= total + 1)
    ensures pageSize == 1 && r.Some? ==> r.value == (0, [])
    ensures pageSize >= 2 ==> r == Some(Answer(Exact(full, tan), Similar(full, tan, sim), pageSize, offset))
    ensures pageSize >= 2 && Duplicateless(full) && Duplicateless(tan) && Duplicateless(sim) ==>
      var hits := |Ids(full) + Ids(tan) + Ids(sim)|;
      && (offset / pageSize <= hits / pageSize + 1 ==> r.value.0 == hits)
      && (offset / pageSize > hits / pageSize + 1 ==> r.value == (0, []))
  {
    hide Without, Page, Exact, Similar, Ids;
    if Duplicateless(full) && Duplicateless(tan) && Duplicateless(sim) {
      TotalIsDistinct(full, tan, sim);
    }
    var resultTan := RemoveDuplicates(tan, full);
    resultTan := resultTan + full;
    var resultSim := RemoveDuplicates(sim, resultTan);
    AsPaged(full, tan, sim);
    r := Paginate(resultTan, resultSim, pageSize, offset);
  }

  lemma AsPaged(full: seq<Uuid>, tan: seq<Uuid>, sim: seq<Uuid>)
    ensures Exact(full, tan) == Without(tan, full) + full && Similar(full, tan, sim) == Without(sim, Exact(full, tan))
  {
  }

  /** The total and the page; neither once the page number is past the last one served. */
  function Answer(tan: seq<Uuid>, sim: seq<Uuid>, pageSize: nat, offset: nat): (nat, seq<Uuid>)
    requires pageSize >= 2
  {
    var p, n := Paging(|tan|, |sim|, pageSize), offset / pageSize;
    if n > p.LastServed() then (0, []) else (p.Total(), Page(tan, sim, p, n))
  }

  lemma ByOne(n: nat)
    ensures n / 1 == n
  {
  }

  method Paginate(tan: seq<Uuid>, sim: seq<Uuid>, pageSize: nat, offset: nat) returns (r: Option<(nat, seq<Uuid>)>)
    ensures r.None? <==> pageSize == 0 || (pageSize == 1 && offset <= |tan| + |sim| + 1)
    ensures pageSize == 1 && r.Some? ==> r.value == (0, [])
    ensures pageSize >= 2 ==> r == Some(Answer(tan, sim, pageSize, offset))
  {
    hide Page, SharedPages;
    if pageSize == 0 {
      return None;
    }
    if pageSize == 1 {
      ByOne(offset);
      ByOne(|tan| + |sim|);
    }
    var pageNumber := offset / pageSize;
    var total := |tan| + |sim|;
    if pageNumber > total / pageSize + 1 {
      return Some((0, []));
    }
    var halfPage := pageSize / 2;
    if halfPage == 0 {
      return None;
    }
    var page := PageAt(tan, sim, pageSize, pageNumber, halfPage);
    return Some((total, page));
  }

  lemma Windows(tan: seq<Uuid>, sim: seq<Uuid>, p: Paging, n: nat, skipTan: nat, takeTan: nat, skipSim: nat,
      takeSim: nat)
    requires p.Valid() && p.tan == |tan| && p.sim == |sim|
    requires p.TanFrom(n) == Min(skipTan, |tan|) && p.TanFrom(n + 1) == Min(skipTan + takeTan, |tan|)
    requires p.SimFrom(n) == Min(skipSim, |sim|) && p.SimFrom(n + 1) == Min(skipSim + takeSim, |sim|)
    ensures Page(tan, sim, p, n) == Window(tan, skipTan, takeTan) + Window(sim, skipSim, takeSim)
    ensures takeTan == 0 ==> Page(tan, sim, p, n) == Window(sim, skipSim, takeSim)
    ensures takeSim == 0 ==> Page(tan, sim, p, n) == Window(tan, skipTan, takeTan)
  {
    hide Paging.TanFrom, Paging.SimFrom;
  }

  /** The paging arithmetic; none of its subtractions goes below zero. */
  method PageAt(tan: seq<Uuid>, sim: seq<Uuid>, pageSize: nat, pageNumber: nat, halfPage: nat) returns (page: seq<Uuid>)
    requires pageSize >= 2 && halfPage == pageSize / 2
    ensures page == Page(tan, sim, Paging(|tan|, |sim|, pageSize), pageNumber)
  {
    hide Page;
    var fullPageTan := |tan| / halfPage;
    var fullPageSim := |sim| / halfPage;
    page := PageWith(tan, sim, pageSize, pageNumber, halfPage, fullPageTan, Min(fullPageTan, fullPageSim));
  }

  method PageWith(tan: seq<Uuid>, sim: seq<Uuid>, pageSize: nat, pageNumber: nat, halfPage: nat, fullPageTan: nat,
      fullPage: nat)
    returns (page: seq<Uuid>)
    requires pageSize >= 2
    requires var p := Paging(|tan|, |sim|, pageSize);
      halfPage == p.Half() && fullPage == p.Shared() && (fullPage == fullPageTan <==> p.TanIsShort())
    ensures page == Page(tan, sim, Paging(|tan|, |sim|, pageSize), pageNumber)
  {
    hide Times, Paging.TanFrom, Paging.SimFrom, Page, Paging.Shared, Paging.TanIsShort, Paging.Half, Window;
    ghost var p := Paging(|tan|, |sim|, pageSize);
    if pageNumber < fullPage {
      SharedPage(p, pageNumber);
      var skip := Times(pageNumber, halfPage);
      page := Window(tan, skip, halfPage) + Window(sim, skip, halfPage);
      Windows(tan, sim, p, pageNumber, skip, halfPage, skip, halfPage);
    } else if pageNumber == fullPage {
      LastSharedPage(p);
      var skip := Times(pageNumber, halfPage);
      if fullPage == fullPageTan {
        var takeTan: nat := |tan| - skip;
        var takeSim: nat := pageSize - takeTan;
        page := Window(tan, skip, takeTan) + Window(sim, skip, takeSim);
        Windows(tan, sim, p, pageNumber, skip, takeTan, skip, takeSim);
      } else {
        var takeSim: nat := |sim| - skip;
        var takeTan: nat := pageSize - takeSim;
        page := Window(tan, skip, takeTan) + Window(sim, skip, takeSim);
        Windows(tan, sim, p, pageNumber, skip, takeTan, skip, takeSim);
      }
    } else {
      LaterPage(p, pageNumber);
      var offsetA := Times(fullPage, halfPage);
      var offsetC := Times(pageNumber - fullPage - 1, pageSize);
      if fullPage == fullPageTan {
        var offsetB: nat := pageSize - (|tan| - offsetA);
        page := Window(sim, offsetA + offsetB + offsetC, pageSize);
        Windows(tan, sim, p, pageNumber, |tan|, 0, offsetA + offsetB + offsetC, pageSize);
      } else {
        var offsetB: nat := pageSize - (|sim| - offsetA);
        page := Window(tan, offsetA + offsetB + offsetC, pageSize);
        Windows(tan, sim, p, pageNumber, offsetA + offsetB + offsetC, pageSize, |sim|, 0);
      }
    }
  }
}
