/** Monthly checkpoints: for each month start, the sum of everything dated before it, kept under backdated updates. */
module Checkpoints {
  import opened Costing
  import opened Operations
  import opened Calendar
  import opened Postings

  datatype CheckpointKey = CheckpointKey(date: Time, account: Account)

  type Balances = map<CheckpointKey, Balance>

  function Entry(balances: Balances, date: Time, account: Account): Balance {
    var key := CheckpointKey(date, account);
    if key in balances then balances[key] else ZERO
  }

  /** Entries stand at month starts up to the latest date, and none of them is zero. */
  ghost predicate Tidy(balances: Balances, latest: Time) {
    forall key | key in balances :: IsMonthStart(key.date) && key.date <= latest && !balances[key].IsZero()
  }

  /** Every entry up to the latest date is the sum of what was posted before it, and zero sums have no entry. */
  ghost predicate IsCheckpointed(balances: Balances, latest: Time, history: seq<Posting>) {
    && IsMonthStart(latest)
    && (forall p | p in history :: p.date < latest)
    && Tidy(balances, latest)
    && (forall date: Time, account | IsMonthStart(date) && date <= latest ::
          Entry(balances, date, account) == SumBefore(history, account, date))
  }

  /** The entries as they stand, with those at `latest` repeated at every later month start up to `limit`. */
  ghost predicate Extended(a: Balances, latest: Time, b: Balances, limit: Time) {
    forall date: Time, account | IsMonthStart(date) && date <= limit ::
      Entry(b, date, account) == Entry(a, if date <= latest then date else latest, account)
  }

  /** `delta` is added to the account's entries after `from`, up to `limit`; all others stay. */
  ghost predicate Raised(a: Balances, b: Balances, account: Account, delta: BalanceDelta, from: Time, limit: Time) {
    forall date: Time, x | IsMonthStart(date) ::
      Entry(b, date, x) ==
        if x == account && from < date <= limit then Entry(a, date, x).Plus(delta) else Entry(a, date, x)
  }

  /** The account's entries after `from` and before `date` are all `balance`; all others stay. */
  ghost predicate RepeatedBelow(a: Balances, b: Balances, account: Account, balance: Balance, from: Time, date: Time) {
    forall d: Time, x | IsMonthStart(d) ::
      Entry(b, d, x) == if x == account && from < d < date then balance else Entry(a, d, x)
  }

  ghost predicate Repeated(a: Balances, b: Balances, account: Account, balance: Balance, from: Time, limit: Time) {
    forall d: Time, x | IsMonthStart(d) ::
      Entry(b, d, x) == if x == account && from < d <= limit then balance else Entry(a, d, x)
  }

  lemma EntryPut(balances: Balances, key: CheckpointKey, balance: Balance)
    ensures forall d: Time, x ::
      Entry(balances[key := balance], d, x) == if CheckpointKey(d, x) == key then balance else Entry(balances, d, x)
    ensures forall d: Time, x ::
      Entry(balances - {key}, d, x) == if CheckpointKey(d, x) == key then ZERO else Entry(balances, d, x)
  {
  }

  lemma RepeatedOnce(a: Balances, b: Balances, account: Account, balance: Balance, from: Time, date: Time)
    requires RepeatedBelow(a, b, account, balance, from, date) && IsMonthStart(date) && from < date
    ensures RepeatedBelow(a, b[CheckpointKey(date, account) := balance], account, balance, from,
      FirstDayNextMonth(date))
  {
    MonthsSeparate(date);
    EntryPut(b, CheckpointKey(date, account), balance);
  }

  lemma RaisedOnce(a: Balances, b: Balances, account: Account, delta: BalanceDelta, from: Time, previous: Time)
    requires Raised(a, b, account, delta, from, previous) && from <= previous
    ensures Raised(a, WithSum(b, CheckpointKey(FirstDayNextMonth(previous), account), delta), account, delta, from,
      FirstDayNextMonth(previous))
  {
    MonthsSeparate(previous);
    var date := FirstDayNextMonth(previous);
    EntryPut(b, CheckpointKey(date, account), Entry(b, date, account).Plus(delta));
  }

  /** The entry raised by `delta`, or dropped when that makes it zero. */
  function WithSum(b: Balances, key: CheckpointKey, delta: BalanceDelta): Balances {
    var sum := Entry(b, key.date, key.account).Plus(delta);
    if sum.IsZero() then b - {key} else b[key := sum]
  }

  lemma WithSumIsTidy(b: Balances, previous: Time, account: Account, delta: BalanceDelta, limit: Time)
    requires Tidy(b, limit) && IsMonthStart(limit) && previous < limit
    ensures FirstDayNextMonth(previous) <= limit && previous < FirstDayNextMonth(previous)
    ensures Tidy(WithSum(b, CheckpointKey(FirstDayNextMonth(previous), account), delta), limit)
  {
    NextMonthIsNext(previous, limit);
  }

  /** The first `n` listed entries are repeated. */
  ghost predicate CopiedSome(a: Balances, latest: Time, b: Balances, limit: Time, list: seq<(CheckpointKey, Balance)>,
      n: nat)
    requires n <= |list|
  {
    && (forall d: Time, x | IsMonthStart(d) && d <= latest :: Entry(b, d, x) == Entry(a, d, x))
    && (forall d: Time, j | IsMonthStart(d) && latest < d <= limit && 0 <= j < n ::
      Entry(b, d, list[j].0.account) == list[j].1)
    && (forall d: Time, x | IsMonthStart(d) && latest < d && (forall j | 0 <= j < n :: list[j].0.account != x) ::
      Entry(b, d, x) == ZERO)
  }

  lemma CopiedOneMore(a: Balances, latest: Time, b: Balances, c: Balances, limit: Time,
      list: seq<(CheckpointKey, Balance)>, n: nat)
    requires n < |list| && ListsDate(list, a, latest)
    requires CopiedSome(a, latest, b, limit, list, n) && Repeated(b, c, list[n].0.account, list[n].1, latest, limit)
    ensures CopiedSome(a, latest, c, limit, list, n + 1)
  {
    assert list[n] in list;
    forall d: Time, j | IsMonthStart(d) && latest < d <= limit && 0 <= j < n + 1
      ensures Entry(c, d, list[j].0.account) == list[j].1
    {
      assert list[j] in list;
    }
  }

  lemma CopiedAll(a: Balances, latest: Time, b: Balances, limit: Time, list: seq<(CheckpointKey, Balance)>)
    requires ListsDate(list, a, latest) && CopiedSome(a, latest, b, limit, list, |list|)
    ensures Extended(a, latest, b, limit)
  {
    forall d: Time, x | IsMonthStart(d) && latest < d <= limit ensures Entry(b, d, x) == Entry(a, latest, x) {
      var key := CheckpointKey(latest, x);
      if key in a {
        assert (key, a[key]) in list;
        var j :| 0 <= j < |list| && list[j] == (key, a[key]);
      } else {
        forall j | 0 <= j < |list| ensures list[j].0.account != x {
          assert list[j] in list;
        }
      }
    }
  }

  lemma ExtendedSums(a: Balances, latest: Time, history: seq<Posting>, b: Balances, limit: Time)
    requires IsCheckpointed(a, latest, history) && Extended(a, latest, b, limit)
    ensures forall date: Time, account | IsMonthStart(date) && date <= limit ::
      Entry(b, date, account) == SumBefore(history, account, date)
  {
    forall date: Time, account | IsMonthStart(date) && date <= limit
      ensures Entry(b, date, account) == SumBefore(history, account, date)
    {
      if date > latest {
        SumSaturates(history, account, latest, date);
      }
    }
  }

  /** One mutation posted: entries repeated up to the new latest date, then raised after the mutation's own date. */
  lemma PostingKeepsCheckpoints(a: Balances, latest: Time, history: seq<Posting>, b: Balances, c: Balances,
      limit: Time, p: Posting)
    requires IsCheckpointed(a, latest, history)
    requires IsMonthStart(limit) && latest <= limit && p.date < limit
    requires Extended(a, latest, b, limit) && Raised(b, c, p.account, p.delta, p.date, limit) && Tidy(c, limit)
    ensures IsCheckpointed(c, limit, history + [p])
  {
    ExtendedSums(a, latest, history, b, limit);
    forall date: Time, account | IsMonthStart(date) && date <= limit
      ensures Entry(c, date, account) == SumBefore(history + [p], account, date)
    {
      SumAppended(history, p, account, date);
    }
  }

  /** The list holds the entries at one date. */
  ghost predicate ListsDate(list: seq<(CheckpointKey, Balance)>, balances: Balances, date: Time) {
    && (forall x | x in list :: x.0 in balances && x.0.date == date && balances[x.0] == x.1)
    && (forall key | key in balances && key.date == date :: (key, balances[key]) in list)
  }

  /** Nonzero sums of one store and goods before a date, by batch. */
  ghost predicate SumsByBatch(m: map<Batch, Balance>, history: seq<Posting>, store: Store, goods: Goods, date: Time) {
    forall b :: (if b in m then m[b] else ZERO) == SumBefore(history, Account(store, goods, b), date)
  }

  class CheckDateStoreBatch {
    var balances: Balances
    /** The latest checkpoint date as written under its reserved key. */
    var storedLatest: Option<Time>
    ghost var history: seq<Posting>

    constructor ()
      ensures Valid() && history == [] && balances == map[] && storedLatest == None
    {
      balances, storedLatest, history := map[], None, [];
      new;
      assert MonthStart(0) == 0;
      NothingBeforeTheEpoch();
    }

    ghost predicate Valid()
      reads this
    {
      && IsCheckpointed(balances, Latest(), history)
      && Latest() == LatestOf(history)
      && (storedLatest.Some? ==> storedLatest.value > 0)
    }

    /** 1970-01-01 until a first checkpoint is written. */
    function Latest(): Time
      reads this
    {
      if storedLatest.Some? then storedLatest.value else 0
    }

    method EntriesAt(date: Time) returns (list: seq<(CheckpointKey, Balance)>)
      ensures ListsDate(list, balances, date)
    {
      list := [];
      var rest := set key | key in balances && key.date == date;
      while rest != {}
        invariant rest <= set key | key in balances && key.date == date
        invariant forall x | x in list :: x.0 in balances && x.0.date == date && balances[x.0] == x.1
        invariant forall key | key in balances && key.date == date :: key in rest || (key, balances[key]) in list
      {
        var key :| key in rest;
        list := list + [(key, balances[key])];
        rest := rest - {key};
      }
    }

    /** Repeat one old entry at every month start up to `limit`. */
    method CopyForward(key: CheckpointKey, balance: Balance, limit: Time)
      requires IsMonthStart(key.date) && IsMonthStart(limit) && !balance.IsZero()
      requires Tidy(balances, limit)
      modifies this`balances
      ensures Tidy(balances, limit) && Repeated(old(balances), balances, key.account, balance, key.date, limit)
    {
      MonthsSeparate(key.date);
      var date := FirstDayNextMonth(key.date);
      while date <= limit
        invariant IsMonthStart(date) && key.date < date
        invariant Tidy(balances, limit)
        invariant RepeatedBelow(old(balances), balances, key.account, balance, key.date, date)
        decreases limit + 1 - date
      {
        MonthsSeparate(date);
        RepeatedOnce(old(balances), balances, key.account, balance, key.date, date);
        balances := balances[CheckpointKey(date, key.account) := balance];
        date := FirstDayNextMonth(date);
      }
    }

    /** Repeat the entries at `latest` at every later month start up to `limit`. */
    method CopyAll(latest: Time, limit: Time)
      requires IsMonthStart(latest) && IsMonthStart(limit) && latest <= limit
      requires Tidy(balances, latest)
      modifies this`balances
      ensures Tidy(balances, limit) && Extended(old(balances), latest, balances, limit)
    {
      MonthsSeparate(latest);
      CurrentMonthOfStart(latest);
      var list := EntriesAt(FirstDayCurrentMonth(latest));
      var i := 0;
      while i < |list|
        invariant i <= |list|
        invariant Tidy(balances, limit)
        invariant CopiedSome(old(balances), latest, balances, limit, list, i)
      {
        assert list[i] in list;
        ghost var before := balances;
        CopyForward(list[i].0, list[i].1, limit);
        CopiedOneMore(old(balances), latest, before, balances, limit, list, i);
        i := i + 1;
      }
      CopiedAll(old(balances), latest, balances, limit, list);
    }

    /** Add `delta` to the account's entries at every month start after `from`, up to `limit`. */
    method Raise(account: Account, delta: BalanceDelta, from: Time, limit: Time) returns (date: Time)
      requires IsMonthStart(limit) && from < limit && Tidy(balances, limit)
      modifies this`balances
      ensures date == limit
      ensures Tidy(balances, limit) && Raised(old(balances), balances, account, delta, from, limit)
    {
      var previous := from;
      date := from;
      while date <= limit
        invariant date == previous && from <= date < limit
        invariant Tidy(balances, limit)
        invariant Raised(old(balances), balances, account, delta, from, date)
        decreases limit - date
      {
        hide Tidy, Raised, IsMonthStart;
        WithSumIsTidy(balances, previous, account, delta, limit);
        RaisedOnce(old(balances), balances, account, delta, from, previous);
        date := FirstDayNextMonth(previous);
        var key, balance := CheckpointKey(date, account), Entry(balances, date, account).Plus(delta);
        if balance.IsZero() {
          balances := balances - {key};
        } else {
          balances := balances[key := balance];
        }
        previous := date;
        if date == limit {
          break;
        }
      }
    }

    /** Post one mutation. */
    method CheckpointUpdate(op: OpMutation)
      requires Valid()
      modifies this
      ensures Valid()
      ensures history == old(history) + [Posting(Account(op.store, op.goods, op.batch), op.date, op.ToDelta())]
      ensures Latest() == Later(old(Latest()), FirstDayNextMonth(op.date))
    {
      var latest := Latest();
      NextMonthIsNext(op.date, latest);
      var limit := latest;
      if latest <= op.date {
        limit := FirstDayNextMonth(op.date);
        CopyAll(latest, limit);
      }
      ghost var middle := balances;
      ghost var p := Posting(Account(op.store, op.goods, op.batch), op.date, op.ToDelta());
      var date := Raise(Account(op.store, op.goods, op.batch), op.ToDelta(), op.date, limit);
      storedLatest := Some(date);
      history := history + [p];
      PostingKeepsCheckpoints(old(balances), latest, old(history), middle, balances, limit, p);
    }

    /** The checkpoint a reader starts from: the start of the month, or the latest one before it. */
    function ReadingDate(date: Time): Time
      reads this
    {
      var month := FirstDayCurrentMonth(date);
      if month > Latest() then Latest() else month
    }

    lemma ReadingDateFits(date: Time)
      requires Valid()
      ensures IsMonthStart(ReadingDate(date)) && ReadingDate(date) <= date && ReadingDate(date) <= Latest()
      ensures forall start: Time | IsMonthStart(start) && start <= date && start <= Latest() ::
        start <= ReadingDate(date)
    {
      NextMonthIsNext(date, Latest());
      forall start: Time | IsMonthStart(start) && start <= date && start <= Latest()
        ensures start <= ReadingDate(date)
      {
        NextMonthIsNext(date, start);
      }
    }

    /** The scan of a store's entries at date zero meets the reserved key only in the store with the zero id. */
    method BalancesForStoreGoods(date: Time, store: Store, goods: Goods)
      returns (r: Option<(Time, map<Batch, Balance>)>)
      requires Valid()
      ensures r.None? <==> ReadingDate(date) == 0 && store == UUID_NIL && storedLatest.Some?
      ensures r.Some? ==> r.value.0 == ReadingDate(date) && SumsByBatch(r.value.1, history, store, goods, r.value.0)
    {
      var from := ReadingDate(date);
      if from == 0 && store == UUID_NIL && storedLatest.Some? {
        return None;
      }
      var list := EntriesAt(from);
      var found: map<Batch, Balance> := map[];
      var i := 0;
      while i < |list|
        invariant i <= |list|
        invariant forall b | b in found ::
          CheckpointKey(from, Account(store, goods, b)) in balances
            && found[b] == Entry(balances, from, Account(store, goods, b))
        invariant forall j, b | 0 <= j < i && list[j].0.account == Account(store, goods, b) :: b in found
      {
        var (key, balance) := list[i];
        assert list[i] in list;
        if key.account.store == store && key.account.goods == goods {
          found := found[key.account.batch := balance];
        }
        i := i + 1;
      }
      ReadingDateFits(date);
      forall b ensures (if b in found then found[b] else ZERO) == SumBefore(history, Account(store, goods, b), from) {
        var key := CheckpointKey(from, Account(store, goods, b));
        if key in balances {
          assert (key, balances[key]) in list;
        }
      }
      return Some((from, found));
    }

    /** All entries of the checkpoint. The scan at date zero meets the reserved key and fails. */
    method CheckpointsForAll(date: Time) returns (r: Option<(Time, map<Account, Balance>)>)
      requires Valid()
      ensures r.None? <==> ReadingDate(date) == 0 && storedLatest.Some?
      ensures r.Some? ==> r.value.0 == ReadingDate(date)
      ensures r.Some? ==> forall a ::
        (if a in r.value.1 then r.value.1[a] else ZERO) == SumBefore(history, a, r.value.0)
    {
      var from := ReadingDate(date);
      if from == 0 && storedLatest.Some? {
        return None;
      }
      var list := EntriesAt(from);
      var found: map<Account, Balance> := map[];
      var i := 0;
      while i < |list|
        invariant i <= |list|
        invariant forall a | a in found :: CheckpointKey(from, a) in balances && found[a] == Entry(balances, from, a)
        invariant forall j | 0 <= j < i :: list[j].0.account in found
      {
        assert list[i] in list;
        found := found[list[i].0.account := list[i].1];
        i := i + 1;
      }
      ReadingDateFits(date);
      forall a ensures (if a in found then found[a] else ZERO) == SumBefore(history, a, from) {
        var key := CheckpointKey(from, a);
        if key in balances {
          assert (key, balances[key]) in list;
        }
      }
      return Some((from, found));
    }

    /** The entries of one store at the checkpoint before a date, as the report takes them. */
    method CheckpointsForStorage(store: Store, date: Time) returns (r: Option<seq<(CheckpointKey, Balance)>>)
      requires Valid()
      ensures r.None? <==> ReadingDate(date) == 0 && store == UUID_NIL && storedLatest.Some?
      ensures r.Some? ==> Duplicateless(r.value)
      ensures r.Some? ==> forall x | x in r.value ::
        x.0.account.store == store && x.1 == SumBefore(history, x.0.account, ReadingDate(date))
      ensures r.Some? ==> forall a: Account | a.store == store && (forall x | x in r.value :: x.0.account != a) ::
        SumBefore(history, a, ReadingDate(date)) == ZERO
    {
      var from := ReadingDate(date);
      ReadingDateFits(date);
      if from == 0 && store == UUID_NIL && storedLatest.Some? {
        return None;
      }
      var list: seq<(CheckpointKey, Balance)> := [];
      var rest := set key | key in balances && key.date == from && key.account.store == store;
      while rest != {}
        invariant rest <= set key | key in balances && key.date == from && key.account.store == store
        invariant forall x | x in list ::
          x.0 in balances && x.0 !in rest && x.0.date == from && x.0.account.store == store && balances[x.0] == x.1
        invariant forall key | key in balances && key.date == from && key.account.store == store ::
          key in rest || (key, balances[key]) in list
        invariant Duplicateless(list)
      {
        var key :| key in rest;
        list := list + [(key, balances[key])];
        rest := rest - {key};
      }
      forall a: Account | a.store == store && (forall x | x in list :: x.0.account != a)
        ensures SumBefore(history, a, from) == ZERO
      {
        assert CheckpointKey(from, a) !in balances;
        assert Entry(balances, from, a) == ZERO;
      }
      forall x | x in list ensures x.1 == SumBefore(history, x.0.account, from) {
        assert Entry(balances, from, x.0.account) == x.1;
      }
      return Some(list);
    }
  }

  ghost predicate Duplicateless(list: seq<(CheckpointKey, Balance)>) {
    forall i, j | 0 <= i < j < |list| :: list[i].0 != list[j].0
  }

  lemma NothingBeforeTheEpoch()
    ensures forall account :: SumBefore([], account, 0) == ZERO
  {
  }

  /** The latest date remembers every posting, also those taken back. */
  function LatestOf(history: seq<Posting>): Time {
    if history == [] then 0
      else Later(LatestOf(history[..|history| - 1]), FirstDayNextMonth(history[|history| - 1].date))
  }

  lemma PostingTakenBack(p: Posting, account: Account, date: Time)
    ensures var q := Posting(p.account, p.date, ZERO.Minus(p.delta));
      SumBefore([p, q], account, date) == SumBefore([], account, date) && LatestOf([p, q]) > LatestOf([])
  {
    var q := Posting(p.account, p.date, ZERO.Minus(p.delta));
    SumAppended([], p, account, date);
    SumAppended([p], q, account, date);
    assert [] + [p] == [p] && [p] + [q] == [p, q] && [p, q][..1] == [p] && [p][..0] == [];
    MonthsSeparate(p.date);
  }

  function Later(a: Time, b: Time): Time {
    if a < b then b else a
  }

  lemma CurrentMonthOfStart(date: Time)
    requires IsMonthStart(date)
    ensures FirstDayCurrentMonth(date) == date
  {
    NextMonthIsNext(date, date);
  }
}
