/** `TransactionService` and `StatisticsService` of src/services.py.

    The services hold the lists they are given as `seq` fields that their
    methods reassign. The specification functions at module level say what the
    lists and figures should be; the methods, which follow the source's loops,
    are proved to produce exactly those, and the lemmas say what the
    specification functions mean. */
module Services {

  import opened Wrappers
  import opened Seqs
  import opened Models

  // ------------------------------------------------------------ predicates

  function HasId(id: string): Transaction -> bool {
    (t: Transaction) => t.id == id
  }

  function HasOtherId(id: string): Transaction -> bool {
    (t: Transaction) => t.id != id
  }

  function HasCategory(categoryId: string): Transaction -> bool {
    (t: Transaction) => t.categoryId == categoryId
  }

  /** The two date guards of `calculate_totals` and `top_categories` (a
      transaction is skipped when it is before a non-empty start or after a
      non-empty end, comparing the ISO strings as strings): `dt` passes both.
      An empty bound does not restrict. */
  predicate InPeriod(dt: string, start: string, end: string) {
    !(start != "" && StrLess(dt, start)) && !(end != "" && StrLess(end, dt))
  }

  function InPeriodOf(start: string, end: string): Transaction -> bool {
    (t: Transaction) => InPeriod(t.datetime, start, end)
  }

  /** Income inside the period (what `calculate_totals` adds to `inc`). */
  function IncomeIn(start: string, end: string): Transaction -> bool {
    (t: Transaction) => InPeriod(t.datetime, start, end) && t.kind == Income
  }

  /** Anything else inside the period (what `calculate_totals` adds to `exp`). */
  function SpendingIn(start: string, end: string): Transaction -> bool {
    (t: Transaction) => InPeriod(t.datetime, start, end) && t.kind != Income
  }

  /** The transactions `top_categories` sums: of kind `kind`, inside the period. */
  function Selects(kind: TxType, start: string, end: string): Transaction -> bool {
    (t: Transaction) => t.kind == kind && InPeriod(t.datetime, start, end)
  }

  function AmountOf(t: Transaction): real {
    t.amount
  }

  // ------------------------------------------------------------- balances

  /** What one transaction does to the balance of account `accountId`. */
  function Delta(accountId: string): Transaction -> real {
    (t: Transaction) =>
      if t.accountId != accountId then 0.0
      else if t.kind == Income then t.amount
      else -t.amount
  }

  function IncomeOf(accountId: string): Transaction -> bool {
    (t: Transaction) => t.accountId == accountId && t.kind == Income
  }

  function SpendingOf(accountId: string): Transaction -> bool {
    (t: Transaction) => t.accountId == accountId && t.kind != Income
  }

  /** The accounts with their balances recomputed from `txs`: each starts from
      its initial balance and is moved by every transaction that names it. */
  function Rebalanced(accounts: seq<Account>, txs: seq<Transaction>): seq<Account> {
    seq(|accounts|, j requires 0 <= j < |accounts| => Balanced(accounts[j], txs))
  }

  function Balanced(a: Account, txs: seq<Transaction>): Account {
    a.(currentBalance := a.initialBalance + SumOf(txs, Delta(a.id)))
  }

  lemma NetIsIncomeMinusSpending(txs: seq<Transaction>, accountId: string)
    ensures SumOf(txs, Delta(accountId))
         == SumOf(Filter(txs, IncomeOf(accountId)), AmountOf) - SumOf(Filter(txs, SpendingOf(accountId)), AmountOf)
  {
    SumOfFilter(txs, IncomeOf(accountId), AmountOf);
    SumOfFilter(txs, SpendingOf(accountId), AmountOf);
    SumOfAdd(txs, Masked(IncomeOf(accountId), AmountOf), Delta(accountId), Masked(SpendingOf(accountId), AmountOf));
  }

  /** After a recalculation every account's balance is its initial balance plus
      the amounts of its incomes minus the amounts of its other transactions;
      nothing else about the account changes. */
  lemma RebalancedBalance(accounts: seq<Account>, txs: seq<Transaction>, j: int)
    requires 0 <= j < |accounts|
    ensures |Rebalanced(accounts, txs)| == |accounts|
    ensures var a := Rebalanced(accounts, txs)[j];
      && a == accounts[j].(currentBalance := a.currentBalance)
      && a.currentBalance == accounts[j].initialBalance
           + SumOf(Filter(txs, IncomeOf(accounts[j].id)), AmountOf)
           - SumOf(Filter(txs, SpendingOf(accounts[j].id)), AmountOf)
  {
    NetIsIncomeMinusSpending(txs, accounts[j].id);
  }

  /** A transaction naming no known account changes no balance. */
  lemma UnknownAccountIgnored(accounts: seq<Account>, txs: seq<Transaction>, t: Transaction)
    requires forall j :: 0 <= j < |accounts| ==> accounts[j].id != t.accountId
    ensures Rebalanced(accounts, txs + [t]) == Rebalanced(accounts, txs)
  {
    forall j | 0 <= j < |accounts|
      ensures SumOf(txs + [t], Delta(accounts[j].id)) == SumOf(txs, Delta(accounts[j].id))
    {
      SumOfAppend(txs, t, Delta(accounts[j].id));
    }
  }

  /** Appending a transaction moves each account's recomputed balance by that
      transaction's effect on it, and changes nothing else. */
  lemma RebalancedAppend(accounts: seq<Account>, txs: seq<Transaction>, t: Transaction, j: int)
    requires 0 <= j < |accounts|
    ensures var a := accounts[j];
      Rebalanced(accounts, txs + [t])[j]
        == Rebalanced(accounts, txs)[j].(currentBalance := Rebalanced(accounts, txs)[j].currentBalance
             + if t.accountId != a.id then 0.0 else if t.kind == Income then t.amount else -t.amount)
  {
    SumOfAppend(txs, t, Delta(accounts[j].id));
  }

  /** Recalculating twice is recalculating once: balances depend only on the
      initial balances and the transactions. */
  lemma RebalancedIdempotent(accounts: seq<Account>, txs: seq<Transaction>)
    ensures Rebalanced(Rebalanced(accounts, txs), txs) == Rebalanced(accounts, txs)
  {
  }

  /** `sorted(txs, key=lambda x: x.datetime)` places `a` ahead of `b` when its
      date string is smaller. */
  predicate DatetimeBefore(a: Transaction, b: Transaction) {
    StrLess(a.datetime, b.datetime)
  }

  lemma DatetimeBeforeIsStrict()
    ensures StrictOrder(DatetimeBefore)
  {
    forall a: Transaction
      ensures !DatetimeBefore(a, a)
    {
      StrLessIrreflexive(a.datetime);
    }
    forall a: Transaction, b: Transaction, c: Transaction | DatetimeBefore(a, b) && DatetimeBefore(b, c)
      ensures DatetimeBefore(a, c)
    {
      StrLessTransitive(a.datetime, b.datetime, c.datetime);
    }
  }

  /** `recalculate_balances` visits every stored transaction once, oldest
      first: the order it uses is a reordering of the list in which no
      transaction comes after one with a larger date string. */
  lemma DateOrder(txs: seq<Transaction>)
    ensures multiset(SortBy(txs, DatetimeBefore)) == multiset(txs)
    ensures var sorted := SortBy(txs, DatetimeBefore);
      forall i, j :: 0 <= i < j < |sorted| ==> !StrLess(sorted[j].datetime, sorted[i].datetime)
  {
    DatetimeBeforeIsStrict();
    SortBySorted(txs, DatetimeBefore);
  }

  // -------------------------------------------------------------- totals

  /** What `calculate_totals` returns: the income and the other amounts of the
      transactions inside the period. */
  function Totals(txs: seq<Transaction>, start: string, end: string): (real, real) {
    (SumOf(Filter(txs, IncomeIn(start, end)), AmountOf), SumOf(Filter(txs, SpendingIn(start, end)), AmountOf))
  }

  /** The two totals split the period's transactions: together they are the
      sum of every amount inside the period. */
  lemma TotalsPartitionPeriod(txs: seq<Transaction>, start: string, end: string)
    ensures Totals(txs, start, end).0 + Totals(txs, start, end).1
         == SumOf(Filter(txs, InPeriodOf(start, end)), AmountOf)
  {
    SumOfFilter(txs, IncomeIn(start, end), AmountOf);
    SumOfFilter(txs, SpendingIn(start, end), AmountOf);
    SumOfFilter(txs, InPeriodOf(start, end), AmountOf);
    SumOfAdd(txs, Masked(InPeriodOf(start, end), AmountOf),
             Masked(IncomeIn(start, end), AmountOf), Masked(SpendingIn(start, end), AmountOf));
  }

  /** One more step of the loop of `calculate_totals`. */
  lemma TotalsStep(txs: seq<Transaction>, i: nat, start: string, end: string)
    requires i < |txs|
    ensures var t := txs[i];
      var before := Totals(txs[..i], start, end);
      var after := Totals(txs[..i + 1], start, end);
      && after.0 == before.0 + (if InPeriod(t.datetime, start, end) && t.kind == Income then t.amount else 0.0)
      && after.1 == before.1 + (if InPeriod(t.datetime, start, end) && t.kind != Income then t.amount else 0.0)
  {
    var t := txs[i];
    PeriodSumStep(txs, i, IncomeIn(start, end));
    PeriodSumStep(txs, i, SpendingIn(start, end));
    assert IncomeIn(start, end)(t) == (InPeriod(t.datetime, start, end) && t.kind == Income);
    assert SpendingIn(start, end)(t) == (InPeriod(t.datetime, start, end) && t.kind != Income);
  }

  lemma PeriodSumStep(txs: seq<Transaction>, i: nat, p: Transaction -> bool)
    requires i < |txs|
    ensures SumOf(Filter(txs[..i + 1], p), AmountOf)
         == SumOf(Filter(txs[..i], p), AmountOf) + if p(txs[i]) then txs[i].amount else 0.0
  {
    FilteredSumStep(txs, i, p, AmountOf);
  }

  /** Totals over two lists are the sums of the totals over each. */
  lemma TotalsConcat(a: seq<Transaction>, b: seq<Transaction>, start: string, end: string)
    ensures Totals(a + b, start, end).0 == Totals(a, start, end).0 + Totals(b, start, end).0
    ensures Totals(a + b, start, end).1 == Totals(a, start, end).1 + Totals(b, start, end).1
  {
    FilterConcat(a, b, IncomeIn(start, end));
    FilterConcat(a, b, SpendingIn(start, end));
    SumOfConcat(Filter(a, IncomeIn(start, end)), Filter(b, IncomeIn(start, end)), AmountOf);
    SumOfConcat(Filter(a, SpendingIn(start, end)), Filter(b, SpendingIn(start, end)), AmountOf);
  }

  // ------------------------------------------------------ top categories

  /** An insertion-ordered dictionary from category id to running total: a new
      key goes at the end, an existing key keeps its place. */
  type Sums = seq<(string, real)>

  function KeyIs(categoryId: string): ((string, real)) -> bool {
    (e: (string, real)) => e.0 == categoryId
  }

  /** `sums[cid] = sums.get(cid, 0.0) + amount`. */
  function Bump(sums: Sums, categoryId: string, amount: real): (r: Sums)
    ensures |sums| <= |r| <= |sums| + 1
    ensures forall i :: 0 <= i < |sums| && sums[i].0 != categoryId ==> r[i] == sums[i]
  {
    match FirstIndexWhere(sums, KeyIs(categoryId))
    case Some(k) => sums[k := (categoryId, sums[k].1 + amount)]
    case None => sums + [(categoryId, amount)]
  }

  /** The `sums` dictionary after the accumulation loop over `selected`. */
  function Accumulate(selected: seq<Transaction>): (r: Sums)
    ensures |r| <= |selected|
    decreases |selected|
  {
    if selected == [] then []
    else
      var t := selected[|selected| - 1];
      Bump(Accumulate(selected[..|selected| - 1]), t.categoryId, t.amount)
  }

  ghost predicate DistinctKeys(sums: Sums) {
    forall i, j :: 0 <= i < j < |sums| ==> sums[i].0 != sums[j].0
  }

  predicate HasKey(sums: Sums, categoryId: string) {
    exists i :: 0 <= i < |sums| && sums[i].0 == categoryId
  }

  predicate Occurs(selected: seq<Transaction>, categoryId: string) {
    exists t :: t in selected && t.categoryId == categoryId
  }

  /** The sum of the amounts of the transactions of one category. */
  function CategorySum(selected: seq<Transaction>, categoryId: string): real {
    SumOf(Filter(selected, HasCategory(categoryId)), AmountOf)
  }

  lemma CategorySumAppend(s: seq<Transaction>, t: Transaction, categoryId: string)
    ensures CategorySum(s + [t], categoryId)
         == CategorySum(s, categoryId) + if t.categoryId == categoryId then t.amount else 0.0
  {
    FilterAppend(s, t, HasCategory(categoryId));
    var kept := Filter(s, HasCategory(categoryId));
    if t.categoryId == categoryId {
      assert HasCategory(categoryId)(t);
      SumOfAppend(kept, t, AmountOf);
    } else {
      assert !HasCategory(categoryId)(t);
      assert kept + [] == kept;
    }
  }

  lemma {:induction false} CategorySumAbsent(s: seq<Transaction>, categoryId: string)
    requires !Occurs(s, categoryId)
    ensures CategorySum(s, categoryId) == 0.0
    decreases |s|
  {
    if s != [] {
      var init := s[..|s| - 1];
      assert s == init + [s[|s| - 1]];
      assert !Occurs(init, categoryId) by {
        forall t | t in init ensures t.categoryId != categoryId {
          assert t in s;
        }
      }
      CategorySumAbsent(init, categoryId);
      CategorySumAppend(init, s[|s| - 1], categoryId);
    }
  }

  /** The keys of `sums` are the category ids occurring in `selected`. */
  ghost predicate KeysOf(sums: Sums, selected: seq<Transaction>) {
    forall categoryId :: HasKey(sums, categoryId) <==> Occurs(selected, categoryId)
  }

  /** Each entry of `sums` holds the sum of its category's amounts. */
  ghost predicate TotalsOf(sums: Sums, selected: seq<Transaction>) {
    forall i :: 0 <= i < |sums| ==> sums[i].1 == CategorySum(selected, sums[i].0)
  }

  /** The dictionary has one entry per category id that occurs in `selected`,
      and each entry holds the sum of that category's amounts. */
  ghost predicate SumsOf(sums: Sums, selected: seq<Transaction>) {
    DistinctKeys(sums) && KeysOf(sums, selected) && TotalsOf(sums, selected)
  }

  lemma BumpExistingKeys(sums: Sums, init: seq<Transaction>, t: Transaction, k: nat)
    requires DistinctKeys(sums) && KeysOf(sums, init)
    requires k < |sums| && sums[k].0 == t.categoryId
    ensures var after := sums[k := (t.categoryId, sums[k].1 + t.amount)];
      DistinctKeys(after) && KeysOf(after, init + [t])
  {
    var after := sums[k := (t.categoryId, sums[k].1 + t.amount)];
    forall c | Occurs(init + [t], c)
      ensures HasKey(after, c)
    {
      var u :| u in init + [t] && u.categoryId == c;
      if u in init {
        assert Occurs(init, c);
        var i :| 0 <= i < |sums| && sums[i].0 == c;
        assert after[i].0 == c;
      } else {
        assert after[k].0 == c;
      }
    }
    forall c | HasKey(after, c)
      ensures Occurs(init + [t], c)
    {
      var i :| 0 <= i < |after| && after[i].0 == c;
      assert HasKey(sums, c);
      var u :| u in init && u.categoryId == c;
      assert u in init + [t];
    }
  }

  lemma BumpExistingTotals(sums: Sums, init: seq<Transaction>, t: Transaction, k: nat)
    requires DistinctKeys(sums) && TotalsOf(sums, init)
    requires k < |sums| && sums[k].0 == t.categoryId
    ensures TotalsOf(sums[k := (t.categoryId, sums[k].1 + t.amount)], init + [t])
  {
    var after := sums[k := (t.categoryId, sums[k].1 + t.amount)];
    forall i | 0 <= i < |after|
      ensures after[i].1 == CategorySum(init + [t], after[i].0)
    {
      CategorySumAppend(init, t, after[i].0);
      if i != k {
        assert after[i] == sums[i];
        assert sums[i].0 != sums[k].0 by {
          if i < k { assert sums[i].0 != sums[k].0; } else { assert sums[k].0 != sums[i].0; }
        }
      }
    }
  }

  lemma BumpNewKeys(sums: Sums, init: seq<Transaction>, t: Transaction)
    requires DistinctKeys(sums) && KeysOf(sums, init)
    requires !HasKey(sums, t.categoryId)
    ensures var after := sums + [(t.categoryId, t.amount)];
      DistinctKeys(after) && KeysOf(after, init + [t])
  {
    var after := sums + [(t.categoryId, t.amount)];
    forall c | Occurs(init + [t], c)
      ensures HasKey(after, c)
    {
      var u :| u in init + [t] && u.categoryId == c;
      if u in init {
        assert Occurs(init, c);
        var i :| 0 <= i < |sums| && sums[i].0 == c;
        assert after[i].0 == c;
      } else {
        assert after[|sums|].0 == c;
      }
    }
    forall c | HasKey(after, c)
      ensures Occurs(init + [t], c)
    {
      var i :| 0 <= i < |after| && after[i].0 == c;
      if i < |sums| {
        assert HasKey(sums, c);
        var u :| u in init && u.categoryId == c;
        assert u in init + [t];
      } else {
        assert t in init + [t];
      }
    }
  }

  lemma BumpNewTotals(sums: Sums, init: seq<Transaction>, t: Transaction)
    requires KeysOf(sums, init) && TotalsOf(sums, init)
    requires !HasKey(sums, t.categoryId)
    ensures TotalsOf(sums + [(t.categoryId, t.amount)], init + [t])
  {
    var after := sums + [(t.categoryId, t.amount)];
    forall i | 0 <= i < |after|
      ensures after[i].1 == CategorySum(init + [t], after[i].0)
    {
      CategorySumAppend(init, t, after[i].0);
      if i == |sums| {
        CategorySumAbsent(init, t.categoryId);
      }
    }
  }

  /** One step of the accumulation loop keeps the dictionary in step. */
  lemma BumpSums(sums: Sums, init: seq<Transaction>, t: Transaction)
    requires SumsOf(sums, init)
    ensures SumsOf(Bump(sums, t.categoryId, t.amount), init + [t])
  {
    match FirstIndexWhere(sums, KeyIs(t.categoryId))
    case Some(k) =>
      assert KeyIs(t.categoryId)(sums[k]);
      assert Bump(sums, t.categoryId, t.amount) == sums[k := (t.categoryId, sums[k].1 + t.amount)];
      BumpExistingKeys(sums, init, t, k);
      BumpExistingTotals(sums, init, t, k);
    case None =>
      assert !HasKey(sums, t.categoryId) by {
        forall i | 0 <= i < |sums| ensures sums[i].0 != t.categoryId {
          assert !KeyIs(t.categoryId)(sums[i]);
        }
      }
      assert Bump(sums, t.categoryId, t.amount) == sums + [(t.categoryId, t.amount)];
      BumpNewKeys(sums, init, t);
      BumpNewTotals(sums, init, t);
  }

  /** The accumulation loop builds the per-category sums of `selected`. */
  lemma {:induction false} AccumulateSums(selected: seq<Transaction>)
    ensures SumsOf(Accumulate(selected), selected)
    decreases |selected|
  {
    if selected != [] {
      var init := selected[..|selected| - 1];
      var t := selected[|selected| - 1];
      assert selected == init + [t];
      AccumulateSums(init);
      BumpSums(Accumulate(init), init, t);
    }
  }

  /** The transactions `top_categories` adds up. */
  function Selected(txs: seq<Transaction>, kind: TxType, start: string, end: string): seq<Transaction> {
    Filter(txs, Selects(kind, start, end))
  }

  /** `sorted(..., key=lambda x: x[1], reverse=True)` is stable: an entry goes
      ahead of another only when its total is larger. */
  predicate TotalAbove(a: (string, real), b: (string, real)) {
    a.1 > b.1
  }

  lemma TotalAboveIsStrict()
    ensures StrictOrder(TotalAbove)
  {
  }

  function CategoryHasId(categoryId: string): Category -> bool {
    (c: Category) => c.id == categoryId
  }

  /** The name shown for a category id: that of the first category with this
      id, or the id itself when there is none. */
  function NameOf(categories: seq<Category>, categoryId: string): (name: string)
    ensures (forall k :: 0 <= k < |categories| ==> categories[k].id != categoryId) ==> name == categoryId
    ensures forall k :: 0 <= k < |categories| && categories[k].id == categoryId
                 && (forall l :: 0 <= l < k ==> categories[l].id != categoryId)
                 ==> name == categories[k].name
  {
    match FirstIndexWhere(categories, CategoryHasId(categoryId))
    case Some(k) =>
      assert forall l :: 0 <= l < k ==> !CategoryHasId(categoryId)(categories[l]);
      categories[k].name
    case None => categoryId
  }

  /** One row of the `top_categories` result. */
  datatype CategoryTotal = CategoryTotal(categoryId: string, categoryName: string, total: real)

  function Row(categories: seq<Category>, entry: (string, real)): CategoryTotal {
    CategoryTotal(entry.0, NameOf(categories, entry.0), entry.1)
  }

  /** The per-category sums, largest first. */
  function Ranked(txs: seq<Transaction>, kind: TxType, start: string, end: string): Sums {
    SortBy(Accumulate(Selected(txs, kind, start, end)), TotalAbove)
  }

  /** What `top_categories` returns: the first `topN` ranked entries (Python
      slicing, so a negative `topN` drops entries from the end), each with its
      category's name. */
  function TopCategoriesSpec(txs: seq<Transaction>, categories: seq<Category>, kind: TxType,
                             topN: int, start: string, end: string): seq<CategoryTotal>
  {
    Rows(categories, PyHead(Ranked(txs, kind, start, end), topN))
  }

  function RowOf(categories: seq<Category>): ((string, real)) -> CategoryTotal {
    (entry: (string, real)) => Row(categories, entry)
  }

  /** Each entry as a row, in order. */
  function Rows(categories: seq<Category>, entries: Sums): (out: seq<CategoryTotal>)
    ensures |out| == |entries|
  {
    Map(entries, RowOf(categories))
  }

  /** Row `i` is entry `i`, with its name looked up. */
  lemma RowsAt(categories: seq<Category>, entries: Sums)
    ensures forall i :: 0 <= i < |entries| ==> Rows(categories, entries)[i] == Row(categories, entries[i])
  {
    MapAt(entries, RowOf(categories));
  }

  lemma {:induction false} DistinctKeysOnce(sums: Sums, x: (string, real))
    requires DistinctKeys(sums)
    ensures multiset(sums)[x] <= 1
    decreases |sums|
  {
    if sums != [] {
      var init := sums[..|sums| - 1];
      assert sums == init + [sums[|sums| - 1]];
      DistinctKeysOnce(init, x);
    }
  }

  lemma RepeatedTwice(s: Sums, i: int, j: int)
    requires 0 <= i < j < |s| && s[i] == s[j]
    ensures multiset(s)[s[i]] >= 2
  {
    assert s == s[..j] + s[j..];
    assert s[i] in s[..j];
    assert s[j] in s[j..];
  }

  lemma DifferentEntriesDifferentKeys(a: Sums, x: (string, real), y: (string, real))
    requires DistinctKeys(a) && x in a && y in a && x != y
    ensures x.0 != y.0
  {
    var p :| 0 <= p < |a| && a[p] == x;
    var q :| 0 <= q < |a| && a[q] == y;
    if p < q {
      assert a[p].0 != a[q].0;
    } else {
      assert a[q].0 != a[p].0;
    }
  }

  /** Reordering keeps keys distinct. */
  lemma DistinctKeysPermutation(a: Sums, b: Sums)
    requires DistinctKeys(a) && multiset(a) == multiset(b)
    ensures DistinctKeys(b)
  {
    forall i, j | 0 <= i < j < |b|
      ensures b[i].0 != b[j].0
    {
      if b[i] == b[j] {
        RepeatedTwice(b, i, j);
        DistinctKeysOnce(a, b[i]);
      } else {
        assert b[i] in multiset(b) && b[j] in multiset(b);
        DifferentEntriesDifferentKeys(a, b[i], b[j]);
      }
    }
  }

  lemma PermutedKeys(a: Sums, b: Sums, selected: seq<Transaction>)
    requires KeysOf(a, selected) && multiset(a) == multiset(b)
    ensures KeysOf(b, selected)
  {
    forall c | HasKey(a, c)
      ensures HasKey(b, c)
    {
      var m :| 0 <= m < |a| && a[m].0 == c;
      assert a[m] in multiset(b);
      var p :| 0 <= p < |b| && b[p] == a[m];
    }
    forall c | HasKey(b, c)
      ensures HasKey(a, c)
    {
      var m :| 0 <= m < |b| && b[m].0 == c;
      assert b[m] in multiset(a);
      var p :| 0 <= p < |a| && a[p] == b[m];
    }
  }

  lemma PermutedTotals(a: Sums, b: Sums, selected: seq<Transaction>)
    requires TotalsOf(a, selected) && multiset(a) == multiset(b)
    ensures TotalsOf(b, selected)
  {
    forall i | 0 <= i < |b|
      ensures b[i].1 == CategorySum(selected, b[i].0)
    {
      assert b[i] in multiset(a);
      var m :| 0 <= m < |a| && a[m] == b[i];
    }
  }

  /** The ranking holds the categories of the selected transactions, each
      with its sum, and the totals never increase. */
  lemma RankedFacts(txs: seq<Transaction>, kind: TxType, start: string, end: string)
    ensures var ranked := Ranked(txs, kind, start, end);
      && KeysOf(ranked, Selected(txs, kind, start, end))
      && TotalsOf(ranked, Selected(txs, kind, start, end))
      && SortedBy(ranked, TotalAbove)
  {
    var selected := Selected(txs, kind, start, end);
    var sums := Accumulate(selected);
    var ranked := Ranked(txs, kind, start, end);
    AccumulateSums(selected);
    TotalAboveIsStrict();
    SortBySorted(sums, TotalAbove);
    PermutedKeys(sums, ranked, selected);
    PermutedTotals(sums, ranked, selected);
  }

  /** No category appears twice in the ranking. */
  lemma RankedDistinct(txs: seq<Transaction>, kind: TxType, start: string, end: string)
    ensures DistinctKeys(Ranked(txs, kind, start, end))
  {
    var selected := Selected(txs, kind, start, end);
    AccumulateSums(selected);
    DistinctKeysPermutation(Accumulate(selected), Ranked(txs, kind, start, end));
  }

  function TotalIs(total: real): ((string, real)) -> bool {
    (e: (string, real)) => e.1 == total
  }

  /** `sorted` is stable, so ties keep the dictionary's order: the entries
      with any one total appear in the ranking in the order their categories
      were first met, and that order decides which of them a `top_n` cut
      keeps. */
  lemma RankedTiesInDictOrder(txs: seq<Transaction>, kind: TxType, start: string, end: string, total: real)
    ensures Filter(Ranked(txs, kind, start, end), TotalIs(total))
         == Filter(Accumulate(Selected(txs, kind, start, end)), TotalIs(total))
  {
    TotalAboveIsStrict();
    assert TieClass(TotalAbove, TotalIs(total));
    SortByStable(Accumulate(Selected(txs, kind, start, end)), TotalAbove, TotalIs(total));
  }

  /** A category missing from the first `n` entries of the ranking has a total
      no larger than any of them. */
  lemma LeftOutIsBelow(ranked: Sums, n: nat, categoryId: string) returns (p: nat)
    requires SortedBy(ranked, TotalAbove) && HasKey(ranked, categoryId) && n <= |ranked|
    requires forall i :: 0 <= i < n ==> ranked[i].0 != categoryId
    ensures n <= p < |ranked| && ranked[p].0 == categoryId
    ensures forall i :: 0 <= i < n ==> ranked[p].1 <= ranked[i].1
  {
    p :| 0 <= p < |ranked| && ranked[p].0 == categoryId;
    forall i | 0 <= i < n
      ensures ranked[p].1 <= ranked[i].1
    {
      assert !TotalAbove(ranked[p], ranked[i]);
    }
  }

  /** The rows of `top_categories` are the first entries of the ranking, each
      with its category's name. */
  lemma TopCategoriesShape(txs: seq<Transaction>, categories: seq<Category>, kind: TxType,
                           topN: int, start: string, end: string)
    ensures var out := TopCategoriesSpec(txs, categories, kind, topN, start, end);
      var ranked := Ranked(txs, kind, start, end);
      && |out| <= |ranked|
      && (topN >= 0 ==> |out| == if topN < |ranked| then topN else |ranked|)
      && forall i :: 0 <= i < |out| ==>
           && out[i].categoryId == ranked[i].0
           && out[i].total == ranked[i].1
           && out[i].categoryName == NameOf(categories, ranked[i].0)
  {
    RowsAt(categories, PyHead(Ranked(txs, kind, start, end), topN));
  }

  /** Each row of `top_categories` is a category that occurs among the
      transactions of the requested kind in the period, with the sum of their
      amounts. */
  lemma TopCategoriesRows(txs: seq<Transaction>, categories: seq<Category>, kind: TxType,
                          topN: int, start: string, end: string)
    ensures var out := TopCategoriesSpec(txs, categories, kind, topN, start, end);
      var selected := Selected(txs, kind, start, end);
      forall i :: 0 <= i < |out| ==>
        && Occurs(selected, out[i].categoryId)
        && out[i].total == CategorySum(selected, out[i].categoryId)
  {
    var selected := Selected(txs, kind, start, end);
    var ranked := Ranked(txs, kind, start, end);
    var out := TopCategoriesSpec(txs, categories, kind, topN, start, end);
    TopCategoriesShape(txs, categories, kind, topN, start, end);
    RankedFacts(txs, kind, start, end);
    forall i | 0 <= i < |out|
      ensures Occurs(selected, out[i].categoryId)
    {
      assert HasKey(ranked, ranked[i].0);
    }
  }

  /** No category appears twice among the rows, and their totals never
      increase. */
  lemma TopCategoriesOrdered(txs: seq<Transaction>, categories: seq<Category>, kind: TxType,
                             topN: int, start: string, end: string)
    ensures var out := TopCategoriesSpec(txs, categories, kind, topN, start, end);
      forall i, j :: 0 <= i < j < |out| ==>
        out[i].categoryId != out[j].categoryId && out[i].total >= out[j].total
  {
    var ranked := Ranked(txs, kind, start, end);
    var out := TopCategoriesSpec(txs, categories, kind, topN, start, end);
    TopCategoriesShape(txs, categories, kind, topN, start, end);
    RankedDistinct(txs, kind, start, end);
    TotalAboveIsStrict();
    SortBySorted(Accumulate(Selected(txs, kind, start, end)), TotalAbove);
    forall i, j | 0 <= i < j < |out|
      ensures out[i].categoryId != out[j].categoryId && out[i].total >= out[j].total
    {
      assert !TotalAbove(ranked[j], ranked[i]);
    }
  }

  /** The rows are the largest totals: a category of the selected transactions
      that is left out sums to no more than any row, and it can only be left
      out because `topN` rows are already there. */
  lemma TopCategoriesAreTop(txs: seq<Transaction>, categories: seq<Category>, kind: TxType,
                            topN: int, start: string, end: string, categoryId: string)
    requires Occurs(Selected(txs, kind, start, end), categoryId)
    requires var out := TopCategoriesSpec(txs, categories, kind, topN, start, end);
      forall i :: 0 <= i < |out| ==> out[i].categoryId != categoryId
    ensures var out := TopCategoriesSpec(txs, categories, kind, topN, start, end);
      && (topN >= 0 ==> |out| == topN)
      && (forall i :: 0 <= i < |out| ==> CategorySum(Selected(txs, kind, start, end), categoryId) <= out[i].total)
  {
    var out := TopCategoriesSpec(txs, categories, kind, topN, start, end);
    var ranked := Ranked(txs, kind, start, end);
    TopCategoriesShape(txs, categories, kind, topN, start, end);
    RankedFacts(txs, kind, start, end);
    var p := LeftOutIsBelow(ranked, |out|, categoryId);
  }

  /** With `topN >= 0`, at most `topN` rows, and fewer only when every
      category of the selected transactions is already there. */
  lemma TopCategoriesCount(txs: seq<Transaction>, categories: seq<Category>, kind: TxType,
                           topN: int, start: string, end: string)
    requires topN >= 0
    ensures var out := TopCategoriesSpec(txs, categories, kind, topN, start, end);
      && |out| <= topN
      && (|out| < topN ==> forall c :: Occurs(Selected(txs, kind, start, end), c) ==>
            exists i :: 0 <= i < |out| && out[i].categoryId == c)
  {
    var out := TopCategoriesSpec(txs, categories, kind, topN, start, end);
    var ranked := Ranked(txs, kind, start, end);
    TopCategoriesShape(txs, categories, kind, topN, start, end);
    RankedFacts(txs, kind, start, end);
    if |out| < topN {
      forall c | Occurs(Selected(txs, kind, start, end), c)
        ensures exists i :: 0 <= i < |out| && out[i].categoryId == c
      {
        assert HasKey(ranked, c);
        var p :| 0 <= p < |ranked| && ranked[p].0 == c;
        assert out[p].categoryId == c;
      }
    }
  }

  // ------------------------------------------------------ comprehensions

  /** `[t for t in txs if t.category_id == category_id]`. */
  function ByCategory(txs: seq<Transaction>, categoryId: string): (r: seq<Transaction>)
    ensures |r| <= |txs|
    ensures forall t :: t in r <==> t in txs && t.categoryId == categoryId
    ensures forall t :: multiset(r)[t] == if t.categoryId == categoryId then multiset(txs)[t] else 0
  {
    FilterMembers(txs, HasCategory(categoryId));
    FilterMultiplicities(txs, HasCategory(categoryId));
    Filter(txs, HasCategory(categoryId))
  }

  /** `[t for t in txs if between(t.datetime)]`. */
  function InDateRange(txs: seq<Transaction>, start: string, end: string): (r: seq<Transaction>)
    ensures |r| <= |txs|
    ensures forall t :: t in r <==> t in txs && InPeriod(t.datetime, start, end)
    ensures forall t :: multiset(r)[t] == if InPeriod(t.datetime, start, end) then multiset(txs)[t] else 0
  {
    FilterMembers(txs, InPeriodOf(start, end));
    FilterMultiplicities(txs, InPeriodOf(start, end));
    Filter(txs, InPeriodOf(start, end))
  }

  /** `[t for t in txs if t.id != tx_id]`: every transaction with that id goes,
      every other one stays, in order. */
  function WithoutId(txs: seq<Transaction>, txId: string): (r: seq<Transaction>)
    ensures forall t :: t in r <==> t in txs && t.id != txId
    ensures forall t :: multiset(r)[t] == if t.id != txId then multiset(txs)[t] else 0
    ensures |r| == |txs| <==> forall k :: 0 <= k < |txs| ==> txs[k].id != txId
  {
    FilterMembers(txs, HasOtherId(txId));
    FilterMultiplicities(txs, HasOtherId(txId));
    FilterKeepsAll(txs, HasOtherId(txId));
    Filter(txs, HasOtherId(txId))
  }

  /** The transaction `edit_transaction` stores: the new one, keeping the old
      id when the new one has none. */
  function Replacement(txId: string, newTx: Transaction): (r: Transaction)
    ensures r.id == if newTx.id == "" then txId else newTx.id
    ensures r.(id := newTx.id) == newTx
  {
    if newTx.id == "" then newTx.(id := txId) else newTx
  }

  // ------------------------------------------------------------- services

  class TransactionService {
    var txs: seq<Transaction>
    var accounts: seq<Account>
    var categories: seq<Category>

    constructor(txs: seq<Transaction>, accounts: seq<Account>, categories: seq<Category>)
      ensures this.txs == txs && this.accounts == accounts && this.categories == categories
    {
      this.txs := txs;
      this.accounts := accounts;
      this.categories := categories;
    }

    /** Appends `tx` (with `freshId` as its id when it has none, standing for
        a newly generated UUID) and recalculates the balances. */
    method AddTransaction(tx: Transaction, freshId: string) returns (added: Transaction)
      modifies this
      ensures added == if tx.id == "" then tx.(id := freshId) else tx
      ensures txs == old(txs) + [added]
      ensures accounts == Rebalanced(old(accounts), txs)
      ensures categories == old(categories)
    {
      added := tx;
      if added.id == "" {
        added := added.(id := freshId);
      }
      txs := txs + [added];
      RecalculateBalances();
    }

    /** Replaces the first transaction with id `txId` and recalculates the
        balances; reports whether there was one. */
    method EditTransaction(txId: string, newTx: Transaction) returns (found: bool)
      modifies this
      ensures categories == old(categories)
      ensures match FirstIndexWhere(old(txs), HasId(txId))
        case Some(k) =>
          && found
          && txs == old(txs)[k := Replacement(txId, newTx)]
          && accounts == Rebalanced(old(accounts), txs)
        case None =>
          && !found
          && txs == old(txs)
          && accounts == old(accounts)
    {
      var i := 0;
      while i < |txs|
        invariant 0 <= i <= |txs|
        invariant txs == old(txs) && accounts == old(accounts) && categories == old(categories)
        invariant forall k :: 0 <= k < i ==> !HasId(txId)(txs[k])
      {
        if txs[i].id == txId {
          assert HasId(txId)(txs[i]);
          txs := txs[i := newTx];
          if txs[i].id == "" {
            txs := txs[i := txs[i].(id := txId)];
          }
          assert txs == old(txs)[i := Replacement(txId, newTx)];
          RecalculateBalances();
          return true;
        }
        i := i + 1;
      }
      return false;
    }

    /** Drops every transaction with id `txId`; recalculates the balances and
        reports `true` exactly when that removed something. */
    method DeleteTransaction(txId: string) returns (changed: bool)
      modifies this
      ensures txs == WithoutId(old(txs), txId)
      ensures changed <==> exists k :: 0 <= k < |old(txs)| && old(txs)[k].id == txId
      ensures accounts == if changed then Rebalanced(old(accounts), txs) else old(accounts)
      ensures categories == old(categories)
    {
      var origLen := |txs|;
      txs := WithoutId(txs, txId);
      if |txs| != origLen {
        RecalculateBalances();
        return true;
      }
      return false;
    }

    /** The first transaction with id `txId`, if any. */
    method GetTransaction(txId: string) returns (r: Option<Transaction>)
      ensures r.Some? ==> r.value.id == txId && r.value in txs
      ensures r.Some? ==> exists k :: 0 <= k < |txs| && txs[k] == r.value
                                     && forall l :: 0 <= l < k ==> txs[l].id != txId
      ensures r.None? <==> forall k :: 0 <= k < |txs| ==> txs[k].id != txId
    {
      var i := 0;
      while i < |txs|
        invariant 0 <= i <= |txs|
        invariant forall l :: 0 <= l < i ==> txs[l].id != txId
      {
        if txs[i].id == txId {
          return Some(txs[i]);
        }
        i := i + 1;
      }
      return None;
    }

    /** A copy of the transaction list, in stored order. */
    function ListTransactions(): (r: seq<Transaction>)
      reads this
      ensures |r| == |txs| && forall i :: 0 <= i < |r| ==> r[i] == txs[i]
    {
      txs
    }

    function SearchByCategory(categoryId: string): (r: seq<Transaction>)
      reads this
      ensures forall t :: t in r <==> t in txs && t.categoryId == categoryId
      ensures forall t :: multiset(r)[t] == if t.categoryId == categoryId then multiset(txs)[t] else 0
    {
      ByCategory(txs, categoryId)
    }

    function FilterByDateRange(start: string, end: string): (r: seq<Transaction>)
      reads this
      ensures forall t :: t in r <==> t in txs && InPeriod(t.datetime, start, end)
      ensures forall t :: multiset(r)[t] == if InPeriod(t.datetime, start, end) then multiset(txs)[t] else 0
    {
      InDateRange(txs, start, end)
    }

    /** Resets every balance to the initial one, then applies the
        transactions in date order to the accounts they name. */
    method RecalculateBalances()
      modifies this
      ensures txs == old(txs) && categories == old(categories)
      ensures accounts == Rebalanced(old(accounts), txs)
    {
      ResetBalances();
      var sorted := SortBy(txs, DatetimeBefore);
      var i := 0;
      while i < |sorted|
        invariant 0 <= i <= |sorted|
        invariant txs == old(txs) && categories == old(categories)
        invariant accounts == Rebalanced(old(accounts), sorted[..i])
      {
        ghost var before := accounts;
        ApplyTransaction(sorted[i]);
        RebalancedStep(old(accounts), before, accounts, sorted[..i], sorted[i]);
        assert sorted[..i + 1] == sorted[..i] + [sorted[i]];
        i := i + 1;
      }
      assert sorted[..|sorted|] == sorted;
      RebalancedSorted(old(accounts), txs);
    }

    /** Lines 64-66: every balance goes back to its opening balance. */
    method ResetBalances()
      modifies this
      ensures txs == old(txs) && categories == old(categories)
      ensures accounts == Rebalanced(old(accounts), [])
    {
      var j := 0;
      while j < |accounts|
        invariant 0 <= j <= |accounts| == |old(accounts)|
        invariant txs == old(txs) && categories == old(categories)
        invariant forall k :: 0 <= k < |accounts| ==>
          accounts[k] == if k < j then Balanced(old(accounts)[k], []) else old(accounts)[k]
      {
        accounts := accounts[j := accounts[j].(currentBalance := accounts[j].initialBalance)];
        j := j + 1;
      }
      assert forall k :: 0 <= k < |accounts| ==> accounts[k] == Rebalanced(old(accounts), [])[k];
    }

    /** Lines 70-75: every account the transaction belongs to moves by its
        effect (up for income, down otherwise); the others are untouched. */
    method ApplyTransaction(t: Transaction)
      modifies this
      ensures txs == old(txs) && categories == old(categories)
      ensures |accounts| == |old(accounts)|
      ensures forall k :: 0 <= k < |accounts| ==>
        accounts[k] == old(accounts)[k].(currentBalance := old(accounts)[k].currentBalance + Delta(old(accounts)[k].id)(t))
    {
      var j := 0;
      while j < |accounts|
        invariant 0 <= j <= |accounts| == |old(accounts)|
        invariant txs == old(txs) && categories == old(categories)
        invariant forall k :: 0 <= k < |accounts| ==>
          accounts[k] == if k < j then old(accounts)[k].(currentBalance := old(accounts)[k].currentBalance + Delta(old(accounts)[k].id)(t))
                         else old(accounts)[k]
      {
        if accounts[j].id == t.accountId {
          if t.kind == Income {
            accounts := accounts[j := accounts[j].(currentBalance := accounts[j].currentBalance + t.amount)];
          } else {
            accounts := accounts[j := accounts[j].(currentBalance := accounts[j].currentBalance - t.amount)];
          }
        }
        j := j + 1;
      }
    }
  }

  /** One pass of the outer loop of `recalculate_balances`: moving every
      account by one more transaction's effect extends the recalculation by it. */
  lemma RebalancedStep(base: seq<Account>, before: seq<Account>, after: seq<Account>,
                       done: seq<Transaction>, t: Transaction)
    requires before == Rebalanced(base, done)
    requires |after| == |before|
    requires forall k :: 0 <= k < |after| ==>
      after[k] == before[k].(currentBalance := before[k].currentBalance + Delta(before[k].id)(t))
    ensures after == Rebalanced(base, done + [t])
  {
    forall k | 0 <= k < |after|
      ensures after[k] == Rebalanced(base, done + [t])[k]
    {
      BalancedAppend(base[k], done, t);
    }
  }

  /** The order in which the transactions are applied does not matter. */
  lemma RebalancedSorted(base: seq<Account>, txs: seq<Transaction>)
    ensures Rebalanced(base, SortBy(txs, DatetimeBefore)) == Rebalanced(base, txs)
  {
    var sorted := Rebalanced(base, SortBy(txs, DatetimeBefore));
    var unsorted := Rebalanced(base, txs);
    forall k | 0 <= k < |base|
      ensures sorted[k] == unsorted[k]
    {
      SumOfSortBy(txs, DatetimeBefore, Delta(base[k].id));
    }
  }

  /** Applying one more transaction to an account moves its balance by that
      transaction's effect and changes nothing else. */
  lemma BalancedAppend(a: Account, done: seq<Transaction>, t: Transaction)
    ensures Balanced(a, done + [t]) == Balanced(a, done).(currentBalance := Balanced(a, done).currentBalance + Delta(a.id)(t))
  {
    SumOfAppend(done, t, Delta(a.id));
  }

  class StatisticsService {
    var txs: seq<Transaction>
    var categories: seq<Category>

    constructor(txs: seq<Transaction>, categories: seq<Category>)
      ensures this.txs == txs && this.categories == categories
    {
      this.txs := txs;
      this.categories := categories;
    }

    /** Income and other spending inside the period. */
    method CalculateTotals(start: string := "", end: string := "") returns (inc: real, exp: real)
      ensures (inc, exp) == Totals(txs, start, end)
    {
      inc := 0.0;
      exp := 0.0;
      for i := 0 to |txs|
        invariant inc == Totals(txs[..i], start, end).0
        invariant exp == Totals(txs[..i], start, end).1
      {
        var t := txs[i];
        TotalsStep(txs, i, start, end);
        if !InPeriod(t.datetime, start, end) {
          continue;
        }
        if t.kind == Income {
          inc := inc + t.amount;
        } else {
          exp := exp + t.amount;
        }
      }
      assert txs[..|txs|] == txs;
    }

    /** The `topN` categories with the largest totals among the transactions
        of kind `kind` in the period, largest first. */
    method TopCategories(kind: TxType, topN: int := 10, start: string := "", end: string := "")
      returns (out: seq<CategoryTotal>)
      ensures out == TopCategoriesSpec(txs, categories, kind, topN, start, end)
    {
      var sums: Sums := [];
      for i := 0 to |txs|
        invariant sums == Accumulate(Selected(txs[..i], kind, start, end))
      {
        var t := txs[i];
        AccumulateStep(txs, i, kind, start, end);
        assert Selects(kind, start, end)(t)
          <==> t.kind == kind && InPeriod(t.datetime, start, end);
        if t.kind != kind {
          continue;
        }
        if !InPeriod(t.datetime, start, end) {
          continue;
        }
        sums := Bump(sums, t.categoryId, t.amount);
      }
      assert txs[..|txs|] == txs;
      var items := SortBy(sums, TotalAbove);
      var head := PyHead(items, topN);
      assert head == PyHead(Ranked(txs, kind, start, end), topN);
      out := [];
      for i := 0 to |head|
        invariant out == Rows(categories, head[..i])
      {
        RowsStep(categories, head, i);
        var cid := head[i].0;
        var name := CategoryName(cid);
        out := out + [CategoryTotal(cid, name, head[i].1)];
      }
      assert head[..|head|] == head;
    }

    /** The name of the first category with id `categoryId`, or the id. */
    method CategoryName(categoryId: string) returns (name: string)
      ensures name == NameOf(categories, categoryId)
    {
      name := categoryId;
      for j := 0 to |categories|
        invariant name == categoryId
        invariant forall l :: 0 <= l < j ==> categories[l].id != categoryId
      {
        if categories[j].id == categoryId {
          name := categories[j].name;
          return;
        }
      }
    }
  }

  lemma RowsStep(categories: seq<Category>, entries: Sums, i: nat)
    requires i < |entries|
    ensures Rows(categories, entries[..i + 1]) == Rows(categories, entries[..i]) + [Row(categories, entries[i])]
  {
    MapStep(entries, RowOf(categories), i);
  }

  /** One more step of the accumulation loop of `top_categories`. */
  lemma AccumulateStep(txs: seq<Transaction>, i: nat, kind: TxType, start: string, end: string)
    requires i < |txs|
    ensures var before := Accumulate(Selected(txs[..i], kind, start, end));
      Accumulate(Selected(txs[..i + 1], kind, start, end))
        == if Selects(kind, start, end)(txs[i]) then Bump(before, txs[i].categoryId, txs[i].amount) else before
  {
    var p := Selects(kind, start, end);
    assert txs[..i + 1] == txs[..i] + [txs[i]];
    FilterAppend(txs[..i], txs[i], p);
    var kept := Filter(txs[..i], p);
    if p(txs[i]) {
      assert (kept + [txs[i]])[..|kept|] == kept;
    } else {
      assert kept + [] == kept;
    }
  }
}
