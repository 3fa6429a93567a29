/** Per-account balance aggregation over ledger files: all entries of all ledgers grouped by
    account, with debit and credit summed per account and `net = debit - credit`. */
module BalanceAggregation {
  import opened Common
  import opened Sums

  /** The three columns of a ledger row that the aggregation reads. */
  datatype Posting = Posting(account: string, debit: real, credit: real)

  /** A named, ordered sequence of postings read from one file. */
  datatype LedgerFile = LedgerFile(name: string, entries: seq<Posting>)

  /** One result row: the account's sums and its net. */
  datatype AccountBalance = AccountBalance(debit: real, credit: real, net: real)

  /** The returned frame: the column-only frame `account, debit, credit` (no `net`) for no
      input, otherwise one row per account; pandas' row order is not modelled. */
  datatype BalanceTable = EmptyFrame | Grouped(rows: map<string, AccountBalance>)

  /** The `KeyError: 'account'` raised by `groupby` on a combined frame that has no columns. */
  datatype AggregateError = MissingAccountColumn

  /** `pd.concat` of the per-ledger frames: every entry of every ledger, ledger by ledger. */
  function Combined(ledgers: seq<LedgerFile>): seq<Posting>
  {
    if ledgers == [] then [] else Combined(ledgers[..|ledgers| - 1]) + ledgers[|ledgers| - 1].entries
  }

  /** The debit of a posting to account `a`, else nothing. */
  function DebitIn(a: string): Posting -> real
  {
    (p: Posting) => if p.account == a then p.debit else 0.0
  }

  /** The credit of a posting to account `a`, else nothing. */
  function CreditIn(a: string): Posting -> real
  {
    (p: Posting) => if p.account == a then p.credit else 0.0
  }

  /** The accounts that occur in `ps`. */
  function Accounts(ps: seq<Posting>): set<string>
  {
    if ps == [] then {} else Accounts(ps[..|ps| - 1]) + {ps[|ps| - 1].account}
  }

  /** The group-by fold: a running map from account to its (debit, credit) sums. */
  function Totals(ps: seq<Posting>): map<string, (real, real)>
  {
    if ps == [] then map[]
    else
      var t, p := Totals(ps[..|ps| - 1]), ps[|ps| - 1];
      var prev := if p.account in t then t[p.account] else (0.0, 0.0);
      t[p.account := (prev.0 + p.debit, prev.1 + p.credit)]
  }

  lemma {:induction false} AccountsMembership(ps: seq<Posting>, a: string)
    ensures a in Accounts(ps) <==> exists p :: p in ps && p.account == a
    decreases |ps|
  {
    if ps != [] {
      var init := ps[..|ps| - 1];
      AccountsMembership(init, a);
      assert ps == init + [ps[|ps| - 1]];
    }
  }

  /** The fold keeps, for every account seen so far, exactly the sums of its two columns;
      an account not seen yet has nothing to sum. */
  lemma {:induction false} TotalsAreSums(ps: seq<Posting>)
    ensures Totals(ps).Keys == Accounts(ps)
    ensures forall a :: a in Totals(ps) ==> Totals(ps)[a] == (Sum(ps, DebitIn(a)), Sum(ps, CreditIn(a)))
    ensures forall a :: a !in Accounts(ps) ==> Sum(ps, DebitIn(a)) == 0.0 && Sum(ps, CreditIn(a)) == 0.0
    decreases |ps|
  {
    if ps != [] {
      var init, p := ps[..|ps| - 1], ps[|ps| - 1];
      TotalsAreSums(init);
      var t := Totals(init);
      assert Accounts(ps) == Accounts(init) + {p.account};
      forall a
        ensures Sum(ps, DebitIn(a)) == Sum(init, DebitIn(a)) + (if p.account == a then p.debit else 0.0)
        ensures Sum(ps, CreditIn(a)) == Sum(init, CreditIn(a)) + (if p.account == a then p.credit else 0.0)
      {
      }
      forall a | a in Totals(ps)
        ensures Totals(ps)[a] == (Sum(ps, DebitIn(a)), Sum(ps, CreditIn(a)))
      {
        if a != p.account {
          assert Totals(ps)[a] == t[a];
        }
      }
    }
  }

  /** The grouped rows: one per account that occurs, each with its sums and its net. */
  function Grouping(ps: seq<Posting>): (rows: map<string, AccountBalance>)
    ensures rows.Keys == Accounts(ps)
    ensures forall a :: a in rows ==>
              && rows[a].debit == Sum(ps, DebitIn(a))
              && rows[a].credit == Sum(ps, CreditIn(a))
              && rows[a].net == rows[a].debit - rows[a].credit
  {
    TotalsAreSums(ps);
    var t := Totals(ps);
    map a | a in t :: AccountBalance(t[a].0, t[a].1, t[a].0 - t[a].1)
  }

  /** `aggregate_balances` as written. A list of ledgers that holds no entry at all makes
      every per-ledger frame column-less, and grouping their concatenation by "account"
      raises. */
  function AggregateBalances(ledgers: seq<LedgerFile>): (r: Result<BalanceTable, AggregateError>)
    ensures ledgers == [] ==> r == Ok(EmptyFrame)
    ensures r.Err? <==> ledgers != [] && Combined(ledgers) == []
    ensures Combined(ledgers) != [] ==> r == Ok(Grouped(Grouping(Combined(ledgers))))
  {
    if ledgers == [] then Ok(EmptyFrame)
    else if Combined(ledgers) == [] then Err(MissingAccountColumn)
    else Ok(Grouped(Grouping(Combined(ledgers))))
  }

  /** The aggregation as evidently intended: input without any entry yields the empty frame
      rather than an error; otherwise the same grouped rows. */
  function Aggregate(ledgers: seq<LedgerFile>): (t: BalanceTable)
    ensures Combined(ledgers) == [] <==> t == EmptyFrame
    ensures t.Grouped? ==> t.rows.Keys == Accounts(Combined(ledgers))
    ensures t.Grouped? ==> forall a :: a in t.rows ==>
              && t.rows[a].debit == Sum(Combined(ledgers), DebitIn(a))
              && t.rows[a].credit == Sum(Combined(ledgers), CreditIn(a))
              && t.rows[a].net == t.rows[a].debit - t.rows[a].credit
  {
    var ps := Combined(ledgers);
    if ps == [] then EmptyFrame
    else
      assert ps[|ps| - 1].account in Accounts(ps);
      Grouped(Grouping(ps))
  }

  /** Counterexample: one ledger file with no rows makes the as-written aggregation raise,
      where the corrected one returns the empty frame. */
  lemma EmptyLedgerFileRaises()
    ensures AggregateBalances([LedgerFile("empty.csv", [])]) == Err(MissingAccountColumn)
    ensures Aggregate([LedgerFile("empty.csv", [])]) == EmptyFrame
  {
    assert Combined([LedgerFile("empty.csv", [])]) == [] by {
      assert [LedgerFile("empty.csv", [])][..0] == [];
    }
  }

  /** The two agree wherever the as-written aggregation does not raise. */
  lemma AggregateAgreesWhenDefined(ledgers: seq<LedgerFile>)
    requires AggregateBalances(ledgers).Ok?
    ensures AggregateBalances(ledgers).value == Aggregate(ledgers)
  {
  }

  /** Concatenating ledger lists concatenates their entries. */
  lemma {:induction false} CombinedAppend(l1: seq<LedgerFile>, l2: seq<LedgerFile>)
    ensures Combined(l1 + l2) == Combined(l1) + Combined(l2)
    decreases |l2|
  {
    if l2 == [] {
      assert l1 + l2 == l1;
    } else {
      assert (l1 + l2)[..|l1 + l2| - 1] == l1 + l2[..|l2| - 1];
      CombinedAppend(l1, l2[..|l2| - 1]);
    }
  }

  /** Reordering the ledgers reorders the combined entries and nothing more. */
  lemma {:induction false} CombinedIgnoresLedgerOrder(l1: seq<LedgerFile>, l2: seq<LedgerFile>)
    requires multiset(l1) == multiset(l2)
    ensures multiset(Combined(l1)) == multiset(Combined(l2))
    decreases |l1|
  {
    if l1 == [] {
      assert |l2| == |multiset(l2)| == 0;
    } else {
      var x := l1[|l1| - 1];
      var l1' := l1[..|l1| - 1];
      assert l1 == l1' + [x];
      assert x in multiset(l2);
      var j :| 0 <= j < |l2| && l2[j] == x;
      var l2' := l2[..j] + l2[j + 1..];
      assert l2 == l2[..j] + [x] + l2[j + 1..];
      assert multiset(l2') == multiset(l2) - multiset{x};
      assert multiset(l1') == multiset(l1) - multiset{x};
      CombinedIgnoresLedgerOrder(l1', l2');
      CombinedAppend(l2[..j] + [x], l2[j + 1..]);
      CombinedAppend(l2[..j], [x]);
      CombinedAppend(l2[..j], l2[j + 1..]);
      assert Combined([x]) == x.entries by { assert [x][..0] == []; }
    }
  }

  /** The grouped rows depend only on which postings there are, not on their order. */
  lemma GroupingIgnoresOrder(ps: seq<Posting>, qs: seq<Posting>)
    requires multiset(ps) == multiset(qs)
    ensures Grouping(ps) == Grouping(qs)
  {
    forall a ensures a in Accounts(ps) <==> a in Accounts(qs) {
      AccountsMembership(ps, a);
      AccountsMembership(qs, a);
      assert forall p :: p in ps <==> p in qs by {
        forall p ensures p in ps <==> p in qs {
          assert p in ps <==> p in multiset(ps);
          assert p in qs <==> p in multiset(qs);
        }
      }
    }
    forall a | a in Accounts(ps) ensures Grouping(ps)[a] == Grouping(qs)[a] {
      SumPermutation(ps, qs, DebitIn(a));
      SumPermutation(ps, qs, CreditIn(a));
    }
  }

  /** Reordering the ledgers, or the entries within them, changes no per-account sum. */
  lemma AggregateIgnoresOrder(l1: seq<LedgerFile>, l2: seq<LedgerFile>)
    requires multiset(Combined(l1)) == multiset(Combined(l2))
    ensures Aggregate(l1) == Aggregate(l2)
    ensures (l1 == [] <==> l2 == []) ==> AggregateBalances(l1) == AggregateBalances(l2)
  {
    var ps, qs := Combined(l1), Combined(l2);
    assert ps == [] <==> qs == [] by {
      assert |ps| == |multiset(ps)| && |qs| == |multiset(qs)|;
    }
    if ps != [] {
      GroupingIgnoresOrder(ps, qs);
    }
  }

  /** In particular, shuffling the list of ledger files changes nothing. */
  lemma AggregateIgnoresLedgerOrder(l1: seq<LedgerFile>, l2: seq<LedgerFile>)
    requires multiset(l1) == multiset(l2)
    ensures Aggregate(l1) == Aggregate(l2)
    ensures AggregateBalances(l1) == AggregateBalances(l2)
  {
    CombinedIgnoresLedgerOrder(l1, l2);
    assert |l1| == |multiset(l1)| && |l2| == |multiset(l2)|;
    AggregateIgnoresOrder(l1, l2);
  }

  /** The seed file `Cash debit 10, Equity credit 10` aggregates to one row per account, each
      with its net of debits minus credits. */
  lemma SeedFileNets()
    ensures var t := Aggregate([LedgerFile("sample.csv", [Posting("Cash", 10.0, 0.0), Posting("Equity", 0.0, 10.0)])]);
            t.Grouped? && t.rows.Keys == {"Cash", "Equity"}
            && t.rows["Cash"] == AccountBalance(10.0, 0.0, 10.0)
            && t.rows["Equity"] == AccountBalance(0.0, 10.0, -10.0)
  {
    var ps := [Posting("Cash", 10.0, 0.0), Posting("Equity", 0.0, 10.0)];
    var ledgers := [LedgerFile("sample.csv", ps)];
    assert ledgers[..0] == [];
    assert Combined(ledgers) == ps;
    assert ps[..1] == [Posting("Cash", 10.0, 0.0)] && ps[..1][..0] == [];
    assert Accounts(ps) == {"Cash", "Equity"};
    assert Sum(ps, DebitIn("Cash")) == 10.0;
    assert Sum(ps, CreditIn("Cash")) == 0.0;
    assert Sum(ps, DebitIn("Equity")) == 0.0;
    assert Sum(ps, CreditIn("Equity")) == 10.0;
  }
}
