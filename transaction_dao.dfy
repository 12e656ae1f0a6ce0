/** The transaction reader (src/dao/transaction.dao.ts). As for the stock
    reader, the outcome of `findAll` is the parameter `source`. */
module TransactionDao {
  import opened Interfaces

  /** `sub` can be obtained from `s` by deleting elements, keeping the order
      of the rest. */
  predicate IsSubsequence<T(==)>(sub: seq<T>, s: seq<T>)
    decreases |s|
  {
    if sub == [] then true
    else if s == [] then false
    else (sub[0] == s[0] && IsSubsequence(sub[1..], s[1..])) || IsSubsequence(sub, s[1..])
  }

  /** `transactions.filter(transaction => transaction.sku === sku)`. */
  function Filter(txs: seq<Transaction>, sku: string): (r: seq<Transaction>)
    ensures |r| <= |txs|
    ensures forall i | 0 <= i < |r| :: r[i].sku == sku
    ensures r == [] <==> forall i | 0 <= i < |txs| :: txs[i].sku != sku
  {
    if txs == [] then []
    else
      var rest := Filter(txs[1..], sku);
      assert forall i | 1 <= i < |txs| :: txs[i] == txs[1..][i - 1];
      if txs[0].sku == sku then [txs[0]] + rest else rest
  }

  /** `findBySku`: the transactions of the source list for `sku`, or the
      error the read failed with, passed on unchanged. */
  function FindBySku(source: Result<seq<Transaction>>, sku: string): (r: Result<seq<Transaction>>)
    ensures r.Failure? <==> source.Failure?
    ensures r.Failure? ==> r.error == source.error
    ensures r.Success? ==> r.value == Filter(source.value, sku)
  {
    match source
    case Failure(e) => Failure(e)
    case Success(txs) => Success(Filter(txs, sku))
  }

  /** A subsequence holds no more of any element than the sequence it
      comes from. */
  lemma {:induction false} SubsequenceMultiset<T>(sub: seq<T>, s: seq<T>)
    requires IsSubsequence(sub, s)
    ensures multiset(sub) <= multiset(s)
    decreases |s|
  {
    if sub != [] {
      assert s == [s[0]] + s[1..];
      if sub[0] == s[0] && IsSubsequence(sub[1..], s[1..]) {
        SubsequenceMultiset(sub[1..], s[1..]);
        assert sub == [sub[0]] + sub[1..];
      } else {
        SubsequenceMultiset(sub, s[1..]);
      }
    }
  }

  /** The filter keeps the original order: its result is a subsequence of
      the list it filters. */
  lemma {:induction false} FilterIsSubsequence(txs: seq<Transaction>, sku: string)
    ensures IsSubsequence(Filter(txs, sku), txs)
    decreases |txs|
  {
    if txs != [] {
      FilterIsSubsequence(txs[1..], sku);
      var r := Filter(txs, sku);
      if txs[0].sku == sku {
        assert r[0] == txs[0] && r[1..] == Filter(txs[1..], sku);
      } else if r != [] {
        assert r == Filter(txs[1..], sku);
      }
    }
  }

  /** The filter keeps every occurrence of a matching transaction. */
  lemma {:induction false} FilterKeepsAllMatches(txs: seq<Transaction>, sku: string, t: Transaction)
    requires t.sku == sku
    ensures multiset(Filter(txs, sku))[t] == multiset(txs)[t]
    decreases |txs|
  {
    if txs != [] {
      FilterKeepsAllMatches(txs[1..], sku, t);
      assert txs == [txs[0]] + txs[1..];
    }
  }

  /** The filter's result is the ONLY subsequence of `txs` that holds
      transactions for `sku` alone and every occurrence of each of them:
      together with FilterIsSubsequence and FilterKeepsAllMatches, this
      characterises `findBySku` independently of how it is computed. */
  lemma {:induction false} FilterUnique(r: seq<Transaction>, txs: seq<Transaction>, sku: string)
    requires IsSubsequence(r, txs)
    requires forall i | 0 <= i < |r| :: r[i].sku == sku
    requires forall t: Transaction | t.sku == sku :: multiset(r)[t] == multiset(txs)[t]
    ensures r == Filter(txs, sku)
    decreases |txs|
  {
    if txs == [] {
      assert r == [];
    } else {
      var x, rest := txs[0], txs[1..];
      assert txs == [x] + rest;
      if x.sku != sku {
        assert r == [] || r[0] != x;
        assert IsSubsequence(r, rest);
        forall t: Transaction | t.sku == sku
          ensures multiset(r)[t] == multiset(rest)[t]
        {
          assert t != x;
        }
        FilterUnique(r, rest, sku);
      } else if r != [] && r[0] == x && IsSubsequence(r[1..], rest) {
        assert r == [x] + r[1..];
        forall i | 0 <= i < |r[1..]|
          ensures r[1..][i].sku == sku
        {
          assert r[1..][i] == r[i + 1];
        }
        forall t: Transaction | t.sku == sku
          ensures multiset(r[1..])[t] == multiset(rest)[t]
        {
          assert multiset(r)[t] == multiset(txs)[t];
        }
        FilterUnique(r[1..], rest, sku);
      } else {
        assert multiset(r)[x] == multiset(txs)[x];
        assert IsSubsequence(r, rest);
        SubsequenceMultiset(r, rest);
        assert false;
      }
    }
  }

  /** Filtering twice by the same SKU gives what filtering once gave. */
  lemma {:induction false} FilterIdempotent(txs: seq<Transaction>, sku: string)
    ensures Filter(Filter(txs, sku), sku) == Filter(txs, sku)
    decreases |txs|
  {
    if txs != [] {
      FilterIdempotent(txs[1..], sku);
      var rest := Filter(txs[1..], sku);
      if txs[0].sku == sku {
        assert ([txs[0]] + rest)[1..] == rest;
      }
    }
  }

  /** Filtering a concatenation filters each part. */
  lemma {:induction false} FilterAppend(a: seq<Transaction>, b: seq<Transaction>, sku: string)
    ensures Filter(a + b, sku) == Filter(a, sku) + Filter(b, sku)
    decreases |a|
  {
    if a != [] {
      FilterAppend(a[1..], b, sku);
      assert (a + b)[1..] == a[1..] + b;
    } else {
      assert a + b == b;
    }
  }

  /** The reader passes a failed read on with its own error, where the stock
      reader replaces it with a fixed one. */
  lemma FailurePassesThrough(e: Error, sku: string)
    ensures FindBySku(Failure(e), sku) == Failure(e)
  {
  }

  /** The test fixtures: 'trans-sku-1' gives the first record alone, an
      unknown SKU gives the empty list, and a failed read keeps its message. */
  lemma FixtureLookups()
    ensures FindBySku(Success([Transaction("trans-sku-1", Order, 20), Transaction("trans-sku-2", Refund, 10)]), "trans-sku-1")
              == Success([Transaction("trans-sku-1", Order, 20)])
    ensures FindBySku(Success([Transaction("trans-sku-1", Order, 20), Transaction("trans-sku-2", Refund, 10)]), "non-existent-sku")
              == Success([])
    ensures FindBySku(Failure(Error("File read error")), "trans-sku-1") == Failure(Error("File read error"))
  {
    var txs := [Transaction("trans-sku-1", Order, 20), Transaction("trans-sku-2", Refund, 10)];
    assert txs[1..][0].sku != "trans-sku-1";
    assert Filter(txs[1..], "trans-sku-1") == [];
    assert Filter(txs, "trans-sku-1") == [txs[0]] + [];
    assert [txs[0]] + [] == [Transaction("trans-sku-1", Order, 20)];
    assert txs[0].sku != "non-existent-sku" && txs[1].sku != "non-existent-sku";
  }
}
