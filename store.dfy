/** The in-memory payment store of api/main.go (`data`, a map from timestamp to
    the payments saved at that instant) and the meaning of its summaries. Go map
    iteration order is unspecified, so a summary is defined over a set of keys
    and proved independent of the order in which the keys are visited. */
module Store {
  import opened Wrappers
  import opened Payments

  /** Timestamps are milliseconds since the epoch. */
  type Data = map<int, seq<Payment>>

  /** The bucket filter of every summary loop: strictly after `from` and
      strictly before `to`, each bound applying only when present. */
  predicate InRange(t: int, from: Option<int>, to: Option<int>)
  {
    (from.None? || t > from.value) && (to.None? || t < to.value)
  }

  /** The buckets a summary over `from`/`to` includes. A bucket exactly at
      either bound is never included. */
  function Window(data: Data, from: Option<int>, to: Option<int>): (w: set<int>)
    ensures w <= data.Keys
    ensures from.Some? ==> from.value !in w
    ensures to.Some? ==> to.value !in w
    ensures from.None? && to.None? ==> w == data.Keys
  {
    set t | t in data.Keys && InRange(t, from, to)
  }

  /** `data` with `p` appended to the bucket at `t`, the bucket created when
      absent: the effect of a successful `Save`. */
  function Append(data: Data, t: int, p: Payment): (r: Data)
    ensures r.Keys == data.Keys + {t}
    ensures t in data ==> r[t] == data[t] + [p]
    ensures t !in data ==> r[t] == [p]
    ensures forall k :: k in data && k != t ==> r[k] == data[k]
  {
    data[t := (if t in data then data[t] else []) + [p]]
  }

  /** An arbitrary but fixed element of a non-empty key set. */
  ghost function Pick(keys: set<int>): (k: int)
    requires keys != {}
    ensures k in keys
  {
    NonEmptyHasElement(keys);
    var k :| k in keys; k
  }

  lemma NonEmptyHasElement(keys: set<int>)
    requires keys != {}
    ensures exists k :: k in keys
  {
    if forall k :: k !in keys {
      assert false;
    }
  }

  /** The summary of the buckets at `keys`. */
  ghost function SummaryOver(data: Data, keys: set<int>): PaymentSummary
    requires keys <= data.Keys
    decreases |keys|
  {
    if keys == {} then Empty
    else
      var k := Pick(keys);
      Add(SummaryOver(data, keys - {k}), BucketSummary(data[k]))
  }

  /** The payments of the buckets at `keys`, one bucket after another. */
  ghost function Included(data: Data, keys: set<int>): seq<Payment>
    requires keys <= data.Keys
    decreases |keys|
  {
    if keys == {} then []
    else
      var k := Pick(keys);
      Included(data, keys - {k}) + data[k]
  }

  /** The summary of a range, as every branch of `GetSummary` computes it. */
  ghost function Summarize(data: Data, from: Option<int>, to: Option<int>): PaymentSummary
  {
    SummaryOver(data, Window(data, from, to))
  }

  // ---------------------------------------------------------------------------
  // Order independence

  /** Any bucket of `keys` can be taken out last: the summary does not depend
      on the order in which the buckets are visited. */
  lemma {:induction false} SummaryOverRemove(data: Data, keys: set<int>, k: int)
    requires keys <= data.Keys && k in keys
    ensures SummaryOver(data, keys) == Add(SummaryOver(data, keys - {k}), BucketSummary(data[k]))
    decreases |keys|
  {
    var j := Pick(keys);
    if j != k {
      var rest := keys - {j} - {k};
      assert rest == keys - {k} - {j};
      var bj, bk := BucketSummary(data[j]), BucketSummary(data[k]);
      assert SummaryOver(data, keys) == Add(SummaryOver(data, keys - {j}), bj);
      SummaryOverRemove(data, keys - {j}, k);
      assert SummaryOver(data, keys - {j}) == Add(SummaryOver(data, rest), bk);
      SummaryOverRemove(data, keys - {k}, j);
      assert SummaryOver(data, keys - {k}) == Add(SummaryOver(data, rest), bj);
      AddSwap(SummaryOver(data, rest), bk, bj);
    }
  }

  /** Two accumulation steps commute. */
  lemma AddSwap(a: PaymentSummary, b: PaymentSummary, c: PaymentSummary)
    ensures Add(Add(a, b), c) == Add(Add(a, c), b)
  {
  }

  /** The same for the included payments, as a multiset. */
  lemma {:induction false} IncludedRemove(data: Data, keys: set<int>, k: int)
    requires keys <= data.Keys && k in keys
    ensures multiset(Included(data, keys)) == multiset(Included(data, keys - {k})) + multiset(data[k])
    decreases |keys|
  {
    var j := Pick(keys);
    if j != k {
      IncludedRemove(data, keys - {j}, k);
      IncludedRemove(data, keys - {k}, j);
      assert keys - {j} - {k} == keys - {k} - {j};
    }
  }

  /** The summary only reads the buckets at `keys`. */
  lemma {:induction false} SummaryOverFrame(d1: Data, d2: Data, keys: set<int>)
    requires keys <= d1.Keys && keys <= d2.Keys
    requires forall k :: k in keys ==> d1[k] == d2[k]
    ensures SummaryOver(d1, keys) == SummaryOver(d2, keys)
    decreases |keys|
  {
    if keys != {} {
      SummaryOverFrame(d1, d2, keys - {Pick(keys)});
    }
  }

  /** Adding one more bucket to the visited set. This is the step of every
      summary loop. */
  lemma SummaryOverInsert(data: Data, keys: set<int>, k: int)
    requires keys <= data.Keys && k in data && k !in keys
    ensures SummaryOver(data, keys + {k}) == Add(SummaryOver(data, keys), BucketSummary(data[k]))
  {
    SummaryOverRemove(data, keys + {k}, k);
    assert keys + {k} - {k} == keys;
  }

  // ---------------------------------------------------------------------------
  // Aggregation

  /** The summary of a set of buckets is the accumulation of their payments. */
  lemma {:induction false} SummaryOverIsBucketSummary(data: Data, keys: set<int>)
    requires keys <= data.Keys
    ensures SummaryOver(data, keys) == BucketSummary(Included(data, keys))
    decreases |keys|
  {
    if keys != {} {
      var k := Pick(keys);
      SummaryOverIsBucketSummary(data, keys - {k});
      BucketSummaryAppend(Included(data, keys - {k}), data[k]);
    }
  }

  /** The included payments are exactly the payments of the buckets at `keys`. */
  lemma {:induction false} IncludedMembers(data: Data, keys: set<int>, p: Payment)
    requires keys <= data.Keys
    ensures p in Included(data, keys) <==> exists k :: k in keys && p in data[k]
    decreases |keys|
  {
    if keys != {} {
      var j := Pick(keys);
      IncludedMembers(data, keys - {j}, p);
      if p in data[j] {
        assert j in keys && p in data[j];
      }
    }
  }

  /** What a summary of a range reports: `Default.TotalRequests +
      Fallback.TotalRequests` is the number of payments in the included
      buckets, a payment counts towards `Default` iff `isDefault`, and each
      side's `TotalAmount` is the sum of that side's amounts. */
  lemma Aggregation(data: Data, from: Option<int>, to: Option<int>)
    ensures var s, ps := Summarize(data, from, to), Included(data, Window(data, from, to));
      && Total(s) == |ps|
      && s.default == Tally(Side(ps, true))
      && s.fallback == Tally(Side(ps, false))
      && s.default.totalAmount + s.fallback.totalAmount == AmountOf(ps)
  {
    var w := Window(data, from, to);
    SummaryOverIsBucketSummary(data, w);
    BucketSummaryBySide(Included(data, w));
    BucketTotals(Included(data, w));
  }

  // ---------------------------------------------------------------------------
  // Saving

  /** The bucket at `t` after a save accumulates to the old bucket plus the
      saved payment. */
  lemma SavedBucket(data: Data, t: int, p: Payment)
    ensures BucketSummary(Append(data, t, p)[t])
         == Record(if t in data then BucketSummary(data[t]) else Empty, p)
  {
    var old_bucket := if t in data then data[t] else [];
    var bucket := Append(data, t, p)[t];
    assert bucket == old_bucket + [p];
    assert bucket[..|bucket| - 1] == old_bucket;
  }

  /** A save at `t` adds exactly the saved payment to every range that contains
      `t`, and leaves every other range's summary as it was. */
  lemma SaveSummary(data: Data, t: int, p: Payment, from: Option<int>, to: Option<int>)
    ensures Summarize(Append(data, t, p), from, to)
         == if InRange(t, from, to) then Add(Summarize(data, from, to), Record(Empty, p))
            else Summarize(data, from, to)
  {
    var d' := Append(data, t, p);
    var w, w' := Window(data, from, to), Window(d', from, to);
    var rest := w - {t};
    assert forall k :: k in rest ==> d'[k] == data[k];
    SummaryOverFrame(data, d', rest);
    if InRange(t, from, to) {
      assert w' == rest + {t};
      SummaryOverInsert(d', rest, t);
      SavedBucket(data, t, p);
      if t in data {
        assert w == rest + {t};
        SummaryOverInsert(data, rest, t);
        RecordAdd(SummaryOver(data, rest), BucketSummary(data[t]), p);
      } else {
        assert w == rest;
        RecordAdd(SummaryOver(data, rest), Empty, p);
      }
    } else {
      assert w == rest && w' == rest;
    }
  }

  /** A save grows the number of stored payments by exactly one. */
  lemma SaveCount(data: Data, t: int, p: Payment)
    ensures |Included(Append(data, t, p), Append(data, t, p).Keys)| == |Included(data, data.Keys)| + 1
  {
    var d' := Append(data, t, p);
    SaveSummary(data, t, p, None, None);
    SummaryOverIsBucketSummary(data, data.Keys);
    SummaryOverIsBucketSummary(d', d'.Keys);
    BucketTotals(Included(data, data.Keys));
    BucketTotals(Included(d', d'.Keys));
  }
}
