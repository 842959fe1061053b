/** Money is conserved: per currency, the transactions add up to the completed intents. */
module Conservation {
  import opened Lifecycle
  import opened Ledger
  import opened Invariants

  ghost function Sum<K>(amounts: map<K, int>): int {
    if amounts == map[] then 0
    else
      var k :| k in amounts;
      amounts[k] + Sum(amounts - {k})
  }

  /** The order of summation does not matter. */
  lemma {:induction false} SumTakeOut<K>(amounts: map<K, int>, k: K)
    requires k in amounts
    ensures Sum(amounts) == amounts[k] + Sum(amounts - {k})
    decreases |amounts|
  {
    var j :| j in amounts && Sum(amounts) == amounts[j] + Sum(amounts - {j});
    if j != k {
      SumTakeOut(amounts - {j}, k);
      SumTakeOut(amounts - {k}, j);
      assert amounts - {j} - {k} == amounts - {k} - {j};
    }
  }

  /** Two tables whose rows pair up one to one with equal amounts have equal sums. */
  lemma {:induction false} SumOfPaired<K, L>(a: map<K, int>, b: map<L, int>, partner: map<K, L>)
    requires partner.Keys == a.Keys && partner.Values == b.Keys
    requires forall k :: k in a ==> b[partner[k]] == a[k]
    requires forall j, k :: j in partner && k in partner && partner[j] == partner[k] ==> j == k
    ensures Sum(a) == Sum(b)
    decreases |a|
  {
    if a == map[] {
      assert partner.Values == {};
      assert b == map[];
    } else {
      var k :| k in a;
      var l := partner[k];
      SumTakeOut(a, k);
      SumTakeOut(b, l);
      var rest := partner - {k};
      forall m | m in b && m != l
        ensures m in rest.Values
      {
        assert m in partner.Values;
        var j :| j in partner && partner[j] == m;
        assert rest[j] == m;
      }
      assert rest.Values == (b - {l}).Keys;
      SumOfPaired(a - {k}, b - {l}, rest);
    }
  }

  function Settled(db: Db, currency: string): map<PaymentId, int> {
    map p | p in db.transactions && db.transactions[p].currency == currency :: db.transactions[p].amount
  }

  function Completed(db: Db, currency: string): map<IntentId, int> {
    map i | i in db.intents && db.intents[i].status == COMPLETED && db.intents[i].currency == currency ::
      db.intents[i].amount
  }

  /** The intent each settled payment names. */
  function Partner(db: Db, currency: string): map<PaymentId, IntentId> {
    map p | p in db.transactions && db.transactions[p].currency == currency :: db.transactions[p].intent
  }

  lemma PaymentNamesIntent(db: Db, currency: string, p: PaymentId)
    requires p in Partner(db, currency) && Paid(db, Partner(db, currency)[p])
    ensures var i := Partner(db, currency)[p];
      i in Completed(db, currency) && Completed(db, currency)[i] == Settled(db, currency)[p]
  {
  }

  lemma IntentIsNamed(db: Db, currency: string, i: IntentId)
    requires i in Completed(db, currency) && Paid(db, i)
    ensures i in Partner(db, currency).Values
  {
    var p :| p in db.transactions && db.transactions[p].intent == i;
    assert Partner(db, currency)[p] == i;
  }

  lemma OnePaymentEach(db: Db, currency: string, p: PaymentId, q: PaymentId)
    requires p in Partner(db, currency) && q in Partner(db, currency)
    requires Partner(db, currency)[p] == Partner(db, currency)[q] && Paid(db, Partner(db, currency)[p])
    ensures p == q
  {
  }

  /** With the ledger in order, the totals of transactions and completed intents agree in every currency: each settled
      payment names its own completed intent, for the same amount, and each completed intent is named. */
  lemma LedgerBalances(env: Env, db: Db, currency: string)
    requires LedgerOk(env, db)
    ensures Sum(Settled(db, currency)) == Sum(Completed(db, currency))
  {
    var partner := Partner(db, currency);
    forall p | p in partner
      ensures partner[p] in Completed(db, currency) && Completed(db, currency)[partner[p]] == Settled(db, currency)[p]
    {
      PaymentNamesIntent(db, currency, p);
    }
    forall i | i in Completed(db, currency)
      ensures i in partner.Values
    {
      IntentIsNamed(db, currency, i);
    }
    forall p, q | p in partner && q in partner && partner[p] == partner[q]
      ensures p == q
    {
      OnePaymentEach(db, currency, p, q);
    }
    assert partner.Values == Completed(db, currency).Keys && partner.Keys == Settled(db, currency).Keys;
    SumOfPaired(Settled(db, currency), Completed(db, currency), partner);
  }
}
