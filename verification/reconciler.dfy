/** Payment reconciliation (`processClientPayment`): a confirmation for a
    pending transaction credits the post's donation total, the user's tip
    total and history, an optional access pass and the two global tip
    counters, then removes the transaction unless the caller asked to keep it.
    A confirmation for an unknown transaction changes nothing. */
module Reconciler {
  import opened Php
  import opened ApiResponse

  type TxId = string
  type PostId = int
  /** An amount in the plugin's currency; exact, no float rounding. */
  type Amount = real

  /** A row of the plugin's transactions table, created when a tip button is
      rendered. A post id of 0 means the tip is not tied to a post; a non-zero
      `days` asks for an access pass of that many days. */
  datatype PendingTx = PendingTx(sessionId: string, postId: PostId, days: int, address: string, amount: Amount)

  /** One entry of the user's tipped-post history. */
  datatype TippedPost = TippedPost(postId: PostId, amount: Amount)

  /** Everything a reconciliation reads or writes:
      - `transactions`: the pending transactions table, keyed by txid;
      - `postTips`: the `tipAmount` post meta of each post;
      - `userTotal`, `tippedPosts`, `accessPasses`: the tipping user's total,
        history and granted access passes (in days);
      - `tips`, `tipAmount`: the plugin's global counters. */
  datatype Ledger = Ledger(
    transactions: map<TxId, PendingTx>,
    postTips: map<PostId, Amount>,
    userTotal: Amount,
    tippedPosts: seq<TippedPost>,
    accessPasses: seq<int>,
    tips: int,
    tipAmount: Amount)

  /** The ledger after a request, and the response sent back. */
  datatype Outcome = Outcome(ledger: Ledger, res: Response)

  const PaymentNotFound: string := "Payment not found"

  /** A post's donation total as the plugin reads it: a post without a
      `tipAmount` meta counts as 0. */
  function PostTotal(postTips: map<PostId, Amount>, p: PostId): Amount
  {
    if p in postTips then postTips[p] else 0.0
  }

  /** The row survives only when the `keep` value the handler receives is
      identical to boolean true; an absent parameter (null) or `false`
      deletes it. */
  predicate KeepsRow(keep: Value)
  {
    keep == Bool(true)
  }

  /** Adds a tip to a post's `tipAmount` meta; post 0 has none. */
  function AddPostTip(postTips: map<PostId, Amount>, p: PostId, am: Amount): map<PostId, Amount>
  {
    if p != 0 then postTips[p := PostTotal(postTips, p) + am] else postTips
  }

  /** Deletes a row from the transactions table unless it is to be kept. */
  function DropRow(txs: map<TxId, PendingTx>, txid: TxId, keep: Value): map<TxId, PendingTx>
  {
    if KeepsRow(keep) then txs else txs - {txid}
  }

  /** The `(row, ledger) -> ledger` crediting step, for a row that was found. */
  function Credit(l: Ledger, txid: TxId, row: PendingTx, am: Amount, keep: Value): Ledger
  {
    var passes := if row.days != 0 then l.accessPasses + [row.days] else l.accessPasses;
    Ledger(DropRow(l.transactions, txid, keep), AddPostTip(l.postTips, row.postId, am),
           l.userTotal + am, l.tippedPosts + [TippedPost(row.postId, am)],
           passes, l.tips + 1, l.tipAmount + am)
  }

  /** `processClientPayment(txid, am, keep)`. */
  function Reconcile(l: Ledger, txid: TxId, am: Amount, keep: Value): (o: Outcome)
    // Unknown txid: a "Payment not found" error and nothing changes.
    ensures txid !in l.transactions ==>
              && o.ledger == l
              && o.res.error && o.res.errorMsg == PaymentNotFound && o.res.data == []
    // Known txid: success, and each aggregate is credited exactly once.
    ensures txid in l.transactions ==>
              var row := l.transactions[txid];
              && !o.res.error && o.res.data == []
              && (row.postId != 0 ==>
                    PostTotal(o.ledger.postTips, row.postId) == PostTotal(l.postTips, row.postId) + am)
              && (row.postId == 0 ==> o.ledger.postTips == l.postTips)
              && (forall p :: p != row.postId ==>
                    (p in o.ledger.postTips <==> p in l.postTips) &&
                    PostTotal(o.ledger.postTips, p) == PostTotal(l.postTips, p))
              && o.ledger.userTotal == l.userTotal + am
              && o.ledger.tippedPosts == l.tippedPosts + [TippedPost(row.postId, am)]
              && (row.days != 0 ==> o.ledger.accessPasses == l.accessPasses + [row.days])
              && (row.days == 0 ==> o.ledger.accessPasses == l.accessPasses)
              && o.ledger.tips == l.tips + 1
              && o.ledger.tipAmount == l.tipAmount + am
    // Retention: the row is gone unless `keep` is literally true; no other
    // row is touched either way.
    ensures KeepsRow(keep) ==> o.ledger.transactions == l.transactions
    ensures !KeepsRow(keep) ==> txid !in o.ledger.transactions
    ensures forall t :: t != txid ==>
              (t in o.ledger.transactions <==> t in l.transactions) &&
              (t in l.transactions ==> o.ledger.transactions[t] == l.transactions[t])
  {
    if txid in l.transactions then
      Outcome(Credit(l, txid, l.transactions[txid], am, keep), Fresh)
    else
      Outcome(l, SetError(Fresh, PaymentNotFound))
  }

  /** Replay safety: once a confirmation has been processed without `keep`,
      the same txid confirmed again, with any amount and any `keep`, is a
      "Payment not found" error that changes nothing. */
  lemma ReplayIsNoOp(l: Ledger, txid: TxId, am: Amount, keep: Value, am': Amount, keep': Value)
    requires txid in l.transactions
    requires !KeepsRow(keep)
    ensures var first := Reconcile(l, txid, am, keep);
            var second := Reconcile(first.ledger, txid, am', keep');
            && second.ledger == first.ledger
            && second.res.error && second.res.errorMsg == PaymentNotFound
            && second.ledger.tips == l.tips + 1
            && second.ledger.tipAmount == l.tipAmount + am
  {
  }

  /** With `keep` literally true the row stays, so a second confirmation of
      the same txid credits the counters a second time: the flag hands the
      at-most-once guarantee to whoever consumes the kept row. */
  lemma KeptRowCreditsAgain(l: Ledger, txid: TxId, am: Amount, am': Amount, keep': Value)
    requires txid in l.transactions
    ensures var first := Reconcile(l, txid, am, Bool(true));
            var second := Reconcile(first.ledger, txid, am', keep');
            && !second.res.error
            && second.ledger.tips == l.tips + 2
            && second.ledger.tipAmount == l.tipAmount + am + am'
  {
  }

  /** One confirmation request: the `txid`, `am` and `keep` parameters. */
  datatype Delivery = Delivery(txid: TxId, am: Amount, keep: Value)

  /** The ledger after a run of confirmations, and the responses in order. */
  datatype Run = Run(ledger: Ledger, responses: seq<Response>)

  /** Processes confirmations one after another, as the sequential code does. */
  function ReconcileAll(l: Ledger, ds: seq<Delivery>): (r: Run)
    ensures |r.responses| == |ds|
    // Every successful confirmation adds one tip, every failed one none.
    ensures r.ledger.tips == l.tips + |ds| - ErrorCount(r.responses)
    decreases |ds|
  {
    if |ds| == 0 then Run(l, [])
    else
      var o := Reconcile(l, ds[0].txid, ds[0].am, ds[0].keep);
      var rest := ReconcileAll(o.ledger, ds[1..]);
      Run(rest.ledger, [o.res] + rest.responses)
  }

  /** Number of failed responses in a run. */
  function ErrorCount(rs: seq<Response>): nat
  {
    if |rs| == 0 then 0
    else (if rs[0].error then 1 else 0) + ErrorCount(rs[1..])
  }

  /** All deliveries confirm `txid`. */
  predicate DuplicatesOf(ds: seq<Delivery>, txid: TxId)
  {
    forall i :: 0 <= i < |ds| ==> ds[i].txid == txid
  }

  /** Confirmations of a txid that is not pending change nothing and all
      fail with "Payment not found". */
  lemma {:induction false} AbsentDeliveriesChangeNothing(l: Ledger, txid: TxId, ds: seq<Delivery>)
    requires txid !in l.transactions
    requires DuplicatesOf(ds, txid)
    ensures ReconcileAll(l, ds).ledger == l
    ensures ErrorCount(ReconcileAll(l, ds).responses) == |ds|
    ensures forall i :: 0 <= i < |ds| ==> ReconcileAll(l, ds).responses[i].errorMsg == PaymentNotFound
    decreases |ds|
  {
    if |ds| > 0 {
      var o := Reconcile(l, ds[0].txid, ds[0].am, ds[0].keep);
      assert o.ledger == l;
      AbsentDeliveriesChangeNothing(l, txid, ds[1..]);
      var rest := ReconcileAll(l, ds[1..]);
      assert ReconcileAll(l, ds).responses == [o.res] + rest.responses;
    }
  }

  /** Exactly-once crediting: N sequential confirmations of the same pending
      txid, the first of which does not keep the row, leave the ledger exactly
      as the first confirmation alone leaves it (every aggregate credited
      once, with the first delivery's amount), and the other N-1 fail with
      "Payment not found". */
  lemma {:induction false} DuplicateDeliveriesCreditOnce(l: Ledger, txid: TxId, ds: seq<Delivery>)
    requires txid in l.transactions
    requires |ds| > 0
    requires DuplicatesOf(ds, txid)
    requires !KeepsRow(ds[0].keep)
    ensures var r := ReconcileAll(l, ds);
            && r.ledger == Reconcile(l, txid, ds[0].am, ds[0].keep).ledger
            && r.ledger.tips == l.tips + 1
            && r.ledger.tipAmount == l.tipAmount + ds[0].am
            && txid !in r.ledger.transactions
            && !r.responses[0].error
            && ErrorCount(r.responses) == |ds| - 1
  {
    var o := Reconcile(l, txid, ds[0].am, ds[0].keep);
    assert txid !in o.ledger.transactions;
    AbsentDeliveriesChangeNothing(o.ledger, txid, ds[1..]);
    var rest := ReconcileAll(o.ledger, ds[1..]);
    assert ReconcileAll(l, ds) == Run(rest.ledger, [o.res] + rest.responses);
    assert ([o.res] + rest.responses)[1..] == rest.responses;
  }

  /** Crediting two different transactions commutes on the totals: both
      orders leave the same post totals, rows, user total and counters. */
  lemma CreditsCommuteOnTotals(l: Ledger, t1: TxId, r1: PendingTx, a1: Amount, k1: Value,
                               t2: TxId, r2: PendingTx, a2: Amount, k2: Value)
    requires t1 != t2
    ensures var x := Credit(Credit(l, t1, r1, a1, k1), t2, r2, a2, k2);
            var y := Credit(Credit(l, t2, r2, a2, k2), t1, r1, a1, k1);
            && x.postTips == y.postTips
            && x.transactions == y.transactions
            && x.userTotal == y.userTotal
            && x.tips == y.tips
            && x.tipAmount == y.tipAmount
  {
    AddPostTipCommutes(l.postTips, r1.postId, a1, r2.postId, a2);
    if !KeepsRow(k1) && !KeepsRow(k2) {
      assert l.transactions - {t1} - {t2} == l.transactions - {t2} - {t1};
    }
  }

  /** Crediting two transactions in either order records the same history
      entries and access passes, as multisets. */
  lemma CreditsCommuteOnHistory(l: Ledger, t1: TxId, r1: PendingTx, a1: Amount, k1: Value,
                                t2: TxId, r2: PendingTx, a2: Amount, k2: Value)
    ensures var x := Credit(Credit(l, t1, r1, a1, k1), t2, r2, a2, k2);
            var y := Credit(Credit(l, t2, r2, a2, k2), t1, r1, a1, k1);
            && multiset(x.tippedPosts) == multiset(y.tippedPosts)
            && multiset(x.accessPasses) == multiset(y.accessPasses)
  {
    var x := Credit(Credit(l, t1, r1, a1, k1), t2, r2, a2, k2);
    var y := Credit(Credit(l, t2, r2, a2, k2), t1, r1, a1, k1);
    var h1, h2 := TippedPost(r1.postId, a1), TippedPost(r2.postId, a2);
    assert x.tippedPosts == l.tippedPosts + [h1] + [h2];
    assert y.tippedPosts == l.tippedPosts + [h2] + [h1];
  }

  /** Confirmations of two distinct pending transactions commute: both
      orders of arrival leave the same post totals, remaining rows, user
      total and counters, and the history and access passes hold the same
      entries, as multisets. */
  lemma ConfirmationsCommute(l: Ledger, t1: TxId, a1: Amount, k1: Value, t2: TxId, a2: Amount, k2: Value)
    requires t1 != t2
    requires t1 in l.transactions && t2 in l.transactions
    ensures var x := Reconcile(Reconcile(l, t1, a1, k1).ledger, t2, a2, k2).ledger;
            var y := Reconcile(Reconcile(l, t2, a2, k2).ledger, t1, a1, k1).ledger;
            && x.postTips == y.postTips
            && x.transactions == y.transactions
            && x.userTotal == y.userTotal
            && x.tips == y.tips
            && x.tipAmount == y.tipAmount
            && multiset(x.tippedPosts) == multiset(y.tippedPosts)
            && multiset(x.accessPasses) == multiset(y.accessPasses)
  {
    var r1, r2 := l.transactions[t1], l.transactions[t2];
    var x1 := Credit(l, t1, r1, a1, k1);
    var y1 := Credit(l, t2, r2, a2, k2);
    assert x1.transactions[t2] == r2 && y1.transactions[t1] == r1;
    CreditsCommuteOnTotals(l, t1, r1, a1, k1, t2, r2, a2, k2);
    CreditsCommuteOnHistory(l, t1, r1, a1, k1, t2, r2, a2, k2);
  }

  /** Two tips to posts' totals give the same totals in either order. */
  lemma AddPostTipCommutes(m: map<PostId, Amount>, p1: PostId, a1: Amount, p2: PostId, a2: Amount)
    ensures AddPostTip(AddPostTip(m, p1, a1), p2, a2) == AddPostTip(AddPostTip(m, p2, a2), p1, a1)
  {
    if p1 != 0 && p2 != 0 && p1 != p2 {
      assert m[p1 := PostTotal(m, p1) + a1][p2 := PostTotal(m, p2) + a2]
          == m[p2 := PostTotal(m, p2) + a2][p1 := PostTotal(m, p1) + a1];
    }
  }

  /** The sum of the amounts of a run of confirmations. */
  function TotalAmount(ds: seq<Delivery>): Amount
  {
    if |ds| == 0 then 0.0 else ds[0].am + TotalAmount(ds[1..])
  }

  /** Each delivery confirms a different transaction, all pending and all
      tipping post `p`. */
  predicate DistinctTipsFor(l: Ledger, ds: seq<Delivery>, p: PostId)
  {
    && (forall i :: 0 <= i < |ds| ==>
          ds[i].txid in l.transactions && l.transactions[ds[i].txid].postId == p)
    && (forall i, j :: 0 <= i < j < |ds| ==> ds[i].txid != ds[j].txid)
  }

  /** Additive crediting over a whole run: confirming distinct pending
      transactions for one post, in any order and with any `keep`, adds
      exactly the sum of their amounts to the post's total and to
      `tip_amount`, and one to `tips` per confirmation. */
  lemma {:induction false} CreditsAddUp(l: Ledger, ds: seq<Delivery>, p: PostId)
    requires p != 0
    requires DistinctTipsFor(l, ds, p)
    ensures var r := ReconcileAll(l, ds);
            && PostTotal(r.ledger.postTips, p) == PostTotal(l.postTips, p) + TotalAmount(ds)
            && r.ledger.tipAmount == l.tipAmount + TotalAmount(ds)
            && r.ledger.tips == l.tips + |ds|
            && ErrorCount(r.responses) == 0
    decreases |ds|
  {
    if |ds| > 0 {
      var o := Reconcile(l, ds[0].txid, ds[0].am, ds[0].keep);
      var rest := ds[1..];
      forall i | 0 <= i < |rest|
        ensures rest[i].txid in o.ledger.transactions
        ensures o.ledger.transactions[rest[i].txid].postId == p
      {
        assert rest[i] == ds[i + 1];
        assert ds[0].txid != ds[i + 1].txid;
      }
      assert DistinctTipsFor(o.ledger, rest, p);
      CreditsAddUp(o.ledger, rest, p);
      var r := ReconcileAll(o.ledger, rest);
      assert ReconcileAll(l, ds) == Run(r.ledger, [o.res] + r.responses);
      assert ([o.res] + r.responses)[1..] == r.responses;
    }
  }
}
