/** The QR-code cache and the reconciler share the transactions table: the
    reconciler deletes rows, the cache only reads them, and only on a miss. */
module Interplay {
  import opened Php
  import opened ApiResponse
  import opened Reconciler
  import opened QrCache

  /** An image generated before the transaction was reconciled is still
      served afterwards, with the same response, although the row is gone. */
  lemma QrCodeSurvivesReconciliation(env: QrEnv, files: Files, l: Ledger, txid: TxId, amount: Amount,
                                     am: Amount, keep: Value)
    requires txid in l.transactions
    ensures var before := GetQrCode(env, files, l.transactions, txid, amount);
            var o := Reconcile(l, txid, am, keep);
            var after := GetQrCode(env, before.files, o.ledger.transactions, txid, amount);
            after == before
  {
    var before := GetQrCode(env, files, l.transactions, txid, amount);
    var g := GenerateQrCode(env, files, l.transactions, txid, amount);
    assert QrFileName(CacheKey(env, txid, amount)) in g.files;
  }

  /** Without a cached image, a QR request after the transaction was
      reconciled (and its row deleted) fails and creates no image. */
  lemma QrCodeAfterReconciliationNeedsCache(env: QrEnv, files: Files, l: Ledger, txid: TxId, amount: Amount,
                                            am: Amount, keep: Value)
    requires txid in l.transactions
    requires !KeepsRow(keep)
    requires QrFileName(CacheKey(env, txid, amount)) !in files
    ensures var o := Reconcile(l, txid, am, keep);
            var after := GetQrCode(env, files, o.ledger.transactions, txid, amount);
            after == QrReply(files, Response(true, QrCodeError, []))
  {
  }
}
