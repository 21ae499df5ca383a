/** The QR-code cache (`generateQrCode`, `getQrCode`). A request names a
    transaction and an amount; the image file name is derived from a hash of
    the two, and an existing file is served as is. Otherwise the pending
    transaction supplies the payout address (and the amount, when the request
    says 0) and a `bitcoincash:` payment URI is rendered into the file. */
module QrCache {
  import opened ApiResponse
  import opened Reconciler

  /** The collaborators the cache calls but whose code is not part of this
      model, as uninterpreted functions:
      - `hash`: the sha512 hex digest of a string (no injectivity assumed);
      - `amountText`: PHP's float-to-string conversion, used in the hash input;
      - `toAmountBCH`: the conversion of an amount to its BCH text;
      - `pluginsUrl`: the public URL of a file under the plugin directory. */
  datatype QrEnv = QrEnv(
    hash: string -> string,
    amountText: Amount -> string,
    toAmountBCH: Amount -> string,
    pluginsUrl: string -> string)

  /** The QR image directory: file name to the payment URI rendered into it. */
  type Files = map<string, string>

  /** The state after a request, and the URL it produced ("" on failure). */
  datatype QrResult = QrResult(files: Files, url: string)

  /** The cache key: the hash of the txid and the amount's text, concatenated
      without a separator. */
  function CacheKey(env: QrEnv, txid: TxId, amount: Amount): string
  {
    env.hash(txid + env.amountText(amount))
  }

  /** The image's file name, relative to the plugin directory. */
  function QrFileName(key: string): string
  {
    "data/temp/qr/" + key + ".png"
  }

  /** The public URL of the image for a request. */
  function QrUrl(env: QrEnv, txid: TxId, amount: Amount): string
  {
    env.pluginsUrl(QrFileName(CacheKey(env, txid, amount)))
  }

  /** The payment URI encoded in the image. */
  function QrPayload(env: QrEnv, address: string, amount: Amount): string
  {
    "bitcoincash:" + address + "?amount=" + env.toAmountBCH(amount)
  }

  /** `generateQrCode(txid, amount)` over the image directory `files` and the
      transactions table `txs`. */
  function GenerateQrCode(env: QrEnv, files: Files, txs: map<TxId, PendingTx>, txid: TxId, amount: Amount): (r: QrResult)
    // Existing images are never removed or overwritten.
    ensures files.Keys <= r.files.Keys
    ensures forall f :: f in files ==> r.files[f] == files[f]
    // At most the request's own file is created.
    ensures r.files.Keys <= files.Keys + {QrFileName(CacheKey(env, txid, amount))}
    // Cache hit: the URL is served and nothing changes.
    ensures QrFileName(CacheKey(env, txid, amount)) in files ==>
              r.files == files && r.url == QrUrl(env, txid, amount)
    // Miss without a pending transaction: "" and no file is created.
    ensures QrFileName(CacheKey(env, txid, amount)) !in files && txid !in txs ==>
              r.files == files && r.url == ""
    // Miss with a pending transaction: the file is rendered with the stored
    // address, and with the stored amount when the request's amount is 0.
    ensures QrFileName(CacheKey(env, txid, amount)) !in files && txid in txs ==>
              var file := QrFileName(CacheKey(env, txid, amount));
              && r.url == QrUrl(env, txid, amount)
              && file in r.files
              && (amount != 0.0 ==> r.files[file] == QrPayload(env, txs[txid].address, amount))
              && (amount == 0.0 ==> r.files[file] == QrPayload(env, txs[txid].address, txs[txid].amount))
  {
    var file := QrFileName(CacheKey(env, txid, amount));
    var url := env.pluginsUrl(file);
    if file in files then QrResult(files, url)
    else if txid !in txs then QrResult(files, "")
    else
      var row := txs[txid];
      var shown := if amount == 0.0 then row.amount else amount;
      QrResult(files[file := QrPayload(env, row.address, shown)], url)
  }

  const QrCodeError: string := "Unable to generate QR Code"

  /** The image directory after a `getQrCode` request, and its response. */
  datatype QrReply = QrReply(files: Files, res: Response)

  /** `getQrCode(txid, am)`: the URL as the single data item, or the error
      "Unable to generate QR Code" when none was produced. */
  function GetQrCode(env: QrEnv, files: Files, txs: map<TxId, PendingTx>, txid: TxId, amount: Amount): (r: QrReply)
    ensures r.files == GenerateQrCode(env, files, txs, txid, amount).files
    // Neither a cached image nor a pending transaction: an error, no data.
    ensures QrFileName(CacheKey(env, txid, amount)) !in files && txid !in txs ==>
              r.res == Response(true, QrCodeError, [])
    // Otherwise the URL is returned as the only data item, unless the URL
    // itself is empty, which the endpoint also reports as an error.
    ensures QrFileName(CacheKey(env, txid, amount)) in files || txid in txs ==>
              if QrUrl(env, txid, amount) != "" then r.res == Response(false, "", [QrUrl(env, txid, amount)])
              else r.res == Response(true, QrCodeError, [])
  {
    var g := GenerateQrCode(env, files, txs, txid, amount);
    var res := if g.url != "" then Fresh.(data := Fresh.data + [g.url]) else SetError(Fresh, QrCodeError);
    QrReply(g.files, res)
  }

  /** A repeated identical request is a cache hit: once a URL has been
      produced, the same request returns the same URL and leaves the image
      directory alone, whatever the transactions table holds by then (the
      row may since have been reconciled and deleted). */
  lemma RepeatedRequestIsHit(env: QrEnv, files: Files, txs: map<TxId, PendingTx>, txs': map<TxId, PendingTx>,
                             txid: TxId, amount: Amount)
    requires GenerateQrCode(env, files, txs, txid, amount).url != ""
    ensures var first := GenerateQrCode(env, files, txs, txid, amount);
            GenerateQrCode(env, first.files, txs', txid, amount) == first
  {
  }

  /** A cache hit does not depend on the transactions table at all. */
  lemma HitIgnoresTransactions(env: QrEnv, files: Files, txs: map<TxId, PendingTx>, txs': map<TxId, PendingTx>,
                               txid: TxId, amount: Amount)
    requires QrFileName(CacheKey(env, txid, amount)) in files
    ensures GenerateQrCode(env, files, txs, txid, amount) == GenerateQrCode(env, files, txs', txid, amount)
  {
  }

  /** A request with amount 0 renders the same payment URI as a request
      with the stored amount would, though it is cached under the key of 0
      (the key is computed before the fallback). */
  lemma ZeroAmountRendersStoredAmount(env: QrEnv, files: Files, txs: map<TxId, PendingTx>, txid: TxId)
    requires txid in txs
    requires QrFileName(CacheKey(env, txid, 0.0)) !in files
    requires QrFileName(CacheKey(env, txid, txs[txid].amount)) !in files
    ensures var zero := GenerateQrCode(env, files, txs, txid, 0.0);
            var stored := GenerateQrCode(env, files, txs, txid, txs[txid].amount);
            zero.files[QrFileName(CacheKey(env, txid, 0.0))]
              == stored.files[QrFileName(CacheKey(env, txid, txs[txid].amount))]
              == QrPayload(env, txs[txid].address, txs[txid].amount)
  {
  }

  /** Because the key concatenates the txid and the amount's text without a
      separator, two different requests can share an image file: whenever
      the text of `a` is "1" followed by the text of `b`, the requests
      `(txid, a)` and `(txid + "1", b)` hash the same string. The second is
      then served the first's cached image, even though it names another
      transaction. */
  lemma {:induction false} ConcatenatedKeysCollide(env: QrEnv, files: Files, txs: map<TxId, PendingTx>,
                                                   txid: TxId, a: Amount, b: Amount)
    requires env.amountText(a) == "1" + env.amountText(b)
    ensures a != b
    ensures CacheKey(env, txid, a) == CacheKey(env, txid + "1", b)
    ensures var first := GenerateQrCode(env, files, txs, txid, a);
            first.url != "" ==>
              GenerateQrCode(env, first.files, txs, txid + "1", b) == first
  {
    assert txid + env.amountText(a) == (txid + "1") + env.amountText(b);
  }
}
