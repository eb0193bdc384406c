/** The guards around the pipeline: the log pre-filter that decides whether a
    notification's transaction is fetched, and the reverted-transaction skip. */
module Monitor {
  import opened Wrappers
  import opened Ledger
  import opened Constants
  import opened Parser

  /** A log notification of the launch program. */
  datatype LogNotification = LogNotification(signature: string, logs: seq<string>)

  /** What fetching the notification's transaction produced: the record, no
      record for the signature, or a transport failure. */
  datatype FetchResult = Fetched(tx: Transaction) | NotFound | TransportError

  /** What handling one notification comes to. */
  datatype Outcome =
    | Ignored                                   // the log filter rejected it; nothing is fetched
    | TransactionNotFound
    | FetchFailed
    | Reverted                                  // the transaction failed; it is not parsed
    | Reported(details: Option<CreateInstruction>)

  /** The log filter: both the create-metadata line and the buy line occur
      as whole lines. */
  predicate LogsQualify(logs: seq<string>) {
    PUMPFUN_CREATE_LOG in logs && PUMPFUN_BUY_LOG in logs
  }

  /** `handleTransaction`: a reverted transaction is skipped, any other is parsed. */
  function HandleTransaction(tx: Transaction): (r: Outcome)
    requires WellFormed(tx)
    ensures r == Reverted <==> tx.meta.Some? && tx.meta.value.err
    ensures r.Reported? || r.Reverted?
    ensures !(tx.meta.Some? && tx.meta.value.err) ==> r == Reported(ParseInstructions(tx))
  {
    if tx.meta.Some? && tx.meta.value.err then Reverted
    else Reported(ParseInstructions(tx))
  }

  /** `handleLogs` with the fetch result supplied: the filter runs first and
      the fetch only matters for a qualifying notification. */
  function HandleLogs(notification: LogNotification, fetch: FetchResult): Outcome
    requires fetch.Fetched? ==> WellFormed(fetch.tx)
  {
    if !LogsQualify(notification.logs) then Ignored
    else
      match fetch
      case NotFound => TransactionNotFound
      case TransportError => FetchFailed
      case Fetched(tx) => HandleTransaction(tx)
  }

  /** The sell line is never consulted: adding it anywhere changes nothing. */
  lemma SellLogNeverConsulted(before: seq<string>, after: seq<string>)
    ensures LogsQualify(before + [PUMPFUN_SELL_LOG] + after) == LogsQualify(before + after)
  {
    assert PUMPFUN_SELL_LOG != PUMPFUN_CREATE_LOG && PUMPFUN_SELL_LOG != PUMPFUN_BUY_LOG by {
      assert |PUMPFUN_SELL_LOG| != |PUMPFUN_CREATE_LOG|;
      assert PUMPFUN_SELL_LOG[26] != PUMPFUN_BUY_LOG[26];
    }
    var l, r := before + [PUMPFUN_SELL_LOG] + after, before + after;
    forall x | x != PUMPFUN_SELL_LOG
      ensures x in l <==> x in r
    {
      if x in l {
        var i :| 0 <= i < |l| && l[i] == x;
        if i < |before| { assert r[i] == x; } else { assert r[i - 1] == x; }
      }
      if x in r {
        var i :| 0 <= i < |r| && r[i] == x;
        if i < |before| { assert l[i] == x; } else { assert l[i + 1] == x; }
      }
    }
  }

  /** The filter depends only on which lines occur, not on their order or
      repetition. */
  lemma LogsQualifyByMembership(a: seq<string>, b: seq<string>)
    requires forall x :: x in a <==> x in b
    ensures LogsQualify(a) == LogsQualify(b)
  {
  }

  /** The markers must be whole lines: one line holding both as substrings
      does not qualify. */
  lemma SubstringsDoNotQualify()
    ensures !LogsQualify([PUMPFUN_CREATE_LOG + PUMPFUN_BUY_LOG])
  {
    assert |PUMPFUN_CREATE_LOG + PUMPFUN_BUY_LOG| != |PUMPFUN_CREATE_LOG|;
  }

  /** A notification rejected by the filter is ignored whatever the fetch
      would have returned. */
  lemma FilteredNotificationIgnored(notification: LogNotification, fetch: FetchResult)
    requires fetch.Fetched? ==> WellFormed(fetch.tx)
    requires !LogsQualify(notification.logs)
    ensures HandleLogs(notification, fetch) == Ignored
  {
  }

  /** A reverted transaction reports nothing, even one the parser would accept. */
  lemma RevertedNeverReported(notification: LogNotification, tx: Transaction)
    requires WellFormed(tx)
    requires tx.meta.Some? && tx.meta.value.err
    ensures !HandleLogs(notification, Fetched(tx)).Reported?
  {
  }

  /** A launch record is reported exactly when the logs qualify, the fetch
      returned the transaction, it did not revert and the parser accepts it. */
  lemma ReportedRecordPath(notification: LogNotification, fetch: FetchResult, e: CreateInstruction)
    requires fetch.Fetched? ==> WellFormed(fetch.tx)
    ensures HandleLogs(notification, fetch) == Reported(Some(e)) <==>
      && LogsQualify(notification.logs)
      && fetch.Fetched?
      && !(fetch.tx.meta.Some? && fetch.tx.meta.value.err)
      && ParseInstructions(fetch.tx) == Some(e)
  {
  }
}
