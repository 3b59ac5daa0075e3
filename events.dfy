/**
 * Request bodies of the three logging routes and the event records they
 * store. Monetary amounts, durations and sizes are integers in a
 * fixed-point unit chosen by the deployment; the earning rates are
 * configuration (`Rates`), not constants.
 */
module Events {
  import opened Wrappers

  /** Earnings per watched second and per megabyte for a stream whose amount is not supplied. */
  datatype Rates = Rates(perSecond: int, perMB: int)

  /** A string field passes the source's `!field` test only when it is present and not empty. */
  predicate Given(s: Option<string>) {
    s.Some? && s.value != ""
  }

  /** Body of POST /api/log-stream. */
  datatype StreamRequest = StreamRequest(
    videoId: Option<string>,
    sessionId: Option<string>,
    userId: Option<string>,
    provider: Option<string>,
    seconds: Option<int>,
    dataUsedMB: Option<int>,
    earnedNGN: Option<int>)

  /** A document of the StreamLog collection. */
  datatype StreamLog = StreamLog(
    videoId: string,
    sessionId: Option<string>,
    userId: Option<string>,
    seconds: int,
    provider: string,
    dataUsedMB: int,
    earnedNGN: int)

  /** Body of POST /api/log-download; `provider` is optional here. */
  datatype DownloadRequest = DownloadRequest(
    videoId: Option<string>,
    sessionId: Option<string>,
    userId: Option<string>,
    size: Option<int>,
    ngn: Option<int>,
    provider: Option<string>)

  /** A document of the DownloadLog collection. */
  datatype DownloadLog = DownloadLog(
    videoId: string,
    sessionId: Option<string>,
    userId: Option<string>,
    size: int,
    ngn: int,
    provider: Option<string>)

  /** Body of POST /api/log-view. */
  datatype ViewRequest = ViewRequest(
    videoId: Option<string>,
    userId: Option<string>,
    provider: Option<string>,
    event: Option<string>,
    dataUsedMB: Option<int>,
    earnedNGN: Option<int>)

  /** A document of the View collection. */
  datatype ViewLog = ViewLog(
    videoId: string,
    userId: Option<string>,
    provider: string,
    event: Option<string>,
    dataUsedMB: int,
    earnedNGN: int)

  /** The amount credited for a stream: the supplied one if any, else the rated usage. */
  function FinalEarned(req: StreamRequest, rates: Rates): int {
    match req.earnedNGN
    case Some(e) => e
    case None => req.seconds.GetOr(0) * rates.perSecond + req.dataUsedMB.GetOr(0) * rates.perMB
  }

  /** The record a stream request stores, or None when it is rejected with 400. */
  function StreamRecord(req: StreamRequest, rates: Rates): Option<StreamLog> {
    if !Given(req.videoId) || !Given(req.provider) then None
    else
      Some(StreamLog(req.videoId.value, req.sessionId, req.userId, req.seconds.GetOr(0),
                     req.provider.value, req.dataUsedMB.GetOr(0), FinalEarned(req, rates)))
  }

  /** The record a download request stores, or None when `videoId` is missing. */
  function DownloadRecord(req: DownloadRequest): Option<DownloadLog> {
    if !Given(req.videoId) then None
    else Some(DownloadLog(req.videoId.value, req.sessionId, req.userId, req.size.GetOr(0),
                          req.ngn.GetOr(0), req.provider))
  }

  /** The record a view request stores, or None when `videoId` or `provider` is missing. */
  function ViewRecord(req: ViewRequest): Option<ViewLog> {
    if !Given(req.videoId) || !Given(req.provider) then None
    else Some(ViewLog(req.videoId.value, req.userId, req.provider.value, req.event,
                      req.dataUsedMB.GetOr(0), req.earnedNGN.GetOr(0)))
  }

  /**
   * A stream without a video id or provider (absent or empty) is rejected
   * whatever else it carries, one with both is stored, and absent seconds
   * and megabytes are stored and rated exactly as zeros.
   */
  lemma StreamRecordRules(req: StreamRequest, rates: Rates)
    ensures StreamRecord(req.(videoId := None), rates).None? && StreamRecord(req.(videoId := Some("")), rates).None?
    ensures StreamRecord(req.(provider := None), rates).None? && StreamRecord(req.(provider := Some("")), rates).None?
    ensures Given(req.videoId) && Given(req.provider) ==> StreamRecord(req, rates).Some?
    ensures StreamRecord(req.(seconds := None, dataUsedMB := None), rates)
         == StreamRecord(req.(seconds := Some(0), dataUsedMB := Some(0)), rates)
  {
  }

  /**
   * A download without a video id is rejected, one with a video id is stored
   * with or without a provider, and absent `size` and `ngn` are stored as zeros.
   */
  lemma DownloadRecordRules(req: DownloadRequest)
    ensures DownloadRecord(req.(videoId := None)).None? && DownloadRecord(req.(videoId := Some(""))).None?
    ensures Given(req.videoId) ==> DownloadRecord(req).Some? && DownloadRecord(req.(provider := None)).Some?
    ensures DownloadRecord(req.(size := None, ngn := None)) == DownloadRecord(req.(size := Some(0), ngn := Some(0)))
  {
  }

  /**
   * A view without a video id or provider is rejected, one with both is
   * stored, and absent `dataUsedMB` and `earnedNGN` are stored as zeros.
   */
  lemma ViewRecordRules(req: ViewRequest)
    ensures ViewRecord(req.(videoId := None)).None? && ViewRecord(req.(videoId := Some(""))).None?
    ensures ViewRecord(req.(provider := None)).None? && ViewRecord(req.(provider := Some(""))).None?
    ensures Given(req.videoId) && Given(req.provider) ==> ViewRecord(req).Some?
    ensures ViewRecord(req.(dataUsedMB := None, earnedNGN := None))
         == ViewRecord(req.(dataUsedMB := Some(0), earnedNGN := Some(0)))
  {
  }

  /** A supplied amount is credited as is, whatever the usage figures say. */
  lemma SuppliedAmountWins(req: StreamRequest, rates: Rates, e: int)
    requires req.earnedNGN == Some(e)
    ensures FinalEarned(req, rates) == e
    ensures forall s, d :: FinalEarned(req.(seconds := s, dataUsedMB := d), rates) == e
  {
  }

  /** With non-negative rates and usage, a computed amount is never negative. */
  lemma ComputedAmountNonNegative(req: StreamRequest, rates: Rates)
    requires req.earnedNGN.None?
    requires rates.perSecond >= 0 && rates.perMB >= 0
    requires req.seconds.GetOr(0) >= 0 && req.dataUsedMB.GetOr(0) >= 0
    ensures FinalEarned(req, rates) >= 0
  {
  }

  /** Absent usage figures count as zero: a bare stream with no amount earns nothing. */
  lemma AbsentUsageEarnsNothing(req: StreamRequest, rates: Rates)
    requires req.earnedNGN.None? && req.seconds.None? && req.dataUsedMB.None?
    ensures FinalEarned(req, rates) == 0
  {
  }
}
