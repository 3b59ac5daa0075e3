/**
 * The backend's shared state and its route handlers. The three event logs
 * and the Usage collection stand for the document store, `verificationCodes`
 * for the process-wide code object.
 */
module Server {
  import opened Wrappers
  import opened Events
  import opened Ledger
  import opened Analytics
  import opened Codes

  /** Replies of the three logging routes: 400 or 200. */
  datatype StreamReply = StreamMissingParameters | StreamLogged(earnedNGN: int)
  datatype LogReply = MissingParameters | Logged

  class Backend {
    const rates: Rates
    var streamLogs: seq<StreamLog>
    var downloadLogs: seq<DownloadLog>
    var viewLogs: seq<ViewLog>
    var usage: seq<Usage>
    var verificationCodes: Store

    /**
     * The ledger invariant: one Usage document per provider, each provider's
     * balance equal to the earnings of its logged streams, and the summary
     * total equal to the earnings of all logged streams.
     */
    ghost predicate Valid()
      reads this
    {
      && UniqueProviders(usage)
      && (forall p :: Balance(usage, p) == StreamEarnings(streamLogs, p))
      && Total(usage) == SumEarned(streamLogs)
    }

    constructor (rates: Rates)
      ensures Valid() && this.rates == rates
      ensures streamLogs == [] && downloadLogs == [] && viewLogs == [] && usage == []
      ensures verificationCodes == map[]
    {
      this.rates := rates;
      streamLogs, downloadLogs, viewLogs, usage := [], [], [], [];
      verificationCodes := map[];
    }

    /** POST /api/log-stream: store the record, then credit its provider. */
    method LogStream(req: StreamRequest) returns (reply: StreamReply)
      requires Valid()
      modifies this`streamLogs, this`usage
      ensures Valid()
      ensures reply.StreamLogged? <==> Given(req.videoId) && Given(req.provider)
      ensures reply.StreamLogged? ==>
        && reply.earnedNGN == FinalEarned(req, rates)
        && streamLogs == old(streamLogs) + [StreamRecord(req, rates).value]
        && usage == Increment(old(usage), req.provider.value, reply.earnedNGN)
        && forall p :: Balance(usage, p) == Balance(old(usage), p) + (if p == req.provider.value then reply.earnedNGN else 0)
      ensures reply == StreamMissingParameters ==> streamLogs == old(streamLogs) && usage == old(usage)
    {
      var record := StreamRecord(req, rates);
      if record.None? {
        return StreamMissingParameters;
      }
      var log := record.value;
      var finalEarned := log.earnedNGN;
      forall p ensures StreamEarnings(streamLogs + [log], p) == StreamEarnings(streamLogs, p) + (if p == log.provider then finalEarned else 0)
                    && Balance(Increment(usage, log.provider, finalEarned), p) == Balance(usage, p) + (if p == log.provider then finalEarned else 0)
      {
        StreamEarningsAppend(streamLogs, log, p);
        IncrementBalance(usage, log.provider, finalEarned, p);
      }
      SumEarnedAppend(streamLogs, log);
      IncrementTotal(usage, log.provider, finalEarned);
      IncrementProviders(usage, log.provider, finalEarned);
      streamLogs := streamLogs + [log];
      usage := Increment(usage, log.provider, finalEarned);
      reply := StreamLogged(finalEarned);
    }

    /** POST /api/log-download: store the record; the ledger is not touched. */
    method LogDownload(req: DownloadRequest) returns (reply: LogReply)
      requires Valid()
      modifies this`downloadLogs
      ensures Valid()
      ensures reply == Logged <==> Given(req.videoId)
      ensures usage == old(usage) && streamLogs == old(streamLogs)
      ensures downloadLogs == if reply == Logged then old(downloadLogs) + [DownloadRecord(req).value] else old(downloadLogs)
    {
      var record := DownloadRecord(req);
      if record.None? {
        return MissingParameters;
      }
      downloadLogs := downloadLogs + [record.value];
      reply := Logged;
    }

    /** POST /api/log-view: store the record; the ledger is not touched. */
    method LogView(req: ViewRequest) returns (reply: LogReply)
      requires Valid()
      modifies this`viewLogs
      ensures Valid()
      ensures reply == Logged <==> Given(req.videoId) && Given(req.provider)
      ensures usage == old(usage) && streamLogs == old(streamLogs)
      ensures viewLogs == if reply == Logged then old(viewLogs) + [ViewRecord(req).value] else old(viewLogs)
    {
      var record := ViewRecord(req);
      if record.None? {
        return MissingParameters;
      }
      viewLogs := viewLogs + [record.value];
      reply := Logged;
    }

    /** GET /api/summary: the counts are the log lengths, the earnings those of all streams. */
    method GetSummary() returns (s: Summary)
      requires Valid()
      ensures s.views == |viewLogs| && s.streams == |streamLogs| && s.downloads == |downloadLogs|
      ensures s.earnings == Total(usage) && s.earnings == SumEarned(streamLogs)
    {
      s := SummaryOf(viewLogs, streamLogs, downloadLogs, usage);
    }

    /** GET /api/analytics: each provider's earnings are its ledger balance plus its download earnings. */
    method GetAnalytics() returns (d: Dashboard)
      requires Valid()
      ensures d.airtel == ProviderStats(streamLogs, downloadLogs, "Airtel")
      ensures d.mtn == ProviderStats(streamLogs, downloadLogs, "MTN")
      ensures d.glo == ProviderStats(streamLogs, downloadLogs, "Glo")
      ensures d.mobile9 == ProviderStats(streamLogs, downloadLogs, "9mobile")
      ensures d.spectra == ProviderStats(streamLogs, downloadLogs, "Spectranet")
      ensures forall p :: ProviderStats(streamLogs, downloadLogs, p).earnings
                            == Balance(usage, p) + DownloadEarnings(downloadLogs, p)
    {
      d := Dashboard(
        ProviderStats(streamLogs, downloadLogs, "Airtel"),
        ProviderStats(streamLogs, downloadLogs, "MTN"),
        ProviderStats(streamLogs, downloadLogs, "Glo"),
        ProviderStats(streamLogs, downloadLogs, "9mobile"),
        ProviderStats(streamLogs, downloadLogs, "Spectranet"));
    }

    /** GET /api/withdraw/:provider: the balance is the provider's stream earnings, 0 if it has none. */
    method ProviderBalance(provider: string) returns (balance: int)
      requires Valid()
      ensures balance == StreamEarnings(streamLogs, provider)
      ensures (forall i :: 0 <= i < |streamLogs| ==> streamLogs[i].provider != provider) ==> balance == 0
    {
      balance := match Find(usage, provider) case Some(e) => e case None => 0;
      if forall i :: 0 <= i < |streamLogs| ==> streamLogs[i].provider != provider {
        NoStreamsNoEarnings(streamLogs, provider);
      }
    }

    /** POST /api/send-verification-email, with the mail outcome as `delivered`. */
    method SendVerificationEmail(email: Option<string>, code: Option<string>, now: int, delivered: bool)
      returns (reply: Reply)
      modifies this`verificationCodes
      ensures (reply, verificationCodes) == IssueStep(old(verificationCodes), email, code, now, delivered)
    {
      if !Given(email) || !Given(code) {
        return BadRequest;
      }
      verificationCodes := verificationCodes[email.value := CodeRecord(code.value, now)];
      reply := if delivered then Sent else SendFailed;
    }

    /** POST /api/send-withdraw-email, with the mail outcome as `delivered`. */
    method SendWithdrawEmail(email: Option<string>, code: Option<string>, now: int, delivered: bool)
      returns (reply: Reply)
      modifies this`verificationCodes
      ensures (reply, verificationCodes) == WithdrawStep(old(verificationCodes), email, code, now, delivered)
      ensures email.Some? && email.value !in PrototypeMembers ==>
        (reply, verificationCodes) == WithdrawStepAsWritten(old(verificationCodes), email, code, now, delivered)
    {
      if email.Some? && email.value !in PrototypeMembers {
        AsWrittenAgreesOffPrototype(verificationCodes, email, code, now, delivered);
      }
      if email.None? || email.value !in verificationCodes {
        return BadRequest;
      }
      var record := verificationCodes[email.value];
      if code != Some(record.code) || now - record.createdAt > CodeLifetimeMs {
        return BadRequest;
      }
      if !delivered {
        return SendFailed;
      }
      verificationCodes := verificationCodes - {email.value};
      reply := Sent;
    }
  }

  /** The worked example: 100 s and 10 MB at rates 10 and 5 earn 1050, which becomes MTN's balance. */
  method StreamScenario() returns (reply: StreamReply, balance: int)
    ensures reply == StreamLogged(1050) && balance == 1050
  {
    var server := new Backend(Rates(10, 5));
    reply := server.LogStream(StreamRequest(Some("v1"), None, None, Some("MTN"), Some(100), Some(10), None));
    assert server.streamLogs == [StreamLog("v1", None, None, 100, "MTN", 10, 1050)];
    balance := server.ProviderBalance("MTN");
  }

  /** Issue then redeem at once: the first withdrawal is sent and clears the record, a replay is refused. */
  method CodeScenario() returns (first: Reply, replay: Reply)
    ensures first == Sent && replay == BadRequest
  {
    var server := new Backend(Rates(10, 5));
    var issued := server.SendVerificationEmail(Some("a@x.com"), Some("1234"), 1000, true);
    first := server.SendWithdrawEmail(Some("a@x.com"), Some("1234"), 1000, true);
    replay := server.SendWithdrawEmail(Some("a@x.com"), Some("1234"), 1001, true);
  }

  /** A withdrawal with no code ever issued is refused. */
  method UnissuedCodeScenario() returns (reply: Reply)
    ensures reply == BadRequest
  {
    var server := new Backend(Rates(10, 5));
    reply := server.SendWithdrawEmail(Some("a@x.com"), Some("9999"), 0, true);
  }
}
