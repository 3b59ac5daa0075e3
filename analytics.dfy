/**
 * The read-only folds behind GET /api/summary and GET /api/analytics:
 * a provider filter over each log (the `find({provider: name})` queries)
 * followed by sums (the `reduce` calls).
 */
module Analytics {
  import opened Wrappers
  import opened Events
  import Ledger

  /** StreamLog.find({provider: p}), in log order. */
  function StreamsOf(logs: seq<StreamLog>, p: string): (r: seq<StreamLog>)
    ensures |r| <= |logs|
    ensures forall l :: l in r <==> l in logs && l.provider == p
  {
    if logs == [] then []
    else (if logs[0].provider == p then [logs[0]] else []) + StreamsOf(logs[1..], p)
  }

  /** DownloadLog.find({provider: p}), in log order; a download without a provider matches no name. */
  function DownloadsOf(logs: seq<DownloadLog>, p: string): (r: seq<DownloadLog>)
    ensures |r| <= |logs|
    ensures forall d :: d in r <==> d in logs && d.provider == Some(p)
  {
    if logs == [] then []
    else (if logs[0].provider == Some(p) then [logs[0]] else []) + DownloadsOf(logs[1..], p)
  }

  /** The stream filter keeps every matching record as often as the log holds it, and nothing else. */
  lemma {:induction false} StreamsOfCounts(logs: seq<StreamLog>, p: string)
    ensures forall l :: multiset(StreamsOf(logs, p))[l] == if l.provider == p then multiset(logs)[l] else 0
  {
    if logs != [] {
      assert logs == [logs[0]] + logs[1..];
      StreamsOfCounts(logs[1..], p);
    }
  }

  /** The download filter keeps every matching record as often as the log holds it, and nothing else. */
  lemma {:induction false} DownloadsOfCounts(logs: seq<DownloadLog>, p: string)
    ensures forall d :: multiset(DownloadsOf(logs, p))[d] == if d.provider == Some(p) then multiset(logs)[d] else 0
  {
    if logs != [] {
      assert logs == [logs[0]] + logs[1..];
      DownloadsOfCounts(logs[1..], p);
    }
  }

  function SumSeconds(logs: seq<StreamLog>): int {
    if logs == [] then 0 else logs[0].seconds + SumSeconds(logs[1..])
  }

  function SumDataMB(logs: seq<StreamLog>): int {
    if logs == [] then 0 else logs[0].dataUsedMB + SumDataMB(logs[1..])
  }

  function SumEarned(logs: seq<StreamLog>): int {
    if logs == [] then 0 else logs[0].earnedNGN + SumEarned(logs[1..])
  }

  function SumNgn(logs: seq<DownloadLog>): int {
    if logs == [] then 0 else logs[0].ngn + SumNgn(logs[1..])
  }

  /** StreamLog.distinct("userId", {provider: p}): the user ids present on that provider's streams. */
  function UserIds(logs: seq<StreamLog>, p: string): (r: set<string>)
    ensures |r| <= |StreamsOf(logs, p)|
    ensures forall u :: u in r <==> exists l :: l in logs && l.provider == p && l.userId == Some(u)
  {
    if logs == [] then {}
    else
      var rest := UserIds(logs[1..], p);
      var here: set<string> := if logs[0].provider == p && logs[0].userId.Some? then {logs[0].userId.value} else {};
      assert |here + rest| <= |here| + |rest|;
      here + rest
  }

  /** Stream earnings of one provider: what its ledger balance must equal. */
  function StreamEarnings(logs: seq<StreamLog>, p: string): int {
    SumEarned(StreamsOf(logs, p))
  }

  /** Watched seconds of one provider. */
  function StreamSeconds(logs: seq<StreamLog>, p: string): int {
    SumSeconds(StreamsOf(logs, p))
  }

  /** Megabytes streamed for one provider. */
  function StreamDataMB(logs: seq<StreamLog>, p: string): int {
    SumDataMB(StreamsOf(logs, p))
  }

  /** Download earnings of one provider. */
  function DownloadEarnings(logs: seq<DownloadLog>, p: string): int {
    SumNgn(DownloadsOf(logs, p))
  }

  /** One provider's dashboard entry; hours are reported as raw seconds (see README). */
  datatype Stats = Stats(users: nat, watchSeconds: int, data: int, downloads: nat, earnings: int)

  /** providerStats(name): each figure is the fold of that provider's matching records. */
  function ProviderStats(streams: seq<StreamLog>, downloads: seq<DownloadLog>, name: string): (r: Stats)
    ensures r.users == |UserIds(streams, name)| <= |StreamsOf(streams, name)| <= |streams|
    ensures r.watchSeconds == StreamSeconds(streams, name) && r.data == StreamDataMB(streams, name)
    ensures r.downloads == |DownloadsOf(downloads, name)| <= |downloads|
    ensures r.earnings == StreamEarnings(streams, name) + DownloadEarnings(downloads, name)
  {
    var logs := StreamsOf(streams, name);
    var mine := DownloadsOf(downloads, name);
    Stats(|UserIds(streams, name)|, SumSeconds(logs), SumDataMB(logs), |mine|,
          SumEarned(logs) + SumNgn(mine))
  }

  /** The response of GET /api/analytics: the five hard-coded providers. */
  datatype Dashboard = Dashboard(airtel: Stats, mtn: Stats, glo: Stats, mobile9: Stats, spectra: Stats)

  /** The response of GET /api/summary. */
  datatype Summary = Summary(views: nat, streams: nat, downloads: nat, earnings: int)

  /** Counts are the log lengths; earnings add up every Usage document. */
  function SummaryOf(views: seq<ViewLog>, streams: seq<StreamLog>, downloads: seq<DownloadLog>,
                     usage: seq<Ledger.Usage>): Summary
  {
    Summary(|views|, |streams|, |downloads|, Ledger.Total(usage))
  }

  // Folds over a log that grows by one record at the end.

  lemma {:induction false} StreamsOfAppend(logs: seq<StreamLog>, l: StreamLog, p: string)
    ensures StreamsOf(logs + [l], p) == StreamsOf(logs, p) + (if l.provider == p then [l] else [])
  {
    if logs == [] {
      assert logs + [l] == [l];
    } else {
      assert (logs + [l])[1..] == logs[1..] + [l];
      StreamsOfAppend(logs[1..], l, p);
    }
  }

  lemma {:induction false} DownloadsOfAppend(logs: seq<DownloadLog>, d: DownloadLog, p: string)
    ensures DownloadsOf(logs + [d], p) == DownloadsOf(logs, p) + (if d.provider == Some(p) then [d] else [])
  {
    if logs == [] {
      assert logs + [d] == [d];
    } else {
      assert (logs + [d])[1..] == logs[1..] + [d];
      DownloadsOfAppend(logs[1..], d, p);
    }
  }

  lemma {:induction false} SumEarnedAppend(logs: seq<StreamLog>, l: StreamLog)
    ensures SumEarned(logs + [l]) == SumEarned(logs) + l.earnedNGN
  {
    if logs == [] {
      assert logs + [l] == [l];
    } else {
      assert (logs + [l])[1..] == logs[1..] + [l];
      SumEarnedAppend(logs[1..], l);
    }
  }

  lemma {:induction false} SumSecondsAppend(logs: seq<StreamLog>, l: StreamLog)
    ensures SumSeconds(logs + [l]) == SumSeconds(logs) + l.seconds
  {
    if logs == [] {
      assert logs + [l] == [l];
    } else {
      assert (logs + [l])[1..] == logs[1..] + [l];
      SumSecondsAppend(logs[1..], l);
    }
  }

  lemma {:induction false} SumDataMBAppend(logs: seq<StreamLog>, l: StreamLog)
    ensures SumDataMB(logs + [l]) == SumDataMB(logs) + l.dataUsedMB
  {
    if logs == [] {
      assert logs + [l] == [l];
    } else {
      assert (logs + [l])[1..] == logs[1..] + [l];
      SumDataMBAppend(logs[1..], l);
    }
  }

  lemma {:induction false} SumNgnAppend(logs: seq<DownloadLog>, d: DownloadLog)
    ensures SumNgn(logs + [d]) == SumNgn(logs) + d.ngn
  {
    if logs == [] {
      assert logs + [d] == [d];
    } else {
      assert (logs + [d])[1..] == logs[1..] + [d];
      SumNgnAppend(logs[1..], d);
    }
  }

  /** Logging a stream adds its amount to its own provider's stream earnings and to no other's. */
  lemma StreamEarningsAppend(logs: seq<StreamLog>, l: StreamLog, p: string)
    ensures StreamEarnings(logs + [l], p) == StreamEarnings(logs, p) + (if l.provider == p then l.earnedNGN else 0)
  {
    StreamsOfAppend(logs, l, p);
    if l.provider == p {
      SumEarnedAppend(StreamsOf(logs, p), l);
    } else {
      assert StreamsOf(logs, p) + [] == StreamsOf(logs, p);
    }
  }

  /** A logged stream adds its user id, when it has one, to its own provider's users. */
  lemma {:induction false} UserIdsAppend(logs: seq<StreamLog>, l: StreamLog, p: string)
    ensures UserIds(logs + [l], p) == UserIds(logs, p) + (if l.provider == p && l.userId.Some? then {l.userId.value} else {})
  {
    if logs == [] {
      assert logs + [l] == [l];
    } else {
      assert (logs + [l])[1..] == logs[1..] + [l];
      UserIdsAppend(logs[1..], l, p);
    }
  }

  /**
   * Logging a stream changes only its own provider's dashboard entry: its
   * seconds, megabytes and amount are added, its user id joins the users,
   * and the download figures stay.
   */
  lemma ProviderStatsAfterStream(streams: seq<StreamLog>, downloads: seq<DownloadLog>, l: StreamLog, name: string)
    ensures var before, after := ProviderStats(streams, downloads, name), ProviderStats(streams + [l], downloads, name);
      var mine := l.provider == name;
      && after.watchSeconds == before.watchSeconds + (if mine then l.seconds else 0)
      && after.data == before.data + (if mine then l.dataUsedMB else 0)
      && after.earnings == before.earnings + (if mine then l.earnedNGN else 0)
      && after.downloads == before.downloads
      && UserIds(streams + [l], name) == UserIds(streams, name) + (if mine && l.userId.Some? then {l.userId.value} else {})
  {
    UserIdsAppend(streams, l, name);
    StreamsOfAppend(streams, l, name);
    StreamEarningsAppend(streams, l, name);
    if l.provider == name {
      SumSecondsAppend(StreamsOf(streams, name), l);
      SumDataMBAppend(StreamsOf(streams, name), l);
    } else {
      assert StreamsOf(streams, name) + [] == StreamsOf(streams, name);
    }
  }

  /**
   * Logging a download changes only its provider's download count and
   * earnings; the stream figures of every provider stay.
   */
  lemma ProviderStatsAfterDownload(streams: seq<StreamLog>, downloads: seq<DownloadLog>, d: DownloadLog, name: string)
    ensures var before, after := ProviderStats(streams, downloads, name), ProviderStats(streams, downloads + [d], name);
      var mine := d.provider == Some(name);
      && after.downloads == before.downloads + (if mine then 1 else 0)
      && after.earnings == before.earnings + (if mine then d.ngn else 0)
      && after.users == before.users && after.watchSeconds == before.watchSeconds && after.data == before.data
  {
    DownloadsOfAppend(downloads, d, name);
    DownloadEarningsAppend(downloads, d, name);
  }

  /** Logging a download adds its `ngn` to its provider's download earnings and to no other's. */
  lemma DownloadEarningsAppend(logs: seq<DownloadLog>, d: DownloadLog, p: string)
    ensures DownloadEarnings(logs + [d], p) == DownloadEarnings(logs, p) + (if d.provider == Some(p) then d.ngn else 0)
  {
    DownloadsOfAppend(logs, d, p);
    if d.provider == Some(p) {
      SumNgnAppend(DownloadsOf(logs, p), d);
    } else {
      assert DownloadsOf(logs, p) + [] == DownloadsOf(logs, p);
    }
  }

  /** A provider without streams has no stream earnings. */
  lemma NoStreamsNoEarnings(logs: seq<StreamLog>, p: string)
    requires forall i :: 0 <= i < |logs| ==> logs[i].provider != p
    ensures StreamEarnings(logs, p) == 0
  {
  }
}
