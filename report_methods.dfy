/** `ReportMethods`: the "api/v1/reports" endpoint. */
module ReportMethods {
  import opened Wrappers
  import opened ParameterLists
  import opened Http
  import opened Client

  const REPORTS_ENDPOINT := "api/v1/reports"

  function ReportEntries(accountId: string, statusIds: seq<string>, comment: string): seq<Entry> {
    [Entry("account_id", Text(accountId)), Entry("status_ids", Items(statusIds)), Entry("comment", Text(comment))]
  }

  /** `fileReport`: a POST to "api/v1/reports" with the account, the listed statuses and the comment. */
  method FileReport(accountId: string, statusIds: seq<string>, comment: string) returns (request: MastodonRequest)
    ensures request == GetMastodonRequest(REPORTS_ENDPOINT, POST, Some(ReportEntries(accountId, statusIds, comment)))
  {
    var p := new Parameters();
    var _ := p.Append("account_id", Text(accountId));
    var _ := p.Append("status_ids", Items(statusIds));
    var _ := p.Append("comment", Text(comment));
    assert p.entries == ReportEntries(accountId, statusIds, comment);
    request := GetMastodonRequest(REPORTS_ENDPOINT, POST, Some(p.entries));
  }

  /**
   * A report always carries all three parameters, whatever their values (an empty status list
   * or an empty comment included), and each key finds the value given for it.
   */
  lemma {:induction false} ReportCarriesEverything(accountId: string, statusIds: seq<string>, comment: string)
    ensures var entries := ReportEntries(accountId, statusIds, comment);
      && Keys(entries) == ["account_id", "status_ids", "comment"]
      && Lookup(entries, "account_id") == Some(Text(accountId))
      && Lookup(entries, "status_ids") == Some(Items(statusIds))
      && Lookup(entries, "comment") == Some(Text(comment))
  {
    var entries := ReportEntries(accountId, statusIds, comment);
    assert Keys(entries) == ["account_id", "status_ids", "comment"];
    assert Lookup(entries, "account_id") == Some(Text(accountId));
    assert entries[1..][0].key == "status_ids";
  }
}
