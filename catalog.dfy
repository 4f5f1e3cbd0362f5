/** The boundary to yt_dlp: the search both variants issue and what it leaves behind. The search
    and download themselves are network I/O and are not modelled; only their outcome is. */
module Catalog {
  import opened Results
  import opened Text
  import opened Disk

  /** What extract_info(query, download=True) gave back. */
  datatype Search =
    | Raised              // extract_info raised an exception
    | NoEntries           // it returned nothing, or a result without 'entries'
    | Entries(count: nat) // a result whose 'entries' list has `count` items

  /** The outcome of one search: its result, and the files the downloader wrote into the
      workspace (possibly some even when the search raised). */
  datatype Fetch = Fetch(search: Search, written: Files)

  /** f"ytsearch{count}:{singer} songs" */
  function SearchQuery(singer: string, count: nat): string {
    "ytsearch" + ShowNat(count) + ":" + singer + " songs"
  }

  /** The query asks the catalog for exactly `count` results about `singer`: the text between
      "ytsearch" and the first ':' reads back as `count`, and the singer's name follows it. */
  lemma QueryRequestsCount(singer: string, count: nat)
    ensures var rest := SearchQuery(singer, count)[8..];
            var k := IndexOf(rest, ':');
            && 0 <= k
            && ParseInt(rest[..k]) == Some(count)
            && rest[k + 1..] == singer + " songs"
  {
    var digits := ShowNat(count);
    var rest := SearchQuery(singer, count)[8..];
    assert rest == digits + ":" + singer + " songs";
    var m := |digits|;
    assert rest[m] == ':';
    forall j | 0 <= j < m
      ensures rest[j] != ':'
    {
      assert rest[j] == digits[j];
    }
    var k := IndexOf(rest, ':');
    assert k == m;
    assert rest[..k] == digits;
    ParseShowNat(count);
  }
}
