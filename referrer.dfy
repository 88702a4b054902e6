/** Classification of a referrer into (platform, domain) for `POST /api/stats/track-referrer`,
    and the per-domain counter it feeds. `new URL(referrer).hostname` is an oracle: the parsed
    hostname, or None when the URL constructor throws. */
module Referrer {
  import opened Common
  import opened Text

  datatype Source = Source(platform: string, domain: string)

  const Direct: Source := Source("Direct/Unknown", "direct")

  /** `hostname.replace(/^www\./, '')`: one leading "www." is removed. */
  function StripWww(host: string): (r: string)
    ensures StartsWith(host, "www.") ==> host == "www." + r
    ensures !StartsWith(host, "www.") ==> r == host
  {
    if StartsWith(host, "www.") then host[4..] else host
  }

  /** The if/else chain over the hostname, in the order the server tests it. */
  function ClassifyHost(hostname: string): Source {
    if Contains(hostname, "messenger.com") then Source("Messenger", "messenger.com")
    else if Contains(hostname, "facebook.com") then Source("Facebook", "facebook.com")
    else if Contains(hostname, "instagram.com") then Source("Instagram", "instagram.com")
    else if Contains(hostname, "tiktok.com") then Source("TikTok", "tiktok.com")
    else if Contains(hostname, "line.me") then Source("LINE", "line.me")
    else if Contains(hostname, "google.com") then Source("Google", "google.com")
    else Source("Other", hostname)
  }

  /** The known platforms as a table: each keyword is also the domain recorded for it. */
  const Known: seq<Source> := [
    Source("Messenger", "messenger.com"), Source("Facebook", "facebook.com"),
    Source("Instagram", "instagram.com"), Source("TikTok", "tiktok.com"),
    Source("LINE", "line.me"), Source("Google", "google.com")]

  /** Reference reading of the chain: the first table entry whose domain the hostname contains. */
  function FirstMatch(table: seq<Source>, hostname: string): (r: Source)
    ensures r in table || r == Source("Other", hostname)
    ensures r in table ==> Contains(hostname, r.domain)
    ensures r == Source("Other", hostname) && Source("Other", hostname) !in table ==>
      forall k :: 0 <= k < |table| ==> !Contains(hostname, table[k].domain)
  {
    if table == [] then Source("Other", hostname)
    else if Contains(hostname, table[0].domain) then table[0]
    else FirstMatch(table[1..], hostname)
  }

  /** The route's decision: falsy or "direct" referrers, and unparsable URLs, count as direct. */
  function Classify(referrer: Option<string>, parsedHost: Option<string>): Source {
    if Falsy(referrer) || referrer.value == "direct" then Direct
    else
      match parsedHost
      case None => Direct
      case Some(h) => ClassifyHost(StripWww(h))
  }

  lemma {:induction false} ChainIsFirstMatch(hostname: string)
    ensures ClassifyHost(hostname) == FirstMatch(Known, hostname)
  {
    var other := Source("Other", hostname);
    var t5 := Known[5..];
    assert t5 == [Source("Google", "google.com")] && t5[1..] == [];
    assert FirstMatch(t5, hostname) == if Contains(hostname, "google.com") then t5[0] else other;
    var t4 := Known[4..];
    assert t4[0] == Source("LINE", "line.me") && t4[1..] == t5;
    assert FirstMatch(t4, hostname) == if Contains(hostname, "line.me") then t4[0] else FirstMatch(t5, hostname);
    var t3 := Known[3..];
    assert t3[0] == Source("TikTok", "tiktok.com") && t3[1..] == t4;
    assert FirstMatch(t3, hostname) == if Contains(hostname, "tiktok.com") then t3[0] else FirstMatch(t4, hostname);
    var t2 := Known[2..];
    assert t2[0] == Source("Instagram", "instagram.com") && t2[1..] == t3;
    assert FirstMatch(t2, hostname) == if Contains(hostname, "instagram.com") then t2[0] else FirstMatch(t3, hostname);
    var t1 := Known[1..];
    assert t1[0] == Source("Facebook", "facebook.com") && t1[1..] == t2;
    assert FirstMatch(t1, hostname) == if Contains(hostname, "facebook.com") then t1[0] else FirstMatch(t2, hostname);
    assert Known[0] == Source("Messenger", "messenger.com") && Known[1..] == t1;
    assert FirstMatch(Known, hostname) == if Contains(hostname, "messenger.com") then Known[0] else FirstMatch(t1, hostname);
  }

  /** The order matters: a hostname naming both Messenger and Facebook counts as Messenger. */
  lemma MessengerBeforeFacebook(hostname: string)
    requires Contains(hostname, "messenger.com") && Contains(hostname, "facebook.com")
    ensures ClassifyHost(hostname) == Source("Messenger", "messenger.com")
  {
  }

  /** A hostname that names no known platform is recorded under its own name as "Other",
      and only such a hostname is. */
  lemma {:induction false} OtherIffUnknown(hostname: string)
    ensures ClassifyHost(hostname).platform == "Other" <==>
      forall k :: 0 <= k < |Known| ==> !Contains(hostname, Known[k].domain)
    ensures ClassifyHost(hostname).platform == "Other" ==> ClassifyHost(hostname).domain == hostname
  {
    ChainIsFirstMatch(hostname);
    var r := FirstMatch(Known, hostname);
    if r.platform == "Other" {
      assert r !in Known;
    } else {
      assert r in Known;
      var k :| 0 <= k < |Known| && Known[k] == r;
      assert Contains(hostname, Known[k].domain);
    }
  }

  /** Every referrer ends up as direct, as a known platform whose keyword the hostname contains,
      or as the hostname itself with any leading "www." removed. */
  lemma {:induction false} ClassifyOutcomes(referrer: Option<string>, parsedHost: Option<string>)
    ensures var s := Classify(referrer, parsedHost);
      s == Direct
      || (parsedHost.Some? && s in Known && Contains(StripWww(parsedHost.value), s.domain))
      || (parsedHost.Some? && s == Source("Other", StripWww(parsedHost.value)))
    ensures Falsy(referrer) || referrer == Some("direct") || parsedHost.None? ==> Classify(referrer, parsedHost) == Direct
  {
    if !Falsy(referrer) && referrer.value != "direct" && parsedHost.Some? {
      ChainIsFirstMatch(StripWww(parsedHost.value));
    }
  }

  datatype ReferrerStat = ReferrerStat(platform: string, count: nat)

  /** The upsert: the domain's count rises by one; its platform is written only when it is inserted. */
  function Record(stats: map<string, ReferrerStat>, s: Source): (r: map<string, ReferrerStat>)
    ensures r.Keys == stats.Keys + {s.domain}
    ensures s.domain in stats ==> r[s.domain] == stats[s.domain].(count := stats[s.domain].count + 1)
    ensures s.domain !in stats ==> r[s.domain] == ReferrerStat(s.platform, 1)
    ensures forall d :: d in stats && d != s.domain ==> r[d] == stats[d]
  {
    if s.domain in stats then stats[s.domain := stats[s.domain].(count := stats[s.domain].count + 1)]
    else stats[s.domain := ReferrerStat(s.platform, 1)]
  }
}
