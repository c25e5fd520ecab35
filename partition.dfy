/** The partition table: which console domain and which federation endpoint
    belong to each AWS partition, and the lookup from a region to them. The
    SDK's STS endpoint resolver, which classifies a region into a partition,
    is a parameter of the lookup. */
module Partition {
  import opened Types

  datatype PartitionUrls = PartitionUrls(consoleDomain: string, federationUrl: string)

  const PartitionTable: map<string, PartitionUrls> := map[
    "aws"        := PartitionUrls("console.aws.amazon.com", "https://signin.aws.amazon.com/federation"),
    "aws-cn"     := PartitionUrls("console.amazonaws.cn", "https://signin.amazonaws.cn/federation"),
    "aws-us-gov" := PartitionUrls("console.amazonaws-us-gov.com", "https://signin.amazonaws-us-gov.com/federation")
  ]

  /** The four results of ResolveRegionPartition. */
  datatype RegionPartition = RegionPartition(partitionId: string, consoleDomain: string, federationUrl: string, found: bool)

  /** The partition a region belongs to, as the STS endpoint resolver reports
      it; None stands for the resolver returning an error. */
  type EndpointResolver = string -> Option<string>

  function ResolveRegionPartition(region: string, resolveEndpoint: EndpointResolver): (r: RegionPartition)
    // the partition falls back to the commercial one when the resolver fails
    ensures resolveEndpoint(region).None? ==>
      r == RegionPartition("aws", "console.aws.amazon.com", "https://signin.aws.amazon.com/federation", true)
    // a classified partition with a table entry yields exactly that entry
    ensures resolveEndpoint(region).Some? && resolveEndpoint(region).value in PartitionTable ==>
      var p := resolveEndpoint(region).value;
      r == RegionPartition(p, PartitionTable[p].consoleDomain, PartitionTable[p].federationUrl, true)
    // a classified partition without one is reported as not found, with empty strings
    ensures resolveEndpoint(region).Some? && resolveEndpoint(region).value !in PartitionTable ==>
      r == RegionPartition("", "", "", false)
    ensures r.found ==> r.partitionId in {"aws", "aws-cn", "aws-us-gov"}
    ensures r.found ==> PartitionTable[r.partitionId] == PartitionUrls(r.consoleDomain, r.federationUrl)
  {
    var partition := match resolveEndpoint(region) case Some(p) => p case None => "aws";
    if partition in PartitionTable then
      RegionPartition(partition, PartitionTable[partition].consoleDomain, PartitionTable[partition].federationUrl, true)
    else
      RegionPartition("", "", "", false)
  }

  predicate StartsWith(s: string, prefix: string) {
    |prefix| <= |s| && s[..|prefix|] == prefix
  }

  predicate EndsWith(s: string, suffix: string) {
    |suffix| <= |s| && s[|s| - |suffix|..] == suffix
  }

  /** Every federation endpoint is an https signin host ending in /federation. */
  lemma FederationUrlShape(p: string)
    requires p in PartitionTable
    ensures StartsWith(PartitionTable[p].federationUrl, "https://signin.")
    ensures EndsWith(PartitionTable[p].federationUrl, "/federation")
  {
    if p == "aws" {
      assert StartsWith("https://signin.aws.amazon.com/federation", "https://signin.");
      assert EndsWith("https://signin.aws.amazon.com/federation", "/federation");
    } else if p == "aws-cn" {
      assert StartsWith("https://signin.amazonaws.cn/federation", "https://signin.");
      assert EndsWith("https://signin.amazonaws.cn/federation", "/federation");
    } else {
      assert p == "aws-us-gov";
      assert StartsWith("https://signin.amazonaws-us-gov.com/federation", "https://signin.");
      assert EndsWith("https://signin.amazonaws-us-gov.com/federation", "/federation");
    }
  }

  /** Distinct partitions never share a console domain or a federation endpoint. */
  lemma PartitionUrlsDistinct(p: string, q: string)
    requires p in PartitionTable && q in PartitionTable && p != q
    ensures PartitionTable[p].consoleDomain != PartitionTable[q].consoleDomain
    ensures PartitionTable[p].federationUrl != PartitionTable[q].federationUrl
  {
  }
}
