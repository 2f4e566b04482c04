/** The data shaping of tests/test_aws_gcp/test_solution.py: the fixtures
    that rename the combined site outputs for AWS and for GCP, the
    construction of the VM topology the ping tests use (`_create_vms`), and
    the collection of the Gatus URLs the health tests query
    (`_get_gatus_urls`).

    `_create_vms` and `_get_gatus_urls` read each site's `vm` object from
    the Terraform outputs; here that object is given already decoded as a
    `SiteVm`. */
module Topology {
  import opened Base
  import opened Remote

  /** The fields of a site's `vm` output object that the tests read. */
  datatype SiteVm = SiteVm(
    publicVmPrivateIp: string,
    publicVmPublicIp: Option<string>,
    privateVmPrivateIp: string,
    gatusUrl: Option<string>)

  /** `site_outputs[key]["value"]` raises neither `KeyError` nor
      `TypeError`. */
  predicate HasValue(outputs: map<string, Json>, key: string) {
    key in outputs && outputs[key].JObject? && "value" in outputs[key].fields
  }

  /** `{"value": site_outputs[key]["value"]}`. */
  function Rewrapped(outputs: map<string, Json>, key: string): Json
    requires HasValue(outputs, key)
  {
    JObject(map["value" := outputs[key].fields["value"]])
  }

  /** The dict literal `{new: {"value": site_outputs[old]["value"]}, ...}` for
      the pairs `(new, old)` of `renames`, or `None` when a lookup raises. */
  function Reshape(outputs: map<string, Json>, renames: seq<(string, string)>): Option<map<string, Json>>
    decreases |renames|
  {
    if renames == [] then Some(map[])
    else
      var rest := Reshape(outputs, renames[1..]);
      if !HasValue(outputs, renames[0].1) || rest.None? then None
      else Some(rest.value[renames[0].0 := Rewrapped(outputs, renames[0].1)])
  }

  /** The new names of a rename table. */
  function Names(renames: seq<(string, string)>): set<string>
    decreases |renames|
  {
    if renames == [] then {} else {renames[0].0} + Names(renames[1..])
  }

  /** The new names of a rename table are pairwise distinct. */
  predicate DistinctNames(renames: seq<(string, string)>) {
    forall i, j :: 0 <= i < j < |renames| ==> renames[i].0 != renames[j].0
  }

  /** Every source output present: no lookup raises. */
  predicate AllPresent(outputs: map<string, Json>, renames: seq<(string, string)>) {
    forall i :: 0 <= i < |renames| ==> HasValue(outputs, renames[i].1)
  }

  /** A reshaping succeeds exactly when every source output is present. */
  lemma {:induction false} ReshapeSucceeds(outputs: map<string, Json>, renames: seq<(string, string)>)
    ensures Reshape(outputs, renames).Some? <==> AllPresent(outputs, renames)
    decreases |renames|
  {
    if renames != [] {
      ReshapeSucceeds(outputs, renames[1..]);
      assert forall i :: 0 < i < |renames| ==> renames[i] == renames[1..][i - 1];
    }
  }

  /** A reshaping that succeeds holds exactly the new names, each wrapping
      the value of its own source output. */
  lemma {:induction false} ReshapeContents(outputs: map<string, Json>, renames: seq<(string, string)>)
    requires DistinctNames(renames)
    requires Reshape(outputs, renames).Some?
    ensures Reshape(outputs, renames).value.Keys == Names(renames)
    ensures forall i :: 0 <= i < |renames| ==>
              && renames[i].0 in Reshape(outputs, renames).value
              && HasValue(outputs, renames[i].1)
              && Reshape(outputs, renames).value[renames[i].0] == Rewrapped(outputs, renames[i].1)
    decreases |renames|
  {
    if renames != [] {
      var tail := renames[1..];
      assert forall i :: 0 < i < |renames| ==> renames[i] == tail[i - 1];
      ReshapeContents(outputs, tail);
      var r := Reshape(outputs, renames).value;
      forall i | 0 < i < |renames|
        ensures renames[i].0 in r && HasValue(outputs, renames[i].1) && r[renames[i].0] == Rewrapped(outputs, renames[i].1)
      {
        assert renames[i].0 != renames[0].0;
      }
    }
  }

  const AwsRenames: seq<(string, string)> := [
    ("sites", "aws_sites"),
    ("site_config", "aws_site_config"),
    ("all_site_vpcs", "aws_all_site_vpcs"),
    ("ssh_private_key_file", "aws_ssh_private_key_file")]

  const GcpRenames: seq<(string, string)> := [
    ("vm", "gcp_vm"),
    ("vm_vpc_id", "gcp_vm_vpc_id"),
    ("vm_vpc_name", "gcp_vm_vpc_name"),
    ("gcp_vpc_info", "gcp_vpc_info"),
    ("ssh_private_key_file", "gcp_ssh_private_key_file")]

  /** Both fixtures rename to pairwise distinct keys (their lengths
      differ). */
  lemma RenamesDistinct()
    ensures DistinctNames(AwsRenames) && DistinctNames(GcpRenames)
  {
    assert forall i, j :: 0 <= i < j < |AwsRenames| ==> |AwsRenames[i].0| < |AwsRenames[j].0|;
    assert forall i, j :: 0 <= i < j < |GcpRenames| ==> |GcpRenames[i].0| < |GcpRenames[j].0|;
  }

  /** The `aws_site_outputs` fixture. */
  function AwsSiteOutputs(siteOutputs: map<string, Json>): Option<map<string, Json>> {
    Reshape(siteOutputs, AwsRenames)
  }

  /** The `gcp_site_outputs` fixture. */
  function GcpSiteOutputs(siteOutputs: map<string, Json>): Option<map<string, Json>> {
    Reshape(siteOutputs, GcpRenames)
  }

  /** `aws_site_outputs` succeeds exactly when the four AWS outputs are
      present, and then holds exactly the four renamed keys, each wrapping
      the value of its source output. */
  lemma AwsSiteOutputsShape(siteOutputs: map<string, Json>)
    ensures AwsSiteOutputs(siteOutputs).Some? <==>
              && HasValue(siteOutputs, "aws_sites") && HasValue(siteOutputs, "aws_site_config")
              && HasValue(siteOutputs, "aws_all_site_vpcs") && HasValue(siteOutputs, "aws_ssh_private_key_file")
    ensures var r := AwsSiteOutputs(siteOutputs);
            r.Some? ==>
              && r.value.Keys == {"sites", "site_config", "all_site_vpcs", "ssh_private_key_file"}
              && r.value["sites"] == Rewrapped(siteOutputs, "aws_sites")
              && r.value["site_config"] == Rewrapped(siteOutputs, "aws_site_config")
              && r.value["all_site_vpcs"] == Rewrapped(siteOutputs, "aws_all_site_vpcs")
              && r.value["ssh_private_key_file"] == Rewrapped(siteOutputs, "aws_ssh_private_key_file")
  {
    var t := AwsRenames;
    ReshapeSucceeds(siteOutputs, t);
    if AwsSiteOutputs(siteOutputs).Some? {
      RenamesDistinct();
      ReshapeContents(siteOutputs, t);
      assert t[1..][1..][1..][1..] == [];
    }
  }

  /** The same for `gcp_site_outputs` and its five outputs. */
  lemma GcpSiteOutputsShape(siteOutputs: map<string, Json>)
    ensures GcpSiteOutputs(siteOutputs).Some? <==>
              && HasValue(siteOutputs, "gcp_vm") && HasValue(siteOutputs, "gcp_vm_vpc_id")
              && HasValue(siteOutputs, "gcp_vm_vpc_name") && HasValue(siteOutputs, "gcp_vpc_info")
              && HasValue(siteOutputs, "gcp_ssh_private_key_file")
    ensures var r := GcpSiteOutputs(siteOutputs);
            r.Some? ==>
              && r.value.Keys == {"vm", "vm_vpc_id", "vm_vpc_name", "gcp_vpc_info", "ssh_private_key_file"}
              && r.value["vm"] == Rewrapped(siteOutputs, "gcp_vm")
              && r.value["vm_vpc_id"] == Rewrapped(siteOutputs, "gcp_vm_vpc_id")
              && r.value["vm_vpc_name"] == Rewrapped(siteOutputs, "gcp_vm_vpc_name")
              && r.value["gcp_vpc_info"] == Rewrapped(siteOutputs, "gcp_vpc_info")
              && r.value["ssh_private_key_file"] == Rewrapped(siteOutputs, "gcp_ssh_private_key_file")
  {
    var t := GcpRenames;
    ReshapeSucceeds(siteOutputs, t);
    if GcpSiteOutputs(siteOutputs).Some? {
      RenamesDistinct();
      ReshapeContents(siteOutputs, t);
      assert t[1..][1..][1..][1..][1..] == [];
    }
  }

  function BastionKey(site: string): string {
    "aws_" + site + "_bastion"
  }

  function PrivateKey(site: string): string {
    "aws_" + site + "_private"
  }

  const GcpBastionKey: string := "gcp_bastion"
  const GcpPrivateKey: string := "gcp_private"

  /** A VM with a public IP, reached directly. */
  function BastionVm(name: string, vm: SiteVm, sshKey: string): Vm {
    Vm(name, vm.publicVmPrivateIp, sshKey, vm.publicVmPublicIp, None, DefaultUsername)
  }

  /** A VM without a public IP, reached through `bastion`. */
  function PrivateVm(name: string, vm: SiteVm, sshKey: string, bastion: Vm): Vm {
    Vm(name, vm.privateVmPrivateIp, sshKey, None, Some(bastion), DefaultUsername)
  }

  function AwsBastion(site: string, vm: SiteVm, sshKey: string): Vm {
    BastionVm("aws-" + site + "-bastion", vm, sshKey)
  }

  function AwsPrivate(site: string, vm: SiteVm, sshKey: string): Vm {
    PrivateVm("aws-" + site + "-private", vm, sshKey, AwsBastion(site, vm, sshKey))
  }

  function GcpBastion(vm: SiteVm, sshKey: string): Vm {
    BastionVm("gcp-bastion", vm, sshKey)
  }

  function GcpPrivate(vm: SiteVm, sshKey: string): Vm {
    PrivateVm("gcp-private", vm, sshKey, GcpBastion(vm, sshKey))
  }

  /** No two keys of `_create_vms` coincide: the AWS keys determine their
      site, a bastion key is never a private key, and neither is a GCP key. */
  lemma KeysDistinct(s: string, t: string)
    ensures BastionKey(s) == BastionKey(t) ==> s == t
    ensures PrivateKey(s) == PrivateKey(t) ==> s == t
    ensures BastionKey(s) != PrivateKey(t)
    ensures BastionKey(s) !in {GcpBastionKey, GcpPrivateKey} && PrivateKey(s) !in {GcpBastionKey, GcpPrivateKey}
  {
    var bs, bt := BastionKey(s), BastionKey(t);
    if bs == bt {
      assert s == bs[4..|bs| - 8] && t == bt[4..|bt| - 8];
    }
    var ps, pt := PrivateKey(s), PrivateKey(t);
    if ps == pt {
      assert s == ps[4..|ps| - 8] && t == pt[4..|pt| - 8];
    }
    assert bs[|bs| - 1] == 'n' && PrivateKey(t)[|PrivateKey(t)| - 1] == 'e';
    assert bs[0] == 'a' && ps[0] == 'a' && GcpBastionKey[0] == 'g' && GcpPrivateKey[0] == 'g';
  }

  /** The keys `_create_vms` gives the AWS sites in `done`. */
  function AwsKeys(done: set<string>): set<string> {
    (set s | s in done :: BastionKey(s)) + (set s | s in done :: PrivateKey(s))
  }

  /** Adding a site adds its two keys, which were not there before. */
  lemma AwsKeysAdd(done: set<string>, site: string)
    requires site !in done
    ensures AwsKeys(done + {site}) == AwsKeys(done) + {BastionKey(site), PrivateKey(site)}
    ensures BastionKey(site) !in AwsKeys(done) && PrivateKey(site) !in AwsKeys(done)
    ensures BastionKey(site) != PrivateKey(site)
  {
    forall s | s in done
      ensures BastionKey(s) != BastionKey(site) && BastionKey(s) != PrivateKey(site)
      ensures PrivateKey(s) != BastionKey(site) && PrivateKey(s) != PrivateKey(site)
    {
      KeysDistinct(s, site);
      KeysDistinct(site, s);
    }
    KeysDistinct(site, site);
  }

  /** The GCP keys are never AWS keys. */
  lemma GcpKeysApart(done: set<string>)
    ensures GcpBastionKey !in AwsKeys(done) && GcpPrivateKey !in AwsKeys(done)
    ensures forall s :: BastionKey(s) != GcpBastionKey && BastionKey(s) != GcpPrivateKey
    ensures forall s :: PrivateKey(s) != GcpBastionKey && PrivateKey(s) != GcpPrivateKey
  {
    forall s
      ensures BastionKey(s) != GcpBastionKey && BastionKey(s) != GcpPrivateKey
      ensures PrivateKey(s) != GcpBastionKey && PrivateKey(s) != GcpPrivateKey
    {
      KeysDistinct(s, s);
    }
  }

  /** The AWS part of the map is filled in for every site of `done`. */
  predicate AwsVmsBuilt(vms: map<string, Vm>, sites: map<string, SiteVm>, done: set<string>, sshKey: string)
    requires done <= sites.Keys
  {
    forall s :: s in done ==>
      && BastionKey(s) in vms && vms[BastionKey(s)] == AwsBastion(s, sites[s], sshKey)
      && PrivateKey(s) in vms && vms[PrivateKey(s)] == AwsPrivate(s, sites[s], sshKey)
  }

  /** Two fresh keys add two entries. */
  lemma AddTwo<V>(m: map<string, V>, a: string, b: string, va: V, vb: V)
    requires a !in m && b !in m && a != b
    ensures |m[a := va][b := vb]| == |m| + 2
  {
    assert a !in m[b := vb];
  }

  /** One pass of the loop of `_create_vms` keeps the AWS part filled in. */
  lemma AwsVmsBuiltAdd(vms: map<string, Vm>, sites: map<string, SiteVm>, done: set<string>, sshKey: string, site: string)
    requires done <= sites.Keys && site in sites && site !in done
    requires AwsVmsBuilt(vms, sites, done, sshKey)
    ensures AwsVmsBuilt(vms[BastionKey(site) := AwsBastion(site, sites[site], sshKey)]
                           [PrivateKey(site) := AwsPrivate(site, sites[site], sshKey)],
                        sites, done + {site}, sshKey)
  {
    var b, p := BastionKey(site), PrivateKey(site);
    var vms' := vms[b := AwsBastion(site, sites[site], sshKey)][p := AwsPrivate(site, sites[site], sshKey)];
    forall s | s in done + {site}
      ensures BastionKey(s) in vms' && vms'[BastionKey(s)] == AwsBastion(s, sites[s], sshKey)
      ensures PrivateKey(s) in vms' && vms'[PrivateKey(s)] == AwsPrivate(s, sites[s], sshKey)
    {
      KeysDistinct(s, site);
      KeysDistinct(site, s);
    }
  }

  /** One pass of the loop of `_create_vms`: the bastion of `site` and the
      private VM behind it. */
  method AddSite(vms: map<string, Vm>, sites: map<string, SiteVm>, ghost done: set<string>, sshKey: string, site: string)
    returns (vms': map<string, Vm>)
    requires done <= sites.Keys && site in sites && site !in done
    requires vms.Keys == AwsKeys(done)
    requires AwsVmsBuilt(vms, sites, done, sshKey)
    ensures vms'.Keys == AwsKeys(done + {site}) && |vms'| == |vms| + 2
    ensures AwsVmsBuilt(vms', sites, done + {site}, sshKey)
  {
    var vm := sites[site];
    var bastion := BastionVm("aws-" + site + "-bastion", vm, sshKey);
    var private := PrivateVm("aws-" + site + "-private", vm, sshKey, bastion);
    AwsKeysAdd(done, site);
    AddTwo(vms, BastionKey(site), PrivateKey(site), bastion, private);
    AwsVmsBuiltAdd(vms, sites, done, sshKey, site);
    vms' := vms[BastionKey(site) := bastion][PrivateKey(site) := private];
  }

  /** Moving one element from `remaining` to `done` keeps them a partition
      of `all`. */
  lemma MoveOne<T>(done: set<T>, remaining: set<T>, all: set<T>, x: T)
    requires done + remaining == all && done !! remaining && x in remaining
    ensures (done + {x}) + (remaining - {x}) == all && (done + {x}) !! (remaining - {x})
    ensures |remaining - {x}| == |remaining| - 1
  {
  }

  /** The loop of `_create_vms` over the AWS sites. */
  method CreateAwsVms(sshKey: string, sites: map<string, SiteVm>) returns (vms: map<string, Vm>)
    ensures vms.Keys == AwsKeys(sites.Keys) && |vms| == 2 * |sites|
    ensures AwsVmsBuilt(vms, sites, sites.Keys, sshKey)
  {
    vms := map[];
    ghost var done: set<string> := {};
    var remaining := sites.Keys;
    while remaining != {}
      invariant done + remaining == sites.Keys && done !! remaining
      invariant vms.Keys == AwsKeys(done) && |vms| + 2 * |remaining| == 2 * |sites|
      invariant AwsVmsBuilt(vms, sites, done, sshKey)
      decreases remaining
    {
      var site :| site in remaining;
      vms := AddSite(vms, sites, done, sshKey, site);
      MoveOne(done, remaining, sites.Keys, site);
      done, remaining := done + {site}, remaining - {site};
    }
    assert done == sites.Keys;
  }

  /** Adding the GCP pair to the AWS part adds two keys. */
  lemma GcpPairAdded(vms: map<string, Vm>, sites: map<string, SiteVm>, vb: Vm, vp: Vm)
    requires vms.Keys == AwsKeys(sites.Keys) && |vms| == 2 * |sites|
    ensures vms[GcpBastionKey := vb][GcpPrivateKey := vp].Keys == AwsKeys(sites.Keys) + {GcpBastionKey, GcpPrivateKey}
    ensures |vms[GcpBastionKey := vb][GcpPrivateKey := vp]| == 2 * |sites| + 2
  {
    GcpKeysApart(sites.Keys);
    assert GcpBastionKey[4] != GcpPrivateKey[4];
    AddTwo(vms, GcpBastionKey, GcpPrivateKey, vb, vp);
  }

  /** The GCP pair leaves the AWS part as it is. */
  lemma AwsVmsBuiltGcp(vms: map<string, Vm>, sites: map<string, SiteVm>, sshKey: string, vb: Vm, vp: Vm)
    requires AwsVmsBuilt(vms, sites, sites.Keys, sshKey)
    ensures AwsVmsBuilt(vms[GcpBastionKey := vb][GcpPrivateKey := vp], sites, sites.Keys, sshKey)
  {
    GcpKeysApart(sites.Keys);
  }

  /** `_create_vms(aws_site_outputs, gcp_site_outputs)`: for every AWS site a
      bastion and a private VM behind it, and the same pair for GCP, under
      pairwise distinct keys. */
  method CreateVms(awsSshKey: string, gcpSshKey: string, sites: map<string, SiteVm>, gcp: SiteVm)
    returns (vms: map<string, Vm>)
    ensures vms.Keys == AwsKeys(sites.Keys) + {GcpBastionKey, GcpPrivateKey}
    ensures AwsVmsBuilt(vms, sites, sites.Keys, awsSshKey)
    ensures vms[GcpBastionKey] == GcpBastion(gcp, gcpSshKey)
    ensures vms[GcpPrivateKey] == GcpPrivate(gcp, gcpSshKey)
    ensures |vms| == 2 * |sites| + 2
  {
    vms := CreateAwsVms(awsSshKey, sites);
    var gcpBastion := BastionVm("gcp-bastion", gcp, gcpSshKey);
    var gcpPrivate := PrivateVm("gcp-private", gcp, gcpSshKey, gcpBastion);
    GcpPairAdded(vms, sites, gcpBastion, gcpPrivate);
    AwsVmsBuiltGcp(vms, sites, awsSshKey, gcpBastion, gcpPrivate);
    vms := vms[GcpBastionKey := gcpBastion][GcpPrivateKey := gcpPrivate];
  }

  /** Every private VM of the topology reaches `VM.ping` through its bastion,
      and `ping` raises no `ValueError` for it exactly when the site's public
      VM has a public IP. */
  lemma PrivateVmsGoThroughBastion(site: string, vm: SiteVm, sshKey: string)
    ensures !Truthy(AwsPrivate(site, vm, sshKey).publicIp) && AwsPrivate(site, vm, sshKey).bastion.Some?
    ensures Reachable(AwsPrivate(site, vm, sshKey)) <==> Truthy(vm.publicVmPublicIp)
    ensures Reachable(GcpPrivate(vm, sshKey)) <==> Truthy(vm.publicVmPublicIp)
  {
  }

  function GatusKey(site: string): string {
    "aws_" + site
  }

  const GcpGatusKey: string := "gcp"

  lemma GatusKeysDistinct(s: string, t: string)
    ensures GatusKey(s) == GatusKey(t) ==> s == t
    ensures GatusKey(s) != GcpGatusKey
  {
    if GatusKey(s) == GatusKey(t) {
      assert s == GatusKey(s)[4..] && t == GatusKey(t)[4..];
    }
    assert GatusKey(s)[0] == 'a';
  }

  /** `_get_gatus_urls(aws_site_outputs, gcp_site_outputs)`: a key
      `aws_{site}` exactly for the sites whose Gatus URL is truthy, and `gcp`
      exactly when the GCP VM's is, each mapped to that URL. */
  method GetGatusUrls(sites: map<string, SiteVm>, gcp: SiteVm) returns (urls: map<string, string>)
    ensures urls.Keys == (set s | s in sites && Truthy(sites[s].gatusUrl) :: GatusKey(s))
                         + (if Truthy(gcp.gatusUrl) then {GcpGatusKey} else {})
    ensures forall s :: s in sites && Truthy(sites[s].gatusUrl) ==> urls[GatusKey(s)] == sites[s].gatusUrl.value
    ensures GcpGatusKey in urls ==> urls[GcpGatusKey] == gcp.gatusUrl.value
  {
    urls := map[];
    var remaining := sites.Keys;
    while remaining != {}
      invariant remaining <= sites.Keys
      invariant urls.Keys == set s | s in sites && s !in remaining && Truthy(sites[s].gatusUrl) :: GatusKey(s)
      invariant forall s :: s in sites && s !in remaining && Truthy(sites[s].gatusUrl) ==>
                  urls[GatusKey(s)] == sites[s].gatusUrl.value
      decreases remaining
    {
      var site :| site in remaining;
      var gatusUrl := sites[site].gatusUrl;
      forall s | s in sites && s !in remaining ensures GatusKey(s) != GatusKey(site) {
        GatusKeysDistinct(s, site);
      }
      if Truthy(gatusUrl) {
        urls := urls[GatusKey(site) := gatusUrl.value];
      }
      remaining := remaining - {site};
    }
    forall s | s in sites ensures GatusKey(s) != GcpGatusKey {
      GatusKeysDistinct(s, s);
    }
    if Truthy(gcp.gatusUrl) {
      urls := urls[GcpGatusKey := gcp.gatusUrl.value];
    }
  }
}
