// The domain designer: from the disks of a machine template to the devices of a
// libvirt domain and the secrets these devices name.
module Designer {
  import opened Common
  import Naming
  import Sessions

  datatype Rbd = Rbd(monitors: seq<string>, pool: string, image: string, user: string, secretRef: Option<string>)

  // lun is the number as it is printed.
  datatype Iscsi = Iscsi(portal: string, iqn: string, lun: string)

  datatype Volume = Volume(rbd: Option<Rbd>, iscsi: Option<Iscsi>)

  datatype ImageFile = ImageFile(name: string, repoName: string)

  datatype ImageRepo = ImageRepo(name: string, format: string)

  datatype Storage = Storage(claim: Option<string>, imageFile: Option<string>)

  datatype Template = Template(device: string, source: Option<Storage>)

  datatype Host = Host(name: string, port: string)

  // What the cluster answers, and the splitting of a "host:port" address.
  datatype Cluster = Cluster(
    volumes: map<string, Volume>,
    keys: map<string, string>,
    files: map<string, ImageFile>,
    repos: map<string, ImageRepo>,
    split: string -> Option<Host>)

  datatype Secret = Secret(uuid: string, usage: string, value: string)

  datatype Auth = Auth(user: string, uuid: string)

  datatype Source = Source(protocol: string, name: string, hosts: seq<Host>, file: string)

  datatype Disk = Disk(device: string, kind: string, auth: Option<Auth>, source: Option<Source>, driver: string,
      target: string)

  datatype Status = Ok | Error | Panic

  // ---- What the code does with each kind of disk ----

  function Key(c: Cluster, src: Rbd): Option<string> {
    if src.secretRef.Some? && src.secretRef.value in c.keys then Some(c.keys[src.secretRef.value]) else None
  }

  predicate AllSplit(c: Cluster, monitors: seq<string>) {
    forall i :: 0 <= i < |monitors| ==> c.split(monitors[i]).Some?
  }

  function RbdStatus(c: Cluster, src: Rbd): Status {
    if Key(c, src).None? then Error
    else if src.monitors == [] then Panic
    else if AllSplit(c, src.monitors) then Ok else Error
  }

  // The secret is recorded before the monitors are parsed.
  predicate RecordsSecret(c: Cluster, src: Rbd) {
    Key(c, src).Some? && src.monitors != []
  }

  predicate HasRbd(c: Cluster, t: Template) {
    && t.source.Some? && t.source.value.claim.Some? && t.source.value.claim.value in c.volumes
    && c.volumes[t.source.value.claim.value].rbd.Some?
  }

  function RbdOf(c: Cluster, t: Template): Rbd
    requires HasRbd(c, t)
  {
    c.volumes[t.source.value.claim.value].rbd.value
  }

  function ClaimStatus(c: Cluster, claim: string): Status {
    if claim !in c.volumes then Error
    else
      var v := c.volumes[claim];
      if v.rbd.Some? then RbdStatus(c, v.rbd.value)
      else if v.iscsi.Some? && c.split(v.iscsi.value.portal).Some? then Ok
      else Error
  }

  predicate FileFound(c: Cluster, file: string) {
    file in c.files && c.files[file].repoName in c.repos
  }

  // A claim wins over an image file; a missing source is dereferenced.
  function TemplateStatus(c: Cluster, t: Template): Status {
    if t.source.None? then Panic
    else if t.source.value.claim.Some? then ClaimStatus(c, t.source.value.claim.value)
    else if t.source.value.imageFile.Some? && FileFound(c, t.source.value.imageFile.value) then Ok
    else Error
  }

  predicate TemplateRecords(c: Cluster, t: Template) {
    HasRbd(c, t) && RecordsSecret(c, RbdOf(c, t))
  }

  predicate HostsOf(c: Cluster, monitors: seq<string>, hosts: seq<Host>) {
    && |hosts| == |monitors|
    && forall i :: 0 <= i < |monitors| ==> c.split(monitors[i]) == Some(hosts[i])
  }

  predicate RbdDisk(c: Cluster, src: Rbd, d: Disk) {
    && d.kind == "network" && d.auth.Some? && d.auth.value.user == src.user && d.source.Some?
    && d.source.value.protocol == "rbd" && d.source.value.name == src.pool + "/" + src.image
    && HostsOf(c, src.monitors, d.source.value.hosts)
  }

  // The code gives an iSCSI disk the protocol "rbd" as well.
  predicate IscsiDisk(c: Cluster, src: Iscsi, d: Disk) {
    && d.kind == "network" && d.auth.None? && d.source.Some?
    && d.source.value.protocol == "rbd" && d.source.value.name == src.iqn + "/" + src.lun
    && HostsOf(c, [src.portal], d.source.value.hosts)
  }

  predicate FileDisk(c: Cluster, base: string, file: string, d: Disk) {
    && FileFound(c, file) && d.kind == "file" && d.auth.None? && d.source.Some?
    && var f := c.files[file]; var repo := c.repos[f.repoName];
       && d.source.value.file == Naming.DiskPath(base, repo.name, f.name, repo.format)
       && d.driver == repo.format
  }

  // Disk d is what template t asks for.
  predicate Designed(c: Cluster, base: string, t: Template, d: Disk) {
    && d.device == t.device && t.source.Some?
    && if HasRbd(c, t) then RbdDisk(c, RbdOf(c, t), d)
       else if t.source.value.claim.Some? then
         && t.source.value.claim.value in c.volumes
         && c.volumes[t.source.value.claim.value].iscsi.Some?
         && IscsiDisk(c, c.volumes[t.source.value.claim.value].iscsi.value, d)
       else t.source.value.imageFile.Some? && FileDisk(c, base, t.source.value.imageFile.value, d)
  }

  // The same with its place among the devices; only recorded secrets are named.
  predicate Placed(c: Cluster, base: string, t: Template, d: Disk, i: nat) {
    && TemplateStatus(c, t).Ok? && Designed(c, base, t, d) && d.target == DevName(i)
    && (d.auth.Some? <==> TemplateRecords(c, t))
  }

  predicate AllPlaced(c: Cluster, base: string, ts: seq<Template>, disks: seq<Disk>) {
    |disks| <= |ts| && forall i :: 0 <= i < |disks| ==> Placed(c, base, ts[i], disks[i], i)
  }

  // The secrets from m on carry the generator's UUIDs from first on, in order.
  predicate Numbered(secrets: seq<Secret>, m: nat, uuidOf: nat -> string, first: nat) {
    m <= |secrets| && forall k :: m <= k < |secrets| ==> secrets[k].uuid == uuidOf(first + k - m)
  }

  // fmt.Sprintf of "vd%c"; a rune that is no character prints as U+FFFD.
  function Rune(n: nat): char {
    if n < 0xD800 || 0xE000 <= n < 0x11_0000 then n as char else '\U{FFFD}'
  }

  function DevName(i: nat): string { ['v', 'd', Rune(97 + i)] }

  // ---- Disks and secrets ----

  // The secret UUIDs that the disks name, in order.
  function Credentials(disks: seq<Disk>): seq<string> {
    if disks == [] then []
    else
      var d := disks[|disks| - 1];
      Credentials(disks[..|disks| - 1]) + (if d.auth.Some? then [d.auth.value.uuid] else [])
  }

  function Uuids(secrets: seq<Secret>): seq<string> {
    seq(|secrets|, i requires 0 <= i < |secrets| => secrets[i].uuid)
  }

  lemma CredentialsSnoc(disks: seq<Disk>, d: Disk)
    ensures Credentials(disks + [d]) == Credentials(disks) + (if d.auth.Some? then [d.auth.value.uuid] else [])
  {
    assert (disks + [d])[..|disks|] == disks;
  }

  // The disk under construction.
  class DomainDisk {
    var device: string
    var kind: string
    var auth: Option<Auth>
    var source: Option<Source>
    var driver: string
    var target: string

    constructor (device: string)
      ensures Value() == Disk(device, "", None, None, "", "")
    {
      this.device, kind, auth, source, driver, target := device, "", None, None, "", "";
    }

    function Value(): Disk
      reads this
    {
      Disk(device, kind, auth, source, driver, target)
    }
  }

  class DomainDesigner {
    const base: string
    // the UUID generator, and how many it has given out
    const uuidOf: nat -> string
    const uuid: string
    var generated: nat
    var disks: seq<Disk>
    var secrets: seq<Secret>

    constructor (base: string, uuidOf: nat -> string)
      ensures this.base == base && this.uuidOf == uuidOf && disks == [] && secrets == []
      ensures uuid == uuidOf(0) && generated == 1
    {
      this.base, this.uuidOf, uuid, generated, disks, secrets := base, uuidOf, uuidOf(0), 1, [], [];
    }

    method SetDiskConfigRBD(c: Cluster, src: Rbd, disk: DomainDisk) returns (r: Status)
      modifies this`generated, this`secrets, disk
      ensures r == RbdStatus(c, src)
      ensures RecordsSecret(c, src) ==>
                && generated == old(generated) + 1
                && secrets == old(secrets) + [Secret(uuidOf(old(generated)), src.monitors[0], Key(c, src).value)]
      ensures !RecordsSecret(c, src) ==> secrets == old(secrets) && generated == old(generated)
      ensures r.Ok? ==> RbdDisk(c, src, disk.Value()) && disk.auth == Some(Auth(src.user, uuidOf(old(generated))))
      ensures disk.device == old(disk.device)
    {
      disk.kind := "network";
      var key := Key(c, src);
      if key.None? {
        return Error;
      }
      if src.monitors == [] {
        return Panic;
      }
      var uuid := uuidOf(generated);
      generated := generated + 1;
      secrets := secrets + [Secret(uuid, src.monitors[0], key.value)];
      disk.auth := Some(Auth(src.user, uuid));
      disk.source := Some(Source("rbd", src.pool + "/" + src.image, [], ""));
      for i := 0 to |src.monitors|
        invariant secrets == old(secrets) + [Secret(uuid, src.monitors[0], key.value)]
                  && generated == old(generated) + 1
        invariant disk.kind == "network" && disk.auth == Some(Auth(src.user, uuid)) && disk.device == old(disk.device)
        invariant disk.source.Some? && disk.source.value.protocol == "rbd"
        invariant disk.source.value.name == src.pool + "/" + src.image
        invariant HostsOf(c, src.monitors[..i], disk.source.value.hosts)
      {
        var host := c.split(src.monitors[i]);
        if host.None? {
          return Error;
        }
        disk.source := Some(disk.source.value.(hosts := disk.source.value.hosts + [host.value]));
      }
      disk.target := "vda";
      assert src.monitors[..|src.monitors|] == src.monitors;
      return Ok;
    }

    method SetDiskConfigISCSI(c: Cluster, src: Iscsi, disk: DomainDisk) returns (r: Status)
      requires disk.auth.None?
      modifies disk
      ensures r == if c.split(src.portal).Some? then Ok else Error
      ensures r.Ok? ==> IscsiDisk(c, src, disk.Value())
      ensures disk.device == old(disk.device)
    {
      disk.kind := "network";
      disk.source := Some(Source("rbd", src.iqn + "/" + src.lun, [], ""));
      var host := c.split(src.portal);
      if host.None? {
        return Error;
      }
      disk.source := Some(disk.source.value.(hosts := disk.source.value.hosts + [host.value]));
      return Ok;
    }

    method SetDiskConfigImageFile(c: Cluster, file: string, disk: DomainDisk) returns (r: Status)
      requires disk.auth.None?
      modifies disk
      ensures r == if FileFound(c, file) then Ok else Error
      ensures r.Ok? ==> FileDisk(c, base, file, disk.Value())
      ensures disk.device == old(disk.device)
    {
      if file !in c.files {
        return Error;
      }
      var f := c.files[file];
      if f.repoName !in c.repos {
        return Error;
      }
      var repo := c.repos[f.repoName];
      var path := Naming.PathJoin([base, repo.name, Naming.MakeVolName(f.name, repo.format)]);
      disk.kind := "file";
      disk.source := Some(Source("", "", [], path));
      disk.driver := repo.format;
      return Ok;
    }

    method SetDiskConfigPersistentVolume(c: Cluster, claim: string, disk: DomainDisk) returns (r: Status)
      requires disk.auth.None?
      modifies this`generated, this`secrets, disk
      ensures r == ClaimStatus(c, claim)
      ensures disk.device == old(disk.device)
      ensures var records := claim in c.volumes && c.volumes[claim].rbd.Some?
              && RecordsSecret(c, c.volumes[claim].rbd.value);
              && generated == old(generated) + (if records then 1 else 0)
              && |secrets| == |old(secrets)| + (if records then 1 else 0)
              && secrets[..|old(secrets)|] == old(secrets)
              && (records ==> secrets[|old(secrets)|].uuid == uuidOf(old(generated)))
      ensures r.Ok? ==>
                if c.volumes[claim].rbd.Some? then
                  && RbdDisk(c, c.volumes[claim].rbd.value, disk.Value())
                  && disk.auth.value.uuid == uuidOf(old(generated))
                else c.volumes[claim].iscsi.Some? && IscsiDisk(c, c.volumes[claim].iscsi.value, disk.Value())
    {
      if claim !in c.volumes {
        return Error;
      }
      var v := c.volumes[claim];
      if v.rbd.Some? {
        r := SetDiskConfigRBD(c, v.rbd.value, disk);
      } else if v.iscsi.Some? {
        r := SetDiskConfigISCSI(c, v.iscsi.value, disk);
      } else {
        r := Error;
      }
    }

    // One disk: on success it is appended, with the next device name; a secret
    // is recorded for it exactly if it is an RBD disk with a key and monitors.
    method SetDiskConfig(c: Cluster, t: Template) returns (r: Status)
      modifies this`generated, this`secrets, this`disks
      ensures r == TemplateStatus(c, t)
      ensures generated == old(generated) + (if TemplateRecords(c, t) then 1 else 0)
      ensures |secrets| == |old(secrets)| + (if TemplateRecords(c, t) then 1 else 0)
      ensures secrets[..|old(secrets)|] == old(secrets)
      ensures TemplateRecords(c, t) ==> secrets[|old(secrets)|].uuid == uuidOf(old(generated))
      ensures !r.Ok? ==> disks == old(disks)
      ensures r.Ok? ==>
                && |disks| == |old(disks)| + 1 && disks[..|old(disks)|] == old(disks)
                && var d := disks[|old(disks)|];
                   && Placed(c, base, t, d, |old(disks)|)
                   && (d.auth.Some? ==> d.auth.value.uuid == uuidOf(old(generated)))
    {
      var disk := new DomainDisk(t.device);
      if t.source.None? {
        return Panic;
      }
      if t.source.value.claim.Some? {
        r := SetDiskConfigPersistentVolume(c, t.source.value.claim.value, disk);
      } else if t.source.value.imageFile.Some? {
        r := SetDiskConfigImageFile(c, t.source.value.imageFile.value, disk);
      } else {
        r := Error;
      }
      if !r.Ok? {
        return;
      }
      disk.target := DevName(|disks|);
      disks := disks + [disk.Value()];
    }

    // All disks, in order, up to the first that fails. The secrets recorded are
    // those the disks name, in order, and one more exactly if the failing disk
    // had recorded its secret; their UUIDs are the generator's, in order.
    method SetDeviceConfig(c: Cluster, ts: seq<Template>) returns (r: Status)
      modifies this`generated, this`secrets, this`disks
      ensures |disks| <= |ts| && (r.Ok? <==> |disks| == |ts|)
      ensures !r.Ok? ==> TemplateStatus(c, ts[|disks|]) == r
      ensures AllPlaced(c, base, ts, disks)
      ensures |secrets| >= |old(secrets)| && secrets[..|old(secrets)|] == old(secrets)
      ensures generated == old(generated) + |secrets| - |old(secrets)|
      ensures Numbered(secrets, |old(secrets)|, uuidOf, old(generated))
      ensures var recorded := Uuids(secrets)[|old(secrets)|..];
              if r.Ok? || !TemplateRecords(c, ts[|disks|]) then recorded == Credentials(disks)
              else |recorded| == |Credentials(disks)| + 1 && recorded[..|Credentials(disks)|] == Credentials(disks)
    {
      disks := [];
      ghost var m := |secrets|;
      for i := 0 to |ts|
        invariant |disks| == i && m <= |secrets| && secrets[..m] == old(secrets)
        invariant AllPlaced(c, base, ts, disks)
        invariant generated == old(generated) + |secrets| - m
        invariant Numbered(secrets, m, uuidOf, old(generated))
        invariant Uuids(secrets)[m..] == Credentials(disks)
      {
        ghost var before, done := secrets, disks;
        r := SetDiskConfig(c, ts[i]);
        UuidsGrow(before, secrets, m);
        NumberedGrows(before, secrets, m, uuidOf, old(generated));
        if !r.Ok? {
          return;
        }
        DisksGrow(done, disks);
        PlacedGrows(c, base, ts, done, disks);
      }
      return Ok;
    }
  }

  lemma UuidsGrow(before: seq<Secret>, after: seq<Secret>, m: nat)
    requires m <= |before| <= |after| <= |before| + 1 && after[..|before|] == before
    ensures Uuids(after)[m..] == Uuids(before)[m..] + (if |after| > |before| then [after[|before|].uuid] else [])
  {
    assert forall k :: 0 <= k < |before| ==> after[k] == after[..|before|][k];
  }

  lemma NumberedGrows(before: seq<Secret>, after: seq<Secret>, m: nat, uuidOf: nat -> string, first: nat)
    requires Numbered(before, m, uuidOf, first) && |before| <= |after| <= |before| + 1 && after[..|before|] == before
    requires |after| > |before| ==> after[|before|].uuid == uuidOf(first + |before| - m)
    ensures Numbered(after, m, uuidOf, first)
  {
    assert forall k :: 0 <= k < |before| ==> after[k] == after[..|before|][k];
  }

  lemma PlacedGrows(c: Cluster, base: string, ts: seq<Template>, before: seq<Disk>, after: seq<Disk>)
    requires AllPlaced(c, base, ts, before) && |after| == |before| + 1 && after[..|before|] == before
    requires |before| < |ts| && Placed(c, base, ts[|before|], after[|before|], |before|)
    ensures AllPlaced(c, base, ts, after)
  {
    assert forall k :: 0 <= k < |before| ==> after[k] == after[..|before|][k];
  }

  lemma DisksGrow(before: seq<Disk>, after: seq<Disk>)
    requires |after| == |before| + 1 && after[..|before|] == before
    ensures var d := after[|before|];
            Credentials(after) == Credentials(before) + (if d.auth.Some? then [d.auth.value.uuid] else [])
  {
    assert after == before + [after[|before|]];
    CredentialsSnoc(before, after[|before|]);
  }

  // ---- What the correspondence means ----

  // How many disks before disk i name a secret.
  function Rank(disks: seq<Disk>, i: nat): nat
    requires i <= |disks|
  {
    |Credentials(disks[..i])|
  }

  lemma {:induction false} CredentialsPrefix(disks: seq<Disk>, i: nat)
    requires i <= |disks|
    ensures Credentials(disks[..i]) <= Credentials(disks)
  {
    if i == |disks| {
      assert disks[..i] == disks;
    } else {
      CredentialsPrefix(disks[..|disks| - 1], i);
      assert disks[..|disks| - 1][..i] == disks[..i];
    }
  }

  lemma RankStep(disks: seq<Disk>, i: nat)
    requires i < |disks|
    ensures Rank(disks, i + 1) == Rank(disks, i) + (if disks[i].auth.Some? then 1 else 0)
    ensures disks[i].auth.Some? ==>
              Rank(disks, i) < |Credentials(disks)| && Credentials(disks)[Rank(disks, i)] == disks[i].auth.value.uuid
  {
    assert disks[..i + 1] == disks[..i] + [disks[i]];
    CredentialsSnoc(disks[..i], disks[i]);
    CredentialsPrefix(disks, i + 1);
  }

  lemma {:induction false} RankGrows(disks: seq<Disk>, i: nat, j: nat)
    requires i < j <= |disks| && disks[i].auth.Some?
    ensures Rank(disks, i) < Rank(disks, j)
  {
    RankStep(disks, j - 1);
    if i < j - 1 { RankGrows(disks, i, j - 1); }
  }

  // Each secret belongs to a disk.
  lemma {:induction false} RankOnto(disks: seq<Disk>, k: nat) returns (i: nat)
    requires k < |Credentials(disks)|
    ensures i < |disks| && disks[i].auth.Some? && Rank(disks, i) == k
  {
    var n := |disks| - 1;
    if k < |Credentials(disks[..n])| {
      i := RankOnto(disks[..n], k);
      assert disks[..n][..i] == disks[..i];
    } else {
      i := n;
    }
  }

  predicate Names(disks: seq<Disk>, i: nat, k: nat, uuid: string) {
    i < |disks| && disks[i].auth.Some? && Rank(disks, i) == k && disks[i].auth.value.uuid == uuid
  }

  ghost predicate Named(disks: seq<Disk>, k: nat, uuid: string) {
    exists i :: Names(disks, i, k, uuid)
  }

  lemma SecretHasDisk(disks: seq<Disk>, k: nat)
    requires k < |Credentials(disks)|
    ensures Named(disks, k, Credentials(disks)[k])
  {
    var i := RankOnto(disks, k);
    RankStep(disks, i);
    assert Names(disks, i, k, Credentials(disks)[k]);
  }

  // Disks that name a secret and the recorded secrets correspond one to one, in
  // order, with equal UUIDs.
  lemma {:induction false} OneToOneInOrder(disks: seq<Disk>, secrets: seq<Secret>)
    requires Uuids(secrets) == Credentials(disks)
    ensures forall i :: 0 <= i < |disks| && disks[i].auth.Some? ==>
              Rank(disks, i) < |secrets| && secrets[Rank(disks, i)].uuid == disks[i].auth.value.uuid
    ensures forall i, j :: 0 <= i < j < |disks| && disks[i].auth.Some? ==> Rank(disks, i) < Rank(disks, j)
    ensures forall k :: 0 <= k < |secrets| ==> Named(disks, k, secrets[k].uuid)
  {
    forall i | 0 <= i < |disks| && disks[i].auth.Some?
      ensures Rank(disks, i) < |secrets| && secrets[Rank(disks, i)].uuid == disks[i].auth.value.uuid
    {
      RankStep(disks, i);
    }
    forall i, j | 0 <= i < j < |disks| && disks[i].auth.Some? ensures Rank(disks, i) < Rank(disks, j) {
      RankGrows(disks, i, j);
    }
    forall k | 0 <= k < |secrets| ensures Named(disks, k, secrets[k].uuid) {
      SecretHasDisk(disks, k);
      assert Uuids(secrets)[k] == secrets[k].uuid;
    }
  }

  // When the shim creates the domain, every secret that a designed disk names is
  // defined with its value set.
  lemma {:induction false} DiskSecretsReady(s: Sessions.Shim, id: nat, ok: bool, disks: seq<Disk>, i: nat)
    requires Sessions.Reachable(s) && id in s.sessions && Sessions.CreateStep(s, id, ok).Next?
    requires s.sessions[id].secrets == Credentials(disks)
    requires i < |disks| && disks[i].auth.Some?
    ensures disks[i].auth.value.uuid in s.secrets && s.secrets[disks[i].auth.value.uuid]
  {
    RankStep(disks, i);
    Sessions.SecretsReadyAtCreate(s, id, ok, Rank(disks, i));
  }

  // An image disk points into the repository's pool, at the volume that the
  // repository creates for the file, exactly when escaping leaves the
  // repository's name unchanged.
  lemma FileDiskInPool(c: Cluster, base: string, file: string, d: Disk)
    requires FileDisk(c, base, file, d)
    requires var f := c.files[file]; var repo := c.repos[f.repoName];
             f.name != "" && Naming.Plain(repo.name) && Naming.Text.Free(repo.format, '/')
    ensures var f := c.files[file]; var repo := c.repos[f.repoName];
            d.source.value.file == Naming.PoolTarget(base, repo.name) + "/" + Naming.MakeVolName(f.name, repo.format)
            <==> Naming.Escape(repo.name) == repo.name
  {
    var f := c.files[file];
    var repo := c.repos[f.repoName];
    Naming.PathsAgreeExactly(base, repo.name, f.name, repo.format);
  }

  // ---- What can be designed ----

  lemma HostsExist(c: Cluster, monitors: seq<string>)
    ensures AllSplit(c, monitors) <==> exists hosts :: HostsOf(c, monitors, hosts)
  {
    if AllSplit(c, monitors) {
      var hosts := seq(|monitors|, i requires 0 <= i < |monitors| => c.split(monitors[i]).value);
      assert HostsOf(c, monitors, hosts);
    }
  }

  // An RBD volume with a key and monitors: its disk exists exactly if all
  // monitors split.
  lemma RbdExists(c: Cluster, src: Rbd, device: string)
    ensures AllSplit(c, src.monitors) <==> exists d: Disk :: d.device == device && RbdDisk(c, src, d)
  {
    HostsExist(c, src.monitors);
    if hosts :| HostsOf(c, src.monitors, hosts) {
      var source := Source("rbd", src.pool + "/" + src.image, hosts, "");
      var d := Disk(device, "network", Some(Auth(src.user, "")), Some(source), "", "");
      assert d.device == device && RbdDisk(c, src, d);
    }
    if d: Disk :| d.device == device && RbdDisk(c, src, d) { assert HostsOf(c, src.monitors, d.source.value.hosts); }
  }

  lemma IscsiExists(c: Cluster, src: Iscsi, device: string)
    ensures c.split(src.portal).Some? <==> exists d: Disk :: d.device == device && IscsiDisk(c, src, d)
  {
    HostsExist(c, [src.portal]);
    if hosts :| HostsOf(c, [src.portal], hosts) {
      var d := Disk(device, "network", None, Some(Source("rbd", src.iqn + "/" + src.lun, hosts, "")), "", "");
      assert d.device == device && IscsiDisk(c, src, d);
    }
    if d: Disk :| d.device == device && IscsiDisk(c, src, d) {
      assert HostsOf(c, [src.portal], d.source.value.hosts);
    }
    assert AllSplit(c, [src.portal]) <==> c.split([src.portal][0]).Some?;
  }

  lemma FileExists(c: Cluster, base: string, file: string, device: string)
    ensures FileFound(c, file) <==> exists d: Disk :: d.device == device && FileDisk(c, base, file, d)
  {
    if FileFound(c, file) {
      var f := c.files[file];
      var repo := c.repos[f.repoName];
      var path := Naming.DiskPath(base, repo.name, f.name, repo.format);
      var d := Disk(device, "file", None, Some(Source("", "", [], path)), repo.format, "");
      assert d.device == device && FileDisk(c, base, file, d);
    }
  }

  // A template can be configured exactly if some disk is what it asks for and,
  // for an RBD volume, its key is there and it names a monitor. Without a source,
  // or for an RBD volume with a key and no monitor, the code panics.
  lemma ConfiguredExactly(c: Cluster, base: string, t: Template)
    ensures TemplateStatus(c, t).Ok?
       <==> (exists d :: Designed(c, base, t, d)) && (HasRbd(c, t) ==> TemplateRecords(c, t))
    ensures TemplateStatus(c, t).Panic?
       <==> t.source.None? || (HasRbd(c, t) && Key(c, RbdOf(c, t)).Some? && RbdOf(c, t).monitors == [])
  {
    if t.source.None? {
    } else if HasRbd(c, t) {
      RbdExists(c, RbdOf(c, t), t.device);
      if d: Disk :| d.device == t.device && RbdDisk(c, RbdOf(c, t), d) { assert Designed(c, base, t, d); }
    } else if t.source.value.claim.Some? {
      ClaimExists(c, base, t);
    } else if t.source.value.imageFile.Some? {
      FileExists(c, base, t.source.value.imageFile.value, t.device);
      if d: Disk :| d.device == t.device && FileDisk(c, base, t.source.value.imageFile.value, d) {
        assert Designed(c, base, t, d);
      }
    }
  }

  lemma ClaimExists(c: Cluster, base: string, t: Template)
    requires t.source.Some? && t.source.value.claim.Some? && !HasRbd(c, t)
    ensures ClaimStatus(c, t.source.value.claim.value).Ok? <==> exists d :: Designed(c, base, t, d)
  {
    var claim := t.source.value.claim.value;
    if claim in c.volumes && c.volumes[claim].iscsi.Some? {
      IscsiExists(c, c.volumes[claim].iscsi.value, t.device);
      if d: Disk :| d.device == t.device && IscsiDisk(c, c.volumes[claim].iscsi.value, d) {
        assert Designed(c, base, t, d);
      }
    }
  }

  // No character for this device, or the replacement character itself.
  predicate Unprintable(i: nat) {
    var n := 97 + i;
    0xD800 <= n < 0xE000 || n >= 0x11_0000 || n == 0xFFFD
  }

  // Two disks share a target exactly when both positions print the replacement
  // character; the first 26 are "vda" to "vdz", in the order of the alphabet,
  // and no later one is.
  lemma DevNamesExactly(i: nat, j: nat)
    ensures DevName(i) == DevName(j) <==> i == j || (Unprintable(i) && Unprintable(j))
    ensures i < 26 ==> DevName(i) == "vd" + [Naming.LOWER[i]]
    ensures i < 26 <==> 'a' <= DevName(i)[2] <= 'z'
  {
    assert DevName(i) == DevName(j) <==> DevName(i)[2] == DevName(j)[2];
    assert Rune(97 + i) as int == if Unprintable(i) then 0xFFFD else 97 + i;
    assert Rune(97 + j) as int == if Unprintable(j) then 0xFFFD else 97 + j;
  }
}
