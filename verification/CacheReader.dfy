/**
 The boot-time reader: it tries every labelled device, copies the image, and accepts
 only what it has hashed after copying. What devices do is given by the environment.
 */
module CacheReader {
  import opened Prelude
  import opened CacheWriter
  import opened CacheProofs

  /** A candidate device and how each command on it turns out. */
  datatype Device = Device(
    usb: bool, fstype: string, mounts: bool, caches: map<string, Dir>,
    ramfs: bool, copyOk: bool, copied: string, hashOk: bool)

  /** The kernel parameters, absent ones as empty text. */
  datatype Params = Params(enabled: bool, profile: string, sha256: string, partition: string, fetch: string)

  predicate NameChar(c: char) {
    'A' <= c <= 'Z' || 'a' <= c <= 'z' || '0' <= c <= '9' || c == '.' || c == '_' || c == '-'
  }

  predicate ValidName(s: string) { 1 <= |s| <= 32 && forall i :: 0 <= i < |s| ==> NameChar(s[i]) }

  predicate ValidDigest(s: string) {
    |s| == 64 && forall i :: 0 <= i < |s| ==> '0' <= s[i] <= '9' || 'a' <= s[i] <= 'f'
  }

  /** `tr A-F a-f` */
  function LowerHex(s: string): string {
    seq(|s|, i requires 0 <= i < |s| => if 'A' <= s[i] <= 'F' then s[i] - 'A' + 'a' else s[i])
  }

  /** The digest to look for: the signed one when there is one. */
  function Wanted(p: Params, trusted: Option<string>): string {
    LowerHex(if trusted.Some? then trusted.value else p.sha256)
  }

  predicate Configured(p: Params, trusted: Option<string>) {
    p.enabled && ValidName(p.profile) && ValidName(p.partition) && ValidDigest(Wanted(p, trusted)) && p.fetch != ""
  }

  predicate Readable(fstype: string) { fstype == "vfat" || fstype == "exfat" || fstype == "ext4" }

  predicate Holds(d: Device, profile: string, digest: string) {
    profile in d.caches && Image(digest) in d.caches[profile]
  }

  /** Does every command succeed on this device, and is the copy the wanted image? */
  predicate Serves(hash: string -> string, d: Device, profile: string, digest: string) {
    d.usb && Readable(d.fstype) && d.mounts && Holds(d, profile, digest)
    && d.ramfs && d.copyOk && d.hashOk && hash(d.copied) == digest
  }

  datatype Outcome = Hit(device: nat, root: string) | Miss

  /** Tries the devices in order; the first one that serves the image is a hit. */
  method Restore(hash: string -> string, p: Params, trusted: Option<string>, devices: seq<Device>)
    returns (outcome: Outcome)
    ensures outcome.Hit? ==>
              && outcome.device < |devices| && outcome.root == devices[outcome.device].copied
              && Serves(hash, devices[outcome.device], p.profile, Wanted(p, trusted))
              && hash(outcome.root) == Wanted(p, trusted)
              && forall j :: 0 <= j < outcome.device ==> !Serves(hash, devices[j], p.profile, Wanted(p, trusted))
    ensures outcome.Hit? <==>
              && Configured(p, trusted)
              && exists i :: 0 <= i < |devices| && Serves(hash, devices[i], p.profile, Wanted(p, trusted))
  {
    if !Configured(p, trusted) { return Miss; }
    var digest := Wanted(p, trusted);
    var i := 0;
    while i < |devices|
      invariant i <= |devices|
      invariant forall j :: 0 <= j < i ==> !Serves(hash, devices[j], p.profile, digest)
    {
      var d := devices[i];
      if d.usb && Readable(d.fstype) && d.mounts && Holds(d, p.profile, digest) && d.ramfs {
        // the copy is hashed where it was written, never the stream it came from
        var actual := None;
        if d.copyOk && d.hashOk { actual := Some(hash(d.copied)); }
        if actual == Some(digest) { return Hit(i, d.copied); }
      }
      i := i + 1;
    }
    return Miss;
  }

  /** A signed manifest: none required, verified with its digest, or not verifiable. */
  datatype Manifest = Unsigned | Signed(digest: string) | Unverifiable

  datatype Download = Download(ok: bool, root: string, hashOk: bool)

  datatype Booted = Mounted(root: string, cached: bool) | Refused

  function Trusted(manifest: Manifest): Option<string> {
    if manifest.Signed? then Some(manifest.digest) else None
  }

  /** Does this device, and none before it, serve the wanted image? */
  ghost predicate FirstServing(hash: string -> string, p: Params, manifest: Manifest, devices: seq<Device>, i: int) {
    var digest := Wanted(p, Trusted(manifest));
    && 0 <= i < |devices| && Serves(hash, devices[i], p.profile, digest)
    && forall j :: 0 <= j < i ==> !Serves(hash, devices[j], p.profile, digest)
  }

  ghost predicate InCache(hash: string -> string, p: Params, manifest: Manifest, devices: seq<Device>) {
    Configured(p, Trusted(manifest)) && exists i :: FirstServing(hash, p, manifest, devices, i)
  }

  /** Did the download arrive, and match a signed release? */
  predicate Downloaded(hash: string -> string, manifest: Manifest, network: Download) {
    network.ok && (manifest.Signed? ==> network.hashOk && hash(network.root) == manifest.digest)
  }

  /**
   The root image comes from the first device that serves it, else from the network, and
   must match a signed release; without either, or without a verifiable manifest, nothing is mounted.
   */
  method MountRoot(hash: string -> string, p: Params, manifest: Manifest, devices: seq<Device>, network: Download)
    returns (result: Booted)
    requires manifest.Signed? ==> ValidDigest(manifest.digest)
    ensures result.Mounted? <==>
              !manifest.Unverifiable?
              && (InCache(hash, p, manifest, devices) || Downloaded(hash, manifest, network))
    ensures result.Mounted? ==> (result.cached <==> InCache(hash, p, manifest, devices))
    ensures result.Mounted? && result.cached ==>
              exists i :: FirstServing(hash, p, manifest, devices, i) && result.root == devices[i].copied
    ensures result.Mounted? && !result.cached ==> result.root == network.root
    ensures result.Mounted? && manifest.Signed? ==> hash(result.root) == manifest.digest
    ensures result.Mounted? && result.cached && manifest.Unsigned? ==> hash(result.root) == LowerHex(p.sha256)
  {
    var trusted := if manifest.Signed? then Some(manifest.digest) else None;
    if manifest.Unverifiable? { return Refused; }
    var cache := Restore(hash, p, trusted, devices);
    assert trusted == Trusted(manifest);
    if cache.Hit? {
      assert FirstServing(hash, p, manifest, devices, cache.device);
      if manifest.Signed? { LowerHexFixed(manifest.digest); }
      return Mounted(cache.root, true);
    }
    if !network.ok { return Refused; }
    if manifest.Signed? && !(network.hashOk && hash(network.root) == manifest.digest) { return Refused; }
    return Mounted(network.root, false);
  }

  /** Only the letters A to F change, each to the same digit in lower case. */
  lemma LowerHexTells(s: string, i: nat)
    requires i < |s|
    ensures |LowerHex(s)| == |s|
    ensures s[i] in "ABCDEF" ==> LowerHex(s)[i] as int == s[i] as int + 32
    ensures s[i] !in "ABCDEF" ==> LowerHex(s)[i] == s[i]
    ensures s[i] in "0123456789abcdefABCDEF" <==> LowerHex(s)[i] in "0123456789abcdef"
  {
  }

  lemma LowerHexFixed(s: string)
    requires ValidDigest(s)
    ensures LowerHex(s) == s
  {
  }

  /** Code points of digits, letters, dash, dot and underscore. */
  predicate NameCode(c: char) {
    var n := c as int;
    48 <= n <= 57 || 65 <= n <= 90 || 97 <= n <= 122 || n == 45 || n == 46 || n == 95
  }

  predicate Named(s: string) { s != "" && |s| < 33 && forall i :: 0 <= i < |s| ==> NameCode(s[i]) }

  /** When the parameters let the cache be tried at all. */
  lemma ConfiguredIff(p: Params, trusted: Option<string>)
    ensures Configured(p, trusted) <==>
            && p.enabled && p.fetch != "" && Named(p.profile) && Named(p.partition)
            && |Wanted(p, trusted)| == 64
            && forall c :: c in Wanted(p, trusted) ==> c in "0123456789abcdef"
  {
    forall c: char ensures NameChar(c) <==> NameCode(c) {
    }
    forall s: string, i | 0 <= i < |s| ensures s[i] in s {
    }
  }

  /** Every single thing that can keep a device from serving its image. */
  lemma ServesIff(hash: string -> string, d: Device, profile: string, digest: string)
    ensures Serves(hash, d, profile, digest) <==>
            !(!d.usb || d.fstype !in {"vfat", "exfat", "ext4"} || !d.mounts
              || profile !in d.caches || Image(digest) !in d.caches[profile]
              || !d.ramfs || !d.copyOk || !d.hashOk || hash(d.copied) != digest)
  {
  }

  /** A device on which nothing fails serves what it holds. */
  predicate Reliable(d: Device, profile: string, digest: string) {
    && d.usb && Readable(d.fstype) && d.mounts && d.ramfs && d.copyOk && d.hashOk
    && (Holds(d, profile, digest) ==> d.copied == d.caches[profile][Image(digest)].content)
  }

  /**
   Save, then boot: once a save has reported success, a later boot with the same profile
   and digest finds the image on a device that holds the saved directory, even when a
   power loss came in between.
   */
  lemma SavedThenServed(job: Job, actions: seq<Action>, dir: Dir, d: Device, profile: string)
    requires Settled(job.before) && Runs(job, Start(job), actions)
    requires After(job, Start(job), actions).pc == Done(0)
    requires dir == After(job, Start(job), actions).dir || Survives(After(job, Start(job), actions), dir)
    requires profile in d.caches && d.caches[profile] == dir && Reliable(d, profile, job.expected)
    ensures Serves(job.hash, d, profile, job.expected)
  {
    SuccessMeansCached(job, actions);
  }
}
