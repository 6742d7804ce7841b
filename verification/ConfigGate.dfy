/**
 The central configuration gate: a document is fetched, checked against the policy baked
 into the image and published for the loader; a rejected one leaves the last good copy in
 place. The network, JSON, signatures and digests are parameters.
 */
module ConfigGate {
  import opened Prelude
  import opened Config

  /** The content of a file. */
  type Bytes = string

  const LIMIT := 1024 * 1024

  /** A split URL; absent parts are empty. */
  datatype Address = Address(scheme: string, hostname: string, username: string, password: string)

  /** The policy's settings; an unset URL or key is empty. */
  datatype Policy = Policy(url: string, required: bool, https: bool, key: string, production: bool)

  /**
   Code the gate calls; None stands for an exception. There are two decoders: `parse`
   takes the downloaded bytes in any encoding JSON allows, `read` takes a file as UTF-8 text
   and rejects a byte order mark. `verify` takes key, payload and signature.
   */
  datatype World = World(
    split: string -> Option<Address>,
    parse: Bytes -> Option<Json>,
    read: Bytes -> Option<Json>,
    verify: (string, Bytes, Bytes) -> bool,
    digest: Bytes -> string)

  // -------------------------------------------------------------- validation --

  datatype Fault =
    | NotSchema1 | BadSections | BadConnection
    | NoPasswordHash | Unverified | StoredPassword | LegacySecurity

  /** `table.get(key, default)` */
  function GetOr(t: Table, key: Key, default: Json): Json { if key in t then t[key] else default }

  /** Python's `value == 1` */
  predicate IsOne(v: Json) { v == Int(1) || v == Bool(true) || v == Float(Some(1.0)) }

  predicate Truthy(v: Json) {
    match v
    case Null => false
    case Bool(b) => b
    case Int(i) => i != 0
    case Float(x) => x != Some(0.0)
    case Str(s) => s != ""
    case Arr(items) => items != []
    case Obj(fields) => fields != map[]
  }

  predicate Hashed(device: Table) {
    var password := GetOr(device, AdminPassword, Str(""));
    password.Str? && "pbkdf2-sha256$" <= password.s
  }

  predicate NotStrict(item: Json) { item.Obj? && GetOr(item.fields, CertPolicy, Str("strict")) != Str("strict") }

  predicate Stores(item: Json) { item.Obj? && Truthy(Get(item.fields, Password)) }

  predicate Legacy(item: Json) { item.Obj? && GetOr(item.fields, Security, Str("auto")) == Str("rdp") }

  predicate SchemaOk(data: Json) { data.Obj? && IsOne(GetOr(data.fields, Schema, Int(1))) }

  function Section(data: Json, key: Key, default: Json): Json
    requires data.Obj?
  {
    GetOr(data.fields, key, default)
  }

  predicate SectionsOk(data: Json) {
    data.Obj? && Section(data, Device, Obj(map[])).Obj? && Section(data, Connections, Arr([])).Arr?
  }

  /** The connection items of a document with proper sections. */
  function Items(data: Json): seq<Json>
    requires SectionsOk(data)
  {
    Section(data, Connections, Arr([])).items
  }

  predicate AllObjects(items: seq<Json>) { forall i :: 0 <= i < |items| ==> items[i].Obj? }

  /** What a well-formed document gets wrong under the production rules. */
  function ProductionFaults(data: Json): set<Fault>
    requires SectionsOk(data)
  {
    (if Hashed(Section(data, Device, Obj(map[])).fields) then {} else {NoPasswordHash})
    + (if exists i :: 0 <= i < |Items(data)| && NotStrict(Items(data)[i]) then {Unverified} else {})
    + (if exists i :: 0 <= i < |Items(data)| && Stores(Items(data)[i]) then {StoredPassword} else {})
    + (if exists i :: 0 <= i < |Items(data)| && Legacy(Items(data)[i]) then {LegacySecurity} else {})
  }

  /** Everything wrong with a document; structural faults hide the others. */
  function Faults(data: Json, production: bool): set<Fault> {
    if !SchemaOk(data) then {NotSchema1}
    else if !SectionsOk(data) then {BadSections}
    else if !AllObjects(Items(data)) then {BadConnection}
    else if production then ProductionFaults(data)
    else {}
  }

  /** The loop over the connections: which faults does some item have? */
  method ConnectionFaults(items: seq<Json>) returns (unverified: bool, stored: bool, legacy: bool)
    ensures unverified <==> exists i :: 0 <= i < |items| && NotStrict(items[i])
    ensures stored <==> exists i :: 0 <= i < |items| && Stores(items[i])
    ensures legacy <==> exists i :: 0 <= i < |items| && Legacy(items[i])
  {
    unverified, stored, legacy := false, false, false;
    for n := 0 to |items|
      invariant unverified <==> exists i :: 0 <= i < n && NotStrict(items[i])
      invariant stored <==> exists i :: 0 <= i < n && Stores(items[i])
      invariant legacy <==> exists i :: 0 <= i < n && Legacy(items[i])
    {
      if NotStrict(items[n]) { unverified := true; }
      if Stores(items[n]) { stored := true; }
      if Legacy(items[n]) { legacy := true; }
    }
  }

  method Validate(data: Json, production: bool) returns (errors: set<Fault>)
    ensures errors == Faults(data, production)
  {
    if !SchemaOk(data) { return {NotSchema1}; }
    if !SectionsOk(data) { return {BadSections}; }
    var items := Items(data);
    if !AllObjects(items) { return {BadConnection}; }
    errors := {};
    if production {
      if !Hashed(Section(data, Device, Obj(map[])).fields) { errors := errors + {NoPasswordHash}; }
      var unverified, stored, legacy := ConnectionFaults(items);
      if unverified { errors := errors + {Unverified}; }
      if stored { errors := errors + {StoredPassword}; }
      if legacy { errors := errors + {LegacySecurity}; }
    }
  }

  // ----------------------------------------------------------------- runtime --

  datatype State = Local | Current | Stale | Unavailable

  datatype Source = Media | Factory | Central | LastKnownGood

  datatype Status = Status(
    state: State, source: Source, failed: bool, required: bool, digest: Option<string>, authenticated: bool)

  /** A status file that is absent or unreadable. */
  const NO_STATUS := Status(Local, Factory, false, false, None, false)

  /** The two files a boot's fetches leave behind. */
  datatype Runtime = Runtime(remote: Option<Bytes>, status: Option<Status>)

  /**
   How the calls of one fetch turn out: what the two downloads leave, whether the scratch
   directory can be made and removed, whether publishing succeeds, and which files can be read.
   */
  datatype Outcome = Outcome(
    payload: Option<Bytes>, signature: Option<Bytes>, scratch: bool, published: bool, tidied: bool,
    statusReads: bool, remoteReads: bool, media: bool)

  /** A download that arrived within the size limit. */
  predicate Arrived(file: Option<Bytes>) { file.Some? && |file.value| <= LIMIT }

  function Url(policy: Policy, arg: string): string { if policy.url != "" then policy.url else arg }

  predicate AddressOk(w: World, policy: Policy, url: string) {
    var a := w.split(url);
    && a.Some? && (a.value.scheme == "http" || a.value.scheme == "https")
    && a.value.hostname != "" && a.value.username == "" && a.value.password == ""
    && (policy.https ==> a.value.scheme == "https")
  }

  predicate Parses(w: World, policy: Policy, raw: Bytes) {
    w.parse(raw).Some? && Faults(w.parse(raw).value, policy.production) == {}
  }

  /** Does the copy still validate when the file is read again? */
  predicate Rereads(w: World, policy: Policy, raw: Bytes) {
    w.read(raw).Some? && Faults(w.read(raw).value, policy.production) == {}
  }

  predicate Signed(w: World, policy: Policy, raw: Bytes, signature: Option<Bytes>) {
    policy.key != "" ==> Arrived(signature) && w.verify(policy.key, raw, signature.value)
  }

  /** The document this fetch puts in place, if any. */
  function Accepted(w: World, policy: Policy, url: string, o: Outcome): Option<Bytes> {
    if url != "" && AddressOk(w, policy, url) && o.scratch && Arrived(o.payload)
       && Signed(w, policy, o.payload.value, o.signature) && Parses(w, policy, o.payload.value) && o.published
    then o.payload
    else None
  }

  /** The status a fetch starts from: the last one, made current. */
  function Opening(policy: Policy, o: Outcome, status: Option<Status>): Status {
    var seen := if o.statusReads && status.Some? then status.value else NO_STATUS;
    seen.(state := Local, source := if o.media then Media else Factory, failed := false, required := policy.required)
  }

  function Succeeded(w: World, policy: Policy, url: string, raw: Bytes, s: Status): Status {
    var address := w.split(url);
    s.(state := Current, source := Central, failed := false, digest := Some(w.digest(raw)),
       authenticated := policy.key != "" || (address.Some? && address.value.scheme == "https"))
  }

  /** After an exception: is there still a usable copy? */
  function Failed(w: World, policy: Policy, o: Outcome, remote: Option<Bytes>, s: Status): Status {
    if o.remoteReads && remote.Some? && Rereads(w, policy, remote.value)
    then s.(state := Stale, source := LastKnownGood, failed := true)
    else s.(state := Unavailable, failed := true)
  }

  /** Both files after one undisturbed fetch. */
  function Fetched(w: World, policy: Policy, arg: string, o: Outcome, rt: Runtime): Runtime {
    var url, opening := Url(policy, arg), Opening(policy, o, rt.status);
    match Accepted(w, policy, url, o)
    case Some(raw) =>
      var s := Succeeded(w, policy, url, raw, opening);
      Runtime(Some(raw), Some(if o.tidied then s else Failed(w, policy, o, Some(raw), s)))
    case None =>
      Runtime(rt.remote, Some(
                if url == "" && !policy.required then opening
                else Failed(w, policy, o, rt.remote, opening)))
  }

  class Gate {
    var remote: Option<Bytes>
    var status: Option<Status>

    /** The body of the `try`: `raised` tells an exception from a normal end. */
    method Attempt(w: World, policy: Policy, url: string, o: Outcome, opening: Status)
      returns (raised: bool, s: Status)
      modifies `remote
      ensures var a := Accepted(w, policy, url, o);
              && remote == (if a.Some? then a else old(remote))
              && s == (if a.Some? then Succeeded(w, policy, url, a.value, opening) else opening)
              && (raised <==> if a.Some? then !o.tidied else url != "" || policy.required)
    {
      s := opening;
      if url == "" {
        return policy.required, s;
      }
      var address := w.split(url);
      if address.None? || (address.value.scheme != "http" && address.value.scheme != "https")
         || address.value.hostname == "" || address.value.username != "" || address.value.password != "" {
        return true, s;
      }
      if policy.https && address.value.scheme != "https" {
        return true, s;
      }
      if !o.scratch || !Arrived(o.payload) {
        return true, s;
      }
      var raw := o.payload.value;
      if policy.key != "" {
        if !Arrived(o.signature) || !w.verify(policy.key, raw, o.signature.value) {
          return true, s;
        }
      }
      var data := w.parse(raw);
      if data.None? {
        return true, s;
      }
      var errors := Validate(data.value, policy.production);
      if errors != {} || !o.published {
        return true, s;
      }
      remote := Some(raw);
      s := Succeeded(w, policy, url, raw, s);
      raised := !o.tidied;
    }

    method Fetch(w: World, policy: Policy, arg: string, o: Outcome)
      modifies this
      ensures Runtime(remote, status) == Fetched(w, policy, arg, o, old(Runtime(remote, status)))
    {
      var url := if policy.url != "" then policy.url else arg;
      var raised, s := Attempt(w, policy, url, o, Opening(policy, o, status));
      if raised {
        var valid := false;
        if o.remoteReads && remote.Some? {
          var last := w.read(remote.value);
          if last.Some? {
            var errors := Validate(last.value, policy.production);
            valid := errors == {};
          }
        }
        s := if valid then s.(state := Stale, source := LastKnownGood, failed := true)
             else s.(state := Unavailable, failed := true);
      }
      status := Some(s);
    }
  }

  // -------------------------------------------------------------------- runs --

  /** Where a fetch is killed, if it is; the status write failing counts as `Between`. */
  datatype Cut = Whole | BeforePublishing | Between

  datatype Step = Step(arg: string, o: Outcome, cut: Cut)

  /** The document a possibly interrupted fetch puts in place. */
  function Published(w: World, policy: Policy, step: Step): Option<Bytes> {
    if step.cut.BeforePublishing? then None else Accepted(w, policy, Url(policy, step.arg), step.o)
  }

  function Do(w: World, policy: Policy, rt: Runtime, step: Step): Runtime {
    var done := Fetched(w, policy, step.arg, step.o, rt);
    match step.cut
    case Whole => done
    case BeforePublishing => rt
    case Between => Runtime(done.remote, rt.status)
  }

  function After(w: World, policy: Policy, rt: Runtime, steps: seq<Step>): Runtime
    decreases |steps|
  {
    if steps == [] then rt else After(w, policy, Do(w, policy, rt, steps[0]), steps[1..])
  }

  /** A boot starts with neither file. */
  const FRESH := Runtime(None, None)

  // -------------------------------------------------------------------- load --

  /** The policy file as the programs find it. */
  datatype PolicyFile = Missing | Malformed | Readable(policy: Policy)

  /** The policy a fetch enforces: a malformed one must not open the gate. */
  function Enforced(file: PolicyFile): Policy {
    match file
    case Missing => Policy("", false, false, "", false)
    case Malformed => Policy("", true, true, "", false)
    case Readable(policy) => policy
  }

  predicate Blocked(file: PolicyFile, status: Option<Status>) {
    || file.Malformed?
    || (file.Readable? && file.policy.required
        && !(status.Some? && (status.value.state.Current? || status.value.state.Stale?)))
  }

  /** The loader's view of the copy: a missing or unreadable file, or one without an object, is `Null`. */
  function RemoteLayer(w: World, rt: Runtime): Json {
    var data := if rt.remote.Some? then w.read(rt.remote.value) else None;
    if data.Some? && data.value.Obj? then data.value else Null
  }

  /** The configuration a client works with: the four layers, emptied when the gate is shut. */
  function LoadClient(p: Profile, w: World, file: PolicyFile, factory: Json, media: Json, edits: Json,
      rt: Runtime): Loaded
    requires Sane(p)
  {
    var cfg := Load(p, [factory, media, RemoteLayer(w, rt), edits]);
    if Blocked(file, rt.status) then Loaded(cfg.device[AutoConnect := Str("")], []) else cfg
  }
}
