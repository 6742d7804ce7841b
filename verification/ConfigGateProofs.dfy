/** What the configuration gate keeps over every sequence of fetches in a boot. */
module ConfigGateProofs {
  import opened Prelude
  import opened Text
  import opened Config
  import opened ConfigProofs
  import opened ConfigGate
  import ConfigTables

  // ------------------------------------------------------------- fail closed --

  /** A document that passed the policy's checks: its size, its signature and its validation. */
  ghost predicate Admitted(w: World, policy: Policy, raw: Bytes) {
    && |raw| <= LIMIT && Parses(w, policy, raw)
    && (policy.key != "" ==> exists signature :: |signature| <= LIMIT && w.verify(policy.key, raw, signature))
  }

  predicate Open(status: Option<Status>) {
    status.Some? && (status.value.state.Current? || status.value.state.Stale?)
  }

  ghost predicate GateOk(w: World, policy: Policy, rt: Runtime) {
    && (rt.remote.Some? ==> Admitted(w, policy, rt.remote.value))
    && (Open(rt.status) ==> rt.remote.Some?)
  }

  lemma AcceptedIsAdmitted(w: World, policy: Policy, url: string, o: Outcome)
    requires Accepted(w, policy, url, o).Some?
    ensures Admitted(w, policy, Accepted(w, policy, url, o).value)
    ensures AddressOk(w, policy, url)
  {
    var raw := o.payload.value;
    if policy.key != "" {
      assert |o.signature.value| <= LIMIT && w.verify(policy.key, raw, o.signature.value);
    }
  }

  // ------------------------------------------------- what it takes to be accepted --

  /** An address a document may be fetched from. */
  predicate SafeAddress(address: Option<Address>, https: bool) {
    match address
    case None => false
    case Some(a) =>
      && (a.scheme == "https" || (a.scheme == "http" && !https))
      && a.hostname != "" && a.username == "" && a.password == ""
  }

  /** A value Python counts as false. */
  predicate Empty(v: Json) {
    || v == Null || v == Bool(false) || v == Int(0) || v == Float(Some(0.0))
    || v == Str("") || v == Arr([]) || v == Obj(map[])
  }

  /** A document of the known schema whose sections, if it has them, are an object and a list of objects. */
  predicate WellFormed(doc: Json) {
    && doc.Obj?
    && (Schema in doc.fields ==>
          var v := doc.fields[Schema]; v == Int(1) || v == Bool(true) || v == Float(Some(1.0)))
    && (Device in doc.fields ==> doc.fields[Device].Obj?)
    && (Connections in doc.fields ==> doc.fields[Connections].Arr?)
    && forall i :: 0 <= i < |Listed(doc)| ==> Listed(doc)[i].Obj?
  }

  /** The items of its connection list. */
  function Listed(doc: Json): seq<Json> {
    if doc.Obj? && Connections in doc.fields && doc.fields[Connections].Arr? then doc.fields[Connections].items else []
  }

  /** Does it set an administrator password as a hash? */
  predicate SetsHash(doc: Json) {
    && doc.Obj? && Device in doc.fields && doc.fields[Device].Obj?
    && var device := doc.fields[Device].fields;
       AdminPassword in device && device[AdminPassword].Str? && "pbkdf2-sha256$" <= device[AdminPassword].s
  }

  /** An item that the production rules have nothing against. */
  predicate Harmless(item: Json) {
    && item.Obj?
    && (CertPolicy in item.fields ==> item.fields[CertPolicy] == Str("strict"))
    && (Password in item.fields ==> Empty(item.fields[Password]))
    && (Security in item.fields ==> item.fields[Security] != Str("rdp"))
  }

  /** The documents that pass the validation. */
  predicate Passes(doc: Json, production: bool) {
    && WellFormed(doc)
    && (production ==> SetsHash(doc) && forall i :: 0 <= i < |Listed(doc)| ==> Harmless(Listed(doc)[i]))
  }

  lemma TruthyIff(v: Json)
    ensures Truthy(v) <==> !Empty(v)
  {
  }

  lemma HarmlessIff(item: Json)
    requires item.Obj?
    ensures Harmless(item) <==> !NotStrict(item) && !Stores(item) && !Legacy(item)
  {
    TruthyIff(Get(item.fields, Password));
    assert "auto"[0] != "rdp"[0];
  }

  lemma ProductionIff(doc: Json)
    requires SectionsOk(doc) && AllObjects(Items(doc)) && Listed(doc) == Items(doc)
    ensures ProductionFaults(doc) == {} <==>
            SetsHash(doc) && forall i :: 0 <= i < |Listed(doc)| ==> Harmless(Listed(doc)[i])
  {
    assert {NoPasswordHash} != {} && {Unverified} != {} && {StoredPassword} != {} && {LegacySecurity} != {};
    assert "" == [] && !("pbkdf2-sha256$" <= "");
    forall i | 0 <= i < |Items(doc)|
      ensures Harmless(Items(doc)[i]) <==>
              !NotStrict(Items(doc)[i]) && !Stores(Items(doc)[i]) && !Legacy(Items(doc)[i])
    {
      HarmlessIff(Items(doc)[i]);
    }
  }

  /** A document is faultless exactly when it is well-formed and, in production, keeps its rules. */
  lemma FaultlessIff(doc: Json, production: bool)
    ensures Faults(doc, production) == {} <==> Passes(doc, production)
  {
    assert {NotSchema1} != {} && {BadSections} != {} && {BadConnection} != {};
    if SchemaOk(doc) && SectionsOk(doc) {
      assert Listed(doc) == Items(doc);
      if AllObjects(Items(doc)) && production { ProductionIff(doc); }
    }
  }

  /** What puts a document in place: a safe address, a size, a signature and a validation, and no failing call. */
  predicate Publishes(w: World, policy: Policy, step: Step, raw: Bytes) {
    var url := if policy.url != "" then policy.url else step.arg;
    && url != "" && SafeAddress(w.split(url), policy.https)
    && step.o.payload == Some(raw) && |raw| <= 1048576
    && (policy.key != "" ==>
          && step.o.signature.Some? && |step.o.signature.value| <= 1048576
          && w.verify(policy.key, raw, step.o.signature.value))
    && w.parse(raw).Some? && Passes(w.parse(raw).value, policy.production)
    && step.o.scratch && step.o.published && !step.cut.BeforePublishing?
  }

  /** A step puts a document in place exactly when all this holds. */
  lemma PublishedIff(w: World, policy: Policy, step: Step, raw: Bytes)
    ensures Published(w, policy, step) == Some(raw) <==> Publishes(w, policy, step, raw)
  {
    if w.parse(raw).Some? { FaultlessIff(w.parse(raw).value, policy.production); }
  }

  predicate Idle(w: World, policy: Policy, step: Step) {
    step.o.payload.Some? ==> !Publishes(w, policy, step, step.o.payload.value)
  }

  lemma IdleIff(w: World, policy: Policy, step: Step)
    ensures Published(w, policy, step).None? <==> Idle(w, policy, step)
  {
    if step.o.payload.Some? { PublishedIff(w, policy, step, step.o.payload.value); }
  }

  /** Did step `i` put this document in place, and no later one another? */
  predicate PutInPlace(w: World, policy: Policy, steps: seq<Step>, raw: Bytes, i: int) {
    0 <= i < |steps| && Publishes(w, policy, steps[i], raw)
    && forall j :: i < j < |steps| ==> Idle(w, policy, steps[j])
  }

  // ------------------------------------------------------------------ over runs --

  lemma GateStep(w: World, policy: Policy, rt: Runtime, step: Step)
    requires GateOk(w, policy, rt)
    ensures GateOk(w, policy, Do(w, policy, rt, step))
  {
    var url := Url(policy, step.arg);
    if Accepted(w, policy, url, step.o).Some? { AcceptedIsAdmitted(w, policy, url, step.o); }
  }

  lemma {:induction false} GateRun(w: World, policy: Policy, rt: Runtime, steps: seq<Step>)
    requires GateOk(w, policy, rt)
    ensures GateOk(w, policy, After(w, policy, rt, steps))
    decreases |steps|
  {
    if steps != [] {
      GateStep(w, policy, rt, steps[0]);
      GateRun(w, policy, Do(w, policy, rt, steps[0]), steps[1..]);
    }
  }

  /** The last document put in place by a run. */
  function LastPublished(w: World, policy: Policy, steps: seq<Step>): Option<Bytes>
    decreases |steps|
  {
    if steps == [] then None
    else
      var later := LastPublished(w, policy, steps[1..]);
      if later.Some? then later else Published(w, policy, steps[0])
  }

  lemma {:induction false} RemoteIsLastPublished(w: World, policy: Policy, rt: Runtime, steps: seq<Step>)
    ensures var last := LastPublished(w, policy, steps);
            After(w, policy, rt, steps).remote == if last.Some? then last else rt.remote
    decreases |steps|
  {
    if steps != [] {
      RemoteIsLastPublished(w, policy, Do(w, policy, rt, steps[0]), steps[1..]);
    }
  }

  lemma {:induction false} LastPublishedTold(w: World, policy: Policy, steps: seq<Step>)
    ensures var last := LastPublished(w, policy, steps);
            && (last.None? ==> forall j :: 0 <= j < |steps| ==> Idle(w, policy, steps[j]))
            && (last.Some? ==> exists i :: PutInPlace(w, policy, steps, last.value, i))
    decreases |steps|
  {
    if steps != [] {
      var rest := steps[1..];
      LastPublishedTold(w, policy, rest);
      IdleIff(w, policy, steps[0]);
      var later := LastPublished(w, policy, rest);
      if later.Some? {
        var i :| PutInPlace(w, policy, rest, later.value, i);
        assert forall j :: i + 1 < j < |steps| ==> steps[j] == rest[j - 1];
        assert PutInPlace(w, policy, steps, later.value, i + 1);
      } else {
        assert forall j :: 0 < j < |steps| ==> steps[j] == rest[j - 1];
        if Published(w, policy, steps[0]).Some? {
          var raw := Published(w, policy, steps[0]).value;
          PublishedIff(w, policy, steps[0], raw);
          assert PutInPlace(w, policy, steps, raw, 0);
        }
      }
    }
  }

  /**
   Over every sequence of fetches, killed anywhere, in a boot that starts with no copy: the
   copy is what the last successful step put in place, whatever was rejected since. It came
   from a safe address, over HTTPS if the policy asks for that, and passed the signature
   check and the validation; and an open status means that it is there.
   */
  lemma FailsClosed(w: World, policy: Policy, steps: seq<Step>)
    ensures var rt := After(w, policy, FRESH, steps);
            && rt.remote == LastPublished(w, policy, steps)
            && (rt.remote.Some? ==> Admitted(w, policy, rt.remote.value))
            && (rt.remote.Some? ==> exists i :: PutInPlace(w, policy, steps, rt.remote.value, i))
            && (rt.remote.None? ==> forall j :: 0 <= j < |steps| ==> Idle(w, policy, steps[j]))
            && (Open(rt.status) ==> rt.remote.Some?)
  {
    GateRun(w, policy, FRESH, steps);
    RemoteIsLastPublished(w, policy, FRESH, steps);
    LastPublishedTold(w, policy, steps);
  }

  /** A policy that asks for HTTPS, or a broken policy file, never lets a document in that came without it. */
  lemma HttpsEnforced(w: World, file: PolicyFile, steps: seq<Step>)
    requires file.Malformed? || (file.Readable? && file.policy.https)
    ensures var rt := After(w, Enforced(file), FRESH, steps);
            rt.remote.Some? ==>
              exists i :: && PutInPlace(w, Enforced(file), steps, rt.remote.value, i)
                          && var from := w.split(Url(Enforced(file), steps[i].arg));
                             from.Some? && from.value.scheme == "https" && from.value.username == ""
                             && from.value.password == "" && from.value.hostname != ""
  {
    FailsClosed(w, Enforced(file), steps);
  }

  /** The status of an undisturbed fetch says where the configuration comes from and whether that is vouched for. */
  lemma StatusTells(w: World, policy: Policy, rt: Runtime, arg: string, o: Outcome)
    ensures var step, done := Step(arg, o, Whole), Fetched(w, policy, arg, o, rt);
            && done.status.Some? && done.status.value.required == policy.required
            && (done.status.value.state.Current? ==>
                  && o.payload.Some? && Publishes(w, policy, step, o.payload.value) && o.tidied
                  && done.status.value.source.Central? && !done.status.value.failed
                  && done.status.value.digest == Some(w.digest(o.payload.value))
                  && (done.status.value.authenticated <==>
                        policy.key != "" || w.split(Url(policy, arg)).value.scheme == "https"))
            && (done.status.value.state.Local? ==>
                  !done.status.value.failed && done.status.value.source == if o.media then Media else Factory)
            && (done.status.value.state.Stale? ==>
                  done.status.value.failed && done.status.value.source.LastKnownGood?)
            && (done.status.value.state.Unavailable? ==> done.status.value.failed)
            && (!(o.payload.Some? && Publishes(w, policy, step, o.payload.value)) ==>
                  if o.statusReads && rt.status.Some? then
                    done.status.value.digest == rt.status.value.digest
                    && done.status.value.authenticated == rt.status.value.authenticated
                  else done.status.value.digest == None && !done.status.value.authenticated)
  {
    if o.payload.Some? { PublishedIff(w, policy, Step(arg, o, Whole), o.payload.value); }
    IdleIff(w, policy, Step(arg, o, Whole));
  }

  /** Does reading the copy's file give what its bytes were accepted as? */
  predicate Agree(w: World, raw: Bytes) { w.read(raw) == w.parse(raw) }

  /** The state an undisturbed fetch reports, from what happened to it and to the copy it leaves. */
  lemma StateIff(w: World, policy: Policy, rt: Runtime, arg: string, o: Outcome)
    requires GateOk(w, policy, rt)
    ensures var url, done := Url(policy, arg), Fetched(w, policy, arg, o, rt);
            var accepted := Accepted(w, policy, url, o).Some?;
            && done.status.Some?
            && (done.status.value.state.Current? <==> accepted && o.tidied)
            && (done.status.value.state.Local? <==> url == "" && !policy.required)
            && (done.status.value.state.Stale? <==>
                  && !(accepted && o.tidied) && !(url == "" && !policy.required)
                  && o.remoteReads && done.remote.Some? && Rereads(w, policy, done.remote.value))
            && (done.remote.Some? && Agree(w, done.remote.value) ==> Rereads(w, policy, done.remote.value))
            && (accepted ==> done.remote == o.payload)
            && (!accepted ==> done.remote == rt.remote)
  {
    GateStep(w, policy, rt, Step(arg, o, Whole));
  }

  /**
   Once a boot has a copy, no outage, rejection or kill takes it away, and a failing fetch
   leaves a required gate open exactly when the copy can be read again and still validates.
   */
  lemma OutageKeepsCopy(w: World, policy: Policy, before: seq<Step>, after: seq<Step>, arg: string, o: Outcome)
    requires After(w, policy, FRESH, before).remote.Some?
    ensures var rt := After(w, policy, After(w, policy, FRESH, before), after);
            var done := Fetched(w, policy, arg, o, rt);
            && rt.remote.Some? && done.remote.Some?
            && (policy.required && !(Accepted(w, policy, Url(policy, arg), o).Some? && o.tidied) ==>
                  (Open(done.status) <==> o.remoteReads && Rereads(w, policy, done.remote.value)))
            && (Agree(w, done.remote.value) ==> Rereads(w, policy, done.remote.value))
  {
    var rt := After(w, policy, FRESH, before);
    GateRun(w, policy, FRESH, before);
    GateRun(w, policy, rt, after);
    RemoteIsLastPublished(w, policy, rt, after);
    StateIff(w, policy, After(w, policy, rt, after), arg, o);
  }

  // ------------------------------------------------------------------ digest --

  /** The digest in the status, if any, is that of the copy. */
  predicate Describes(w: World, rt: Runtime) {
    rt.status.Some? && rt.status.value.digest.Some? ==>
      rt.remote.Some? && rt.status.value.digest.value == w.digest(rt.remote.value)
  }

  /** Was a document replaced under a status with another document's digest? */
  predicate Misdescribes(w: World, policy: Policy, rt: Runtime, step: Step) {
    var raw := Published(w, policy, step);
    && step.cut.Between? && raw.Some? && rt.status.Some? && rt.status.value.digest.Some?
    && rt.status.value.digest.value != w.digest(raw.value)
  }

  /** One fetch breaks the agreement exactly when it is cut between publishing and its status. */
  lemma DigestStep(w: World, policy: Policy, rt: Runtime, step: Step)
    requires Describes(w, rt)
    ensures Describes(w, Do(w, policy, rt, step)) <==> !Misdescribes(w, policy, rt, step)
  {
  }

  predicate Uncut(steps: seq<Step>) { forall i :: 0 <= i < |steps| ==> !steps[i].cut.Between? }

  /** Without such cuts the status always describes the copy. */
  lemma {:induction false} DigestDescribes(w: World, policy: Policy, rt: Runtime, steps: seq<Step>)
    requires Describes(w, rt) && Uncut(steps)
    ensures Describes(w, After(w, policy, rt, steps))
    decreases |steps|
  {
    if steps != [] {
      DigestStep(w, policy, rt, steps[0]);
      DigestDescribes(w, policy, Do(w, policy, rt, steps[0]), steps[1..]);
    }
  }

  // -------------------------------------------------------------- the client --

  /** An accepted document reaches the loader exactly when both decoders agree on it. */
  lemma ReachesLoaderIff(w: World, policy: Policy, rt: Runtime)
    requires GateOk(w, policy, rt) && rt.remote.Some?
    ensures RemoteLayer(w, rt) == w.parse(rt.remote.value).value <==> Agree(w, rt.remote.value)
  {
    assert w.parse(rt.remote.value).value.Obj?;
  }

  /**
   A client whose policy requires central configuration, or whose policy file is broken,
   has connections only if some document was accepted in this boot; that document is the
   loader's remote layer exactly when both decoders agree on it.
   */
  lemma RequiredMeansAccepted(p: Profile, w: World, file: PolicyFile, steps: seq<Step>, factory: Json, media: Json,
      edits: Json)
    requires Sane(p) && Enforced(file).required
    ensures var rt := After(w, Enforced(file), FRESH, steps);
            LoadClient(p, w, file, factory, media, edits, rt).connections != [] ==>
              && file.Readable? && Open(rt.status)
              && rt.remote.Some? && rt.remote == LastPublished(w, file.policy, steps)
              && Admitted(w, file.policy, rt.remote.value)
              && (RemoteLayer(w, rt) == w.parse(rt.remote.value).value <==> Agree(w, rt.remote.value))
  {
    FailsClosed(w, Enforced(file), steps);
    GateRun(w, Enforced(file), FRESH, steps);
    var rt := After(w, Enforced(file), FRESH, steps);
    if rt.remote.Some? { ReachesLoaderIff(w, Enforced(file), rt); }
  }

  /** A shut gate leaves no connections and nothing to open; an open one leaves the merged configuration alone. */
  lemma GateEmptiesOrKeeps(p: Profile, w: World, file: PolicyFile, factory: Json, media: Json, edits: Json, rt: Runtime)
    requires Sane(p)
    ensures var cfg := LoadClient(p, w, file, factory, media, edits, rt);
            var open := file.Missing? || (file.Readable? && (!file.policy.required || Open(rt.status)));
            && Settled(p, cfg)
            && (!open ==> cfg.connections == [] && GetStr(cfg.device, AutoConnect) == "")
            && (open ==> cfg == Load(p, [factory, media, RemoteLayer(w, rt), edits]))
  {
    var layers := [factory, media, RemoteLayer(w, rt), edits];
    LoadSettles(p, layers);
    FitsUpdated(p.device, Load(p, layers).device, AutoConnect, "");
  }

  /** Connections are the accepted document's whenever it has a list and no local edit does. */
  lemma CentralListWins(p: Profile, w: World, factory: Json, media: Json, edits: Json, rt: Runtime)
    requires Sane(p) && ConnectionsOf(RemoteLayer(w, rt)).Some? && ConnectionsOf(edits).None?
    ensures Load(p, [factory, media, RemoteLayer(w, rt), edits]).connections ==
            Load(p, [RemoteLayer(w, rt)]).connections
  {
    LastListWins([factory, media, RemoteLayer(w, rt), edits], [], 2);
    LastListWins([RemoteLayer(w, rt)], [], 0);
  }

  lemma {:induction false} WithoutLayer(before: seq<Json>, layer: Json, after: seq<Json>, previous: seq<Json>)
    requires ConnectionsOf(layer).None?
    ensures MergeConnections(before + [layer] + after, previous) == MergeConnections(before + after, previous)
    decreases |before|
  {
    var with, without := before + [layer] + after, before + after;
    if before == [] {
      assert with[1..] == after == without;
    } else {
      var section := ConnectionsOf(before[0]);
      assert with[1..] == before[1..] + [layer] + after && without[1..] == before[1..] + after;
      WithoutLayer(before[1..], layer, after, if section.Some? then section.value else previous);
    }
  }

  /** An accepted document without a list leaves the image's or the medium's connections in force. */
  lemma NoListFallsThrough(p: Profile, w: World, factory: Json, media: Json, edits: Json, rt: Runtime)
    requires Sane(p) && ConnectionsOf(RemoteLayer(w, rt)).None?
    ensures Load(p, [factory, media, RemoteLayer(w, rt), edits]).connections ==
            Load(p, [factory, media, edits]).connections
  {
    WithoutLayer([factory, media], RemoteLayer(w, rt), [edits], []);
    assert [factory, media] + [RemoteLayer(w, rt)] + [edits] == [factory, media, RemoteLayer(w, rt), edits];
    assert [factory, media] + [edits] == [factory, media, edits];
  }

  // -------------------------------------------------------------- production --

  /** The kinds and defaults of the fields the production rules look at. */
  ghost predicate ProductionKinds(p: Profile) {
    && CertPolicy in p.connection && p.connection[CertPolicy].Choice? && "strict" in p.connection[CertPolicy].choices
    && CertPolicy in p.connectionDefaults && p.connectionDefaults[CertPolicy] == Str("strict")
    && Password in p.connection && p.connection[Password] == Config.Text(false)
    && Password in p.connectionDefaults && p.connectionDefaults[Password] == Str("")
    && Security in p.connection && p.connection[Security].Choice? && "rdp" in p.connection[Security].choices
    && Security in p.connectionDefaults && p.connectionDefaults[Security] == Str("auto")
  }

  lemma {:induction false} NormalisedAt(p: Profile, raw: seq<Json>, i: nat)
    requires Sane(p) && AllObjects(raw) && i < |raw|
    ensures |NormaliseAll(p, raw)| == |raw| && NormaliseAll(p, raw)[i] == NormaliseConnection(p, raw[i].fields)
    decreases |raw|
  {
    var first, rest := NormaliseConnection(p, raw[0].fields), NormaliseAll(p, raw[1..]);
    assert NormaliseAll(p, raw) == [first] + rest;
    if i > 0 {
      NormalisedAt(p, raw[1..], i - 1);
    } else if |raw| > 1 {
      NormalisedAt(p, raw[1..], 0);
    }
  }

  /** A loaded connection differs from its normalised item only in its id and name. */
  lemma LoadedConnection(p: Profile, doc: Json, i: nat, key: Key)
    requires Sane(p) && ConnectionsOf(doc).Some? && AllObjects(ConnectionsOf(doc).value)
    requires i < |ConnectionsOf(doc).value| && key in p.connection && key != Id && key != Name
    ensures var raw, conns := ConnectionsOf(doc).value, Load(p, [doc]).connections;
            && |conns| == |raw|
            && key in conns[i]
            && conns[i][key] == Setting(p.connection[key], Get(raw[i].fields, key),
                ConnectionDefaults(p, raw[i].fields)[key])
  {
    LastListWins([doc], [], 0);
    NormalisedAt(p, ConnectionsOf(doc).value, i);
  }

  lemma LoadedLength(p: Profile, doc: Json)
    requires Sane(p) && ConnectionsOf(doc).Some? && AllObjects(ConnectionsOf(doc).value)
    ensures |Load(p, [doc]).connections| == |ConnectionsOf(doc).value|
  {
    LastListWins([doc], [], 0);
    if ConnectionsOf(doc).value != [] { NormalisedAt(p, ConnectionsOf(doc).value, 0); }
  }

  lemma FaultlessItem(doc: Json, i: nat)
    requires Faults(doc, true) == {} && ConnectionsOf(doc).Some? && i < |ConnectionsOf(doc).value|
    ensures var items := ConnectionsOf(doc).value;
            AllObjects(items) && !NotStrict(items[i]) && !Stores(items[i]) && !Legacy(items[i])
  {
    assert Items(doc) == ConnectionsOf(doc).value;
    assert {NoPasswordHash} != {} && {Unverified} != {} && {StoredPassword} != {} && {LegacySecurity} != {};
    assert ProductionFaults(doc) == {};
  }

  lemma StrictSetting(choices: seq<string>, t: Table)
    requires "strict" in choices && GetOr(t, CertPolicy, Str("strict")) == Str("strict")
    ensures Setting(Choice(choices), Get(t, CertPolicy), Str("strict")) == Str("strict")
  {
    FoldedWord("strict");
  }

  lemma PasswordSetting(t: Table)
    requires !Truthy(Get(t, Password))
    ensures Setting(Config.Text(false), Get(t, Password), Str("")) == Str("")
  {
  }

  lemma SecuritySetting(choices: seq<string>, t: Table)
    requires "rdp" in choices
    ensures var v := Get(t, Security);
            Setting(Choice(choices), v, Str("auto")) == Str("rdp") <==> v.Str? && Folded(v.s) == "rdp"
  {
    assert "auto"[0] != "rdp"[0];
  }

  /** Does the normal form of a connection use legacy security? */
  predicate NormalisesToLegacy(item: Json) {
    item.Obj? && Get(item.fields, Security).Str? && Folded(Get(item.fields, Security).s) == "rdp"
  }

  lemma LoadedStrict(p: Profile, doc: Json, i: nat)
    requires Sane(p) && ProductionKinds(p) && ConnectionsOf(doc).Some? && AllObjects(ConnectionsOf(doc).value)
    requires i < |ConnectionsOf(doc).value| && !NotStrict(ConnectionsOf(doc).value[i])
            && !Stores(ConnectionsOf(doc).value[i])
    ensures var conns := Load(p, [doc]).connections;
            && |conns| == |ConnectionsOf(doc).value|
            && CertPolicy in conns[i] && conns[i][CertPolicy] == Str("strict")
            && Password in conns[i] && conns[i][Password] == Str("")
  {
    var fields := ConnectionsOf(doc).value[i].fields;
    StrictSetting(p.connection[CertPolicy].choices, fields);
    PasswordSetting(fields);
    LoadedConnection(p, doc, i, CertPolicy);
    LoadedConnection(p, doc, i, Password);
  }

  lemma LoadedSecurity(p: Profile, doc: Json, i: nat)
    requires Sane(p) && ProductionKinds(p) && ConnectionsOf(doc).Some? && AllObjects(ConnectionsOf(doc).value)
    requires i < |ConnectionsOf(doc).value|
    ensures var raw, conns := ConnectionsOf(doc).value, Load(p, [doc]).connections;
            && |conns| == |raw| && Security in conns[i]
            && (conns[i][Security] == Str("rdp") <==> NormalisesToLegacy(raw[i]))
  {
    SecuritySetting(p.connection[Security].choices, ConnectionsOf(doc).value[i].fields);
    LoadedConnection(p, doc, i, Security);
  }

  /**
   Every connection of a document that passed the production rules verifies certificates
   strictly and stores no password once normalised; it uses legacy security exactly when
   the document spells that in another case or with spaces around it.
   */
  lemma ProductionConnections(p: Profile, doc: Json, i: nat)
    requires Sane(p) && ProductionKinds(p) && Faults(doc, true) == {}
    requires ConnectionsOf(doc).Some? && i < |ConnectionsOf(doc).value|
    ensures var raw, conns := ConnectionsOf(doc).value, Load(p, [doc]).connections;
            && |conns| == |raw|
            && CertPolicy in conns[i] && conns[i][CertPolicy] == Str("strict")
            && Password in conns[i] && conns[i][Password] == Str("")
            && Security in conns[i]
            && (conns[i][Security] == Str("rdp") <==> NormalisesToLegacy(raw[i]))
            && (NormalisesToLegacy(raw[i]) ==> raw[i].fields[Security] != Str("rdp"))
  {
    FaultlessItem(doc, i);
    LoadedStrict(p, doc, i);
    LoadedSecurity(p, doc, i);
  }

  /** A production document whose only connection spells legacy security in capitals. */
  function ShoutedLegacy(): Json {
    Obj(map[Device := Obj(map[AdminPassword := Str("pbkdf2-sha256$")]),
            Connections := Arr([Obj(map[Security := Str("RDP")])])])
  }

  lemma ShoutedLegacyPasses()
    ensures Faults(ShoutedLegacy(), true) == {}
    ensures ConnectionsOf(ShoutedLegacy()) == Some([Obj(map[Security := Str("RDP")])])
    ensures NormalisesToLegacy(ConnectionsOf(ShoutedLegacy()).value[0])
  {
    StripTrims("RDP");
    assert Folded("RDP") == "rdp";
    var item := Obj(map[Security := Str("RDP")]);
    assert Items(ShoutedLegacy()) == [item];
    assert "RDP"[0] != "rdp"[0];
    assert !NotStrict(item) && !Stores(item) && !Legacy(item);
  }

  /** The exact comparison lets legacy security through. */
  lemma LegacySlipsThrough(p: Profile)
    requires Sane(p) && ProductionKinds(p)
    ensures var conns := Load(p, [ShoutedLegacy()]).connections;
            && Faults(ShoutedLegacy(), true) == {}
            && |conns| == 1 && Security in conns[0] && conns[0][Security] == Str("rdp")
  {
    ShoutedLegacyPasses();
    ProductionConnections(p, ShoutedLegacy(), 0);
  }

  /** A connection that verifies certificates and stores no password. */
  predicate Safe(conn: Table) {
    CertPolicy in conn && conn[CertPolicy] == Str("strict") && Password in conn && conn[Password] == Str("")
  }

  predicate AllSafe(conns: seq<Table>) { forall i :: 0 <= i < |conns| ==> Safe(conns[i]) }

  lemma FaultlessItems(doc: Json)
    requires Faults(doc, true) == {} && ConnectionsOf(doc).Some?
    ensures AllObjects(ConnectionsOf(doc).value)
  {
    assert Items(doc) == ConnectionsOf(doc).value;
  }

  lemma FaultlessLoadsSafely(p: Profile, doc: Json)
    requires Sane(p) && ProductionKinds(p) && Faults(doc, true) == {} && ConnectionsOf(doc).Some?
    ensures AllSafe(Load(p, [doc]).connections)
  {
    FaultlessItems(doc);
    LoadedLength(p, doc);
    forall i | 0 <= i < |ConnectionsOf(doc).value| ensures Safe(Load(p, [doc]).connections[i]) {
      ProductionConnections(p, doc, i);
    }
  }

  /** The text reader gives nothing, or what the bytes were accepted as. */
  ghost predicate Coherent(w: World) { forall raw :: w.read(raw).Some? ==> w.read(raw) == w.parse(raw) }

  /** The remote layer is in force: the gate is open, and the copy can be read and has a list. */
  predicate CentralInForce(w: World, rt: Runtime) { ConnectionsOf(RemoteLayer(w, rt)).Some? }

  lemma CentralIsSafe(p: Profile, w: World, policy: Policy, factory: Json, media: Json, edits: Json, rt: Runtime)
    requires Sane(p) && ProductionKinds(p) && Coherent(w) && policy.production && GateOk(w, policy, rt)
    requires CentralInForce(w, rt) && ConnectionsOf(edits).None?
    ensures AllSafe(LoadClient(p, w, Readable(policy), factory, media, edits, rt).connections)
  {
    CentralListWins(p, w, factory, media, edits, rt);
    FaultlessLoadsSafely(p, RemoteLayer(w, rt));
  }

  /** A layer whose only connection stores a password. */
  function LaxLayer(): Json { Obj(map[Connections := Arr([Obj(map[Password := Str("secret")])])]) }

  lemma LaxLayerIsUnsafe(p: Profile)
    requires Sane(p) && ProductionKinds(p)
    ensures ConnectionsOf(LaxLayer()).Some?
    ensures |Load(p, [LaxLayer()]).connections| == 1 && !Safe(Load(p, [LaxLayer()]).connections[0])
  {
    var items := [Obj(map[Password := Str("secret")])];
    assert ConnectionsOf(LaxLayer()) == Some(items);
    LoadedConnection(p, LaxLayer(), 0, Password);
    assert "secret" != "";
  }

  /** With the gate open and no central list in force, the image's list is what the client offers. */
  lemma ImageDecides(p: Profile, w: World, policy: Policy, image: Json, edits: Json, rt: Runtime)
    requires Sane(p) && Open(rt.status) && ConnectionsOf(image).Some?
    requires !CentralInForce(w, rt) && ConnectionsOf(edits).None?
    ensures LoadClient(p, w, Readable(policy), image, Null, edits, rt).connections == Load(p, [image]).connections
  {
    LastListWins([image, Null, RemoteLayer(w, rt), edits], [], 0);
    LastListWins([image], [], 0);
  }

  /** The accepted document has a list, and its file can be read as it was accepted. */
  predicate ReadableList(w: World, remote: Option<Bytes>) {
    && remote.Some? && w.parse(remote.value).Some? && Agree(w, remote.value)
    && ConnectionsOf(w.parse(remote.value).value).Some?
  }

  lemma InForceIff(w: World, policy: Policy, rt: Runtime)
    requires Coherent(w) && GateOk(w, policy, rt)
    ensures CentralInForce(w, rt) <==> ReadableList(w, rt.remote)
  {
    if rt.remote.Some? { ReachesLoaderIff(w, policy, rt); }
  }

  /** With the gate open, a list in the local edits is what the client offers, whatever the other layers hold. */
  lemma EditsDecide(p: Profile, w: World, policy: Policy, factory: Json, media: Json, edits: Json, rt: Runtime)
    requires Sane(p) && Open(rt.status) && ConnectionsOf(edits).Some?
    ensures LoadClient(p, w, Readable(policy), factory, media, edits, rt).connections == Load(p, [edits]).connections
  {
    LastListWins([factory, media, RemoteLayer(w, rt), edits], [], 3);
    LastListWins([edits], [], 0);
  }

  /** What an open gate offers is safe whatever image and medium hold: decided by the edits if they have a list. */
  ghost predicate OpenIsSafe(p: Profile, w: World, edits: Json, remote: Option<Bytes>)
    requires Sane(p)
  {
    if ConnectionsOf(edits).Some? then AllSafe(Load(p, [edits]).connections) else ReadableList(w, remote)
  }

  /** Does a client offer only safe connections, whatever its image and medium hold? */
  ghost predicate AlwaysSafe(p: Profile, w: World, policy: Policy, edits: Json, rt: Runtime)
    requires Sane(p)
  {
    forall factory, media :: AllSafe(LoadClient(p, w, Readable(policy), factory, media, edits, rt).connections)
  }

  lemma EditedClient(p: Profile, w: World, policy: Policy, edits: Json, rt: Runtime)
    requires Sane(p) && policy.required && Open(rt.status) && ConnectionsOf(edits).Some?
    ensures AlwaysSafe(p, w, policy, edits, rt) <==> AllSafe(Load(p, [edits]).connections)
  {
    forall factory, media
      ensures LoadClient(p, w, Readable(policy), factory, media, edits, rt).connections == Load(p, [edits]).connections
    {
      EditsDecide(p, w, policy, factory, media, edits, rt);
    }
    assert AllSafe(LoadClient(p, w, Readable(policy), Null, Null, edits, rt).connections)
      <==> AllSafe(Load(p, [edits]).connections);
  }

  lemma UneditedClient(p: Profile, w: World, policy: Policy, edits: Json, rt: Runtime)
    requires Sane(p) && ProductionKinds(p) && Coherent(w) && GateOk(w, policy, rt)
    requires policy.required && policy.production && Open(rt.status) && ConnectionsOf(edits).None?
    ensures AlwaysSafe(p, w, policy, edits, rt) <==> ReadableList(w, rt.remote)
  {
    InForceIff(w, policy, rt);
    if CentralInForce(w, rt) {
      forall factory, media
        ensures AllSafe(LoadClient(p, w, Readable(policy), factory, media, edits, rt).connections)
      {
        CentralIsSafe(p, w, policy, factory, media, edits, rt);
      }
    } else {
      LaxLayerIsUnsafe(p);
      ImageDecides(p, w, policy, LaxLayer(), edits, rt);
      assert !AllSafe(LoadClient(p, w, Readable(policy), LaxLayer(), Null, edits, rt).connections);
    }
  }

  /**
   When a client under a required production policy offers only connections that verify
   certificates and store no password, whatever its image and medium hold: exactly when the
   gate is shut, or local edits have a safe list, or they have none and the accepted document
   has one and can be read as it was accepted.
   */
  lemma ProductionClient(p: Profile, w: World, policy: Policy, steps: seq<Step>, edits: Json)
    requires Sane(p) && ProductionKinds(p) && Coherent(w) && policy.required && policy.production
    ensures var rt := After(w, policy, FRESH, steps);
            AlwaysSafe(p, w, policy, edits, rt) <==> !Open(rt.status) || OpenIsSafe(p, w, edits, rt.remote)
  {
    var rt := After(w, policy, FRESH, steps);
    GateRun(w, policy, FRESH, steps);
    if Open(rt.status) {
      if ConnectionsOf(edits).Some? {
        EditedClient(p, w, policy, edits, rt);
      } else {
        UneditedClient(p, w, policy, edits, rt);
      }
    }
  }

  /** A local edit that stores a password is offered through any open gate, however strict the central document. */
  lemma EditsSlipThrough(p: Profile, w: World, policy: Policy, factory: Json, media: Json, rt: Runtime)
    requires Sane(p) && ProductionKinds(p) && Open(rt.status)
    ensures var conns := LoadClient(p, w, Readable(policy), factory, media, LaxLayer(), rt).connections;
            |conns| == 1 && !Safe(conns[0])
  {
    LaxLayerIsUnsafe(p);
    EditsDecide(p, w, policy, factory, media, LaxLayer(), rt);
  }

  // ------------------------------------------------------------ byte order marks --

  /**
   An accepted document that cannot be read again opens the gate for the other layers; the
   next failing fetch shuts it although nothing changed.
   */
  lemma UnreadableCopy(p: Profile, w: World, policy: Policy, arg: string, o: Outcome, outage: Outcome,
                       factory: Json, media: Json, edits: Json)
    requires Sane(p) && policy.required
    requires Accepted(w, policy, Url(policy, arg), o).Some? && w.read(o.payload.value).None? && o.tidied
    requires Accepted(w, policy, Url(policy, arg), outage).None?
    ensures var fetched := Do(w, policy, FRESH, Step(arg, o, Whole));
            var shut := Do(w, policy, fetched, Step(arg, outage, Whole));
            && fetched.status.value.state == Current && fetched.remote == shut.remote == o.payload
            && LoadClient(p, w, Readable(policy), factory, media, edits, fetched) ==
                Load(p, [factory, media, Null, edits])
            && shut.status.value.state == Unavailable
            && LoadClient(p, w, Readable(policy), factory, media, edits, shut).connections == []
  {
  }

  const BOM: char := '\U{feff}'

  /** A server whose only document is saved with a byte order mark: the bytes decode, the text does not. */
  function BomWorld(doc: Json): World {
    World(url => Some(Address("https", "server", "", "")),
          raw => if raw != [] && raw[0] == BOM then Some(doc) else None,
          raw => None,
          (key, raw, signature) => true,
          raw => raw)
  }

  const ARRIVED := Outcome(Some([BOM]), Some(""), true, true, true, true, true, false)

  lemma BomAccepted(doc: Json, policy: Policy)
    requires Faults(doc, policy.production) == {} && policy.url != ""
    ensures Accepted(BomWorld(doc), policy, policy.url, ARRIVED) == Some([BOM])
    ensures Admitted(BomWorld(doc), policy, [BOM])
  {
    AcceptedIsAdmitted(BomWorld(doc), policy, policy.url, ARRIVED);
  }

  lemma BomFetched(doc: Json, policy: Policy)
    requires Faults(doc, policy.production) == {} && policy.url != ""
    ensures var rt := Do(BomWorld(doc), policy, FRESH, Step("", ARRIVED, Whole));
            rt.remote == Some([BOM]) && Open(rt.status) && RemoteLayer(BomWorld(doc), rt) == Null
  {
    BomAccepted(doc, policy);
  }

  /**
   Such a document passes every check, production rules included, and the client then
   offers what the image has, stored passwords included.
   */
  lemma BomOffersImage(p: Profile, doc: Json, policy: Policy)
    requires Sane(p) && ProductionKinds(p)
    requires policy.required && Faults(doc, policy.production) == {} && policy.url != ""
    ensures var w := BomWorld(doc);
            var rt := Do(w, policy, FRESH, Step("", ARRIVED, Whole));
            var conns := LoadClient(p, w, Readable(policy), LaxLayer(), Null, Null, rt).connections;
            && rt.remote == Some([BOM]) && Admitted(w, policy, [BOM])
            && |conns| == 1 && !Safe(conns[0])
  {
    var w, rt := BomWorld(doc), Do(BomWorld(doc), policy, FRESH, Step("", ARRIVED, Whole));
    BomAccepted(doc, policy);
    BomFetched(doc, policy);
    LaxLayerIsUnsafe(p);
    ImageDecides(p, w, policy, LaxLayer(), Null, rt);
  }

  lemma ThinClientProduction()
    ensures ProductionKinds(ConfigTables.THINCLIENT)
  {
  }
}
