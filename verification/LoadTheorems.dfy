/** Every key of every loaded configuration, told from the layers by the meaning of values alone. */
module LoadTheorems {
  import opened Prelude
  import opened Text
  import opened Config
  import opened ConfigProofs
  import opened ConfigTables
  import opened LoadMeaning

  // --------------------------------------------------------------- one table --

  /** What the value under this key means if it means anything, else the default. */
  ghost predicate Settles(k: Kind, t: Table, key: Key, default: Json, r: Json) {
    if key in t && Meaningful(k, t[key]) then Means(k, t[key], r) else r == default
  }

  lemma SettingMeans(k: Kind, v: Json, default: Json)
    ensures if Meaningful(k, v) then Means(k, v, Setting(k, v, default)) else Setting(k, v, default) == default
  {
    MeaningfulIff(k, v);
    if Valid(k, v) { MeaningIff(k, v, Canonical(k, v)); }
  }

  lemma SettingSettles(k: Kind, t: Table, key: Key, default: Json)
    ensures Settles(k, t, key, default, Setting(k, Get(t, key), default))
  {
    if key in t { SettingMeans(k, t[key], default); }
  }

  // -------------------------------------------------------------- connections --

  /** The loader looks at a connection's protocol for its port. */
  predicate Protocols(p: Profile) {
    && Protocol in p.connection && p.connection[Protocol] == Choice(p.protocols)
    && Protocol in p.connectionDefaults && p.connectionDefaults[Protocol] == Str("rdp")
  }

  predicate HasList(layer: Json) {
    layer.Obj? && Connections in layer.fields && layer.fields[Connections].Arr?
  }

  predicate LastWithList(layers: seq<Json>, i: int) {
    0 <= i < |layers| && HasList(layers[i]) && forall j :: i < j < |layers| ==> !HasList(layers[j])
  }

  /** Is this the last connection list that a layer has, or none when no layer has any? */
  ghost predicate LastList(layers: seq<Json>, items: seq<Json>) {
    || (exists i :: LastWithList(layers, i) && items == layers[i].fields[Connections].items)
    || (items == [] && forall j :: 0 <= j < |layers| ==> !HasList(layers[j]))
  }

  lemma LastListIs(layers: seq<Json>, items: seq<Json>)
    requires LastList(layers, items)
    ensures items == MergeConnections(layers)
  {
    if i :| LastWithList(layers, i) && items == layers[i].fields[Connections].items {
      LastListWins(layers, [], i);
    } else {
      NoLaterList(layers, []);
    }
  }

  /** The objects of a list, in order. */
  function ObjectsOf(items: seq<Json>): seq<Table> {
    if items == [] then []
    else
      var n := |items| - 1;
      ObjectsOf(items[..n]) + (if items[n].Obj? then [items[n].fields] else [])
  }

  lemma {:induction false} NormaliseAllSnoc(p: Profile, items: seq<Json>, last: Json)
    requires Sane(p)
    ensures NormaliseAll(p, items + [last]) ==
            NormaliseAll(p, items) + (if last.Obj? then [NormaliseConnection(p, last.fields)] else [])
  {
    var all, one := items + [last], if last.Obj? then [NormaliseConnection(p, last.fields)] else [];
    if items == [] {
      assert all[1..] == [];
    } else {
      NormaliseAllSnoc(p, items[1..], last);
      assert all[1..] == items[1..] + [last] && all[0] == items[0];
      assert NormaliseAll(p, all[1..]) == NormaliseAll(p, items[1..]) + one;
    }
  }

  lemma {:induction false} ObjectsNormalised(p: Profile, items: seq<Json>)
    requires Sane(p)
    ensures var raw, conns := ObjectsOf(items), NormaliseAll(p, items);
            |conns| == |raw| && forall i :: 0 <= i < |raw| ==> conns[i] == NormaliseConnection(p, raw[i])
  {
    if items != [] {
      var n := |items| - 1;
      ObjectsNormalised(p, items[..n]);
      NormaliseAllSnoc(p, items[..n], items[n]);
      assert items == items[..n] + [items[n]];
    }
  }

  /** Known settings other than the id, the name and the port. */
  ghost predicate SettingsTold(p: Profile, raw: Table, conn: Table)
    requires Sane(p)
  {
    forall key :: key in p.connection && key != Id && key != Name && key != Port ==>
      key in conn && Settles(p.connection[key], raw, key, p.connectionDefaults[key], conn[key])
  }

  /** A number is clamped into the range of ports; without one the connection's own protocol decides. */
  ghost predicate PortTold(p: Profile, raw: Table, conn: Table) {
    && Port in conn && conn[Port].Int? && Protocol in conn
    && (forall n :: Port in raw && Denotes(raw[Port], n) ==> Clamped(1, 65535, n, conn[Port].i))
    && ((forall n :: Port in raw ==> !Denotes(raw[Port], n)) ==>
          conn[Port].i == if conn[Protocol] == Str("vnc") then p.vncPort else p.rdpPort)
  }

  /** The text under a key without the space around it, or the default's. */
  function TextOf(t: Table, key: Key, defaults: Table): string {
    if key in t && t[key].Str? then Strip(t[key].s) else GetStr(defaults, key)
  }

  /** A connection without a name is named after its host, and without that after its id. */
  predicate NameTold(p: Profile, raw: Table, conn: Table) {
    && Id in conn && Host in conn && Name in conn
    && conn[Id].Str? && conn[Id].s != "" && conn[Host].Str?
    && var own := TextOf(raw, Name, p.connectionDefaults);
       && (own != "" ==> conn[Name] == Str(own))
       && (own == "" && conn[Host].s != "" ==> conn[Name] == conn[Host])
       && (own == "" && conn[Host].s == "" ==> conn[Name] == conn[Id])
  }

  /** Keys the loader does not know are kept. */
  predicate OthersKept(p: Profile, raw: Table, conn: Table) {
    forall key :: key in raw && key !in p.connection ==> key in conn && conn[key] == raw[key]
  }

  ghost predicate Told(p: Profile, raw: Table, conn: Table)
    requires Sane(p)
  {
    SettingsTold(p, raw, conn) && PortTold(p, raw, conn) && NameTold(p, raw, conn) && OthersKept(p, raw, conn)
  }

  /** The ids the connections ask for. */
  function Wanted(p: Profile, raw: seq<Table>): (ids: seq<string>)
    ensures |ids| == |raw| && forall i :: 0 <= i < |raw| ==> ids[i] == TextOf(raw[i], Id, p.connectionDefaults)
  {
    seq(|raw|, i requires 0 <= i < |raw| => TextOf(raw[i], Id, p.connectionDefaults))
  }

  lemma SettingOf(p: Profile, raw: Table, id: string, key: Key)
    requires Sane(p) && key in p.connection && key != Id && key != Name && key != Port
    ensures var conn := Finished(NormaliseConnection(p, raw), id);
            key in conn && conn[key] == Setting(p.connection[key], Get(raw, key), p.connectionDefaults[key])
  {
  }

  lemma SettingsAreTold(p: Profile, raw: Table, conn: Table, id: string)
    requires Sane(p) && conn == Finished(NormaliseConnection(p, raw), id)
    ensures SettingsTold(p, raw, conn)
  {
    forall key | key in p.connection && key != Id && key != Name && key != Port
      ensures key in conn && Settles(p.connection[key], raw, key, p.connectionDefaults[key], conn[key])
    {
      SettingOf(p, raw, id, key);
      SettingSettles(p.connection[key], raw, key, p.connectionDefaults[key]);
    }
  }

  lemma OthersAreKept(p: Profile, raw: Table, id: string)
    requires Sane(p)
    ensures OthersKept(p, raw, Finished(NormaliseConnection(p, raw), id))
  {
  }

  lemma PortIsTold(p: Profile, raw: Table, id: string)
    requires Sane(p) && Protocols(p)
    ensures PortTold(p, raw, Finished(NormaliseConnection(p, raw), id))
  {
    var conn, v := Finished(NormaliseConnection(p, raw), id), Get(raw, Port);
    assert conn[Port] == Setting(Range(1, 65535), v, Int(DefaultPort(p, raw)));
    assert conn[Protocol] == Setting(Choice(p.protocols), Get(raw, Protocol), Str("rdp"));
    forall n | Denotes(v, n) ensures Clamped(1, 65535, n, conn[Port].i) {
      NumberIff(v, n);
    }
    if Number(v).Some? { NumberIff(v, Number(v).value); }
  }

  lemma TextSetting(t: Table, key: Key, defaults: Table)
    requires key in defaults && Normal(TEXT, defaults[key])
    ensures Setting(TEXT, Get(t, key), defaults[key]) == Str(TextOf(t, key, defaults))
  {
  }

  lemma TextsNormalised(p: Profile, raw: Table, conn: Table, key: Key)
    requires Sane(p) && conn == NormaliseConnection(p, raw) && key in {Id, Name, Host}
    ensures key in conn && conn[key] == Str(TextOf(raw, key, p.connectionDefaults))
  {
    TextSetting(raw, key, p.connectionDefaults);
    assert conn[key] == Setting(TEXT, Get(raw, key), p.connectionDefaults[key]);
  }

  lemma NameIsTold(p: Profile, raw: Table, id: string)
    requires Sane(p) && id != ""
    ensures NameTold(p, raw, Finished(NormaliseConnection(p, raw), id))
    ensures GetStr(NormaliseConnection(p, raw), Id) == TextOf(raw, Id, p.connectionDefaults)
    ensures GetStr(Finished(NormaliseConnection(p, raw), id), Id) == id
  {
    var conn := NormaliseConnection(p, raw);
    TextsNormalised(p, raw, conn, Id);
    TextsNormalised(p, raw, conn, Name);
    TextsNormalised(p, raw, conn, Host);
  }

  /**
   Every loaded connection is told from one object of the last list, in order: its settings
   from what their values mean, its port from a number or its own protocol, its name from its
   name, host or id; and the ids are assigned to what the objects ask for.
   */
  lemma LoadedConnections(p: Profile, layers: seq<Json>, items: seq<Json>)
    requires Sane(p) && Protocols(p) && LastList(layers, items)
    ensures var raw, conns := ObjectsOf(items), Load(p, layers).connections;
            && |conns| == |raw|
            && (forall i :: 0 <= i < |raw| ==> Told(p, raw[i], conns[i]))
            && Assigned(Wanted(p, raw), IdsOf(conns), Explicit(Wanted(p, raw)), {})
  {
    LastListIs(layers, items);
    ObjectsNormalised(p, items);
    var raw, normal, conns := ObjectsOf(items), NormaliseAll(p, items), Load(p, layers).connections;
    var ids := AssignIds(IdsOf(normal));
    IdsAssigned(IdsOf(normal));
    forall i | 0 <= i < |raw|
      ensures Told(p, raw[i], conns[i]) && IdsOf(conns)[i] == ids[i] && IdsOf(normal)[i] == Wanted(p, raw)[i]
    {
      assert conns[i] == Finished(NormaliseConnection(p, raw[i]), ids[i]);
      SettingsAreTold(p, raw[i], conns[i], ids[i]);
      OthersAreKept(p, raw[i], ids[i]);
      PortIsTold(p, raw[i], ids[i]);
      NameIsTold(p, raw[i], ids[i]);
    }
    assert IdsOf(normal) == Wanted(p, raw) && IdsOf(conns) == ids;
  }

  // ------------------------------------------------------------------- device --

  /** Does the layer's device section have this key? */
  predicate Gives(layer: Json, key: Key) {
    && layer.Obj? && Device in layer.fields && layer.fields[Device].Obj?
    && key in layer.fields[Device].fields
  }

  function Given(layer: Json, key: Key): Json
    requires Gives(layer, key)
  {
    layer.fields[Device].fields[key]
  }

  ghost predicate Usable(k: Kind, layer: Json, key: Key) {
    Gives(layer, key) && Meaningful(k, Given(layer, key))
  }

  /** Is this the last layer with a meaningful value? */
  ghost predicate Decides(k: Kind, layers: seq<Json>, key: Key, i: int) {
    0 <= i < |layers| && Usable(k, layers[i], key) && forall j :: i < j < |layers| ==> !Usable(k, layers[j], key)
  }

  /** The meaning of the last meaningful value, or the default when there is none. */
  ghost predicate LastMeaning(k: Kind, layers: seq<Json>, key: Key, default: Json, r: Json) {
    || (exists i :: Decides(k, layers, key, i) && Means(k, Given(layers[i], key), r))
    || (r == default && forall j :: 0 <= j < |layers| ==> !Usable(k, layers[j], key))
  }

  lemma GivesIff(layer: Json, key: Key)
    ensures Gives(layer, key) <==> DeviceOf(layer).Some? && key in DeviceOf(layer).value
    ensures Gives(layer, key) ==> Given(layer, key) == DeviceOf(layer).value[key]
  {
  }

  lemma UsableIff(k: Kind, layer: Json, key: Key)
    ensures Usable(k, layer, key) <==> Supplies(k, layer, key)
  {
    GivesIff(layer, key);
    if Gives(layer, key) {
      var v := Given(layer, key);
      MeaningfulIff(k, v);
      assert Usable(k, layer, key) <==> Meaningful(k, v);
    }
  }

  lemma {:induction false} LastTrue(flags: seq<bool>) returns (i: int)
    ensures -1 <= i < |flags| && (i >= 0 ==> flags[i]) && forall j :: i < j < |flags| ==> !flags[j]
    decreases |flags|
  {
    i := |flags| - 1;
    if flags != [] && !flags[i] {
      i := LastTrue(flags[..i]);
    }
  }

  lemma MergedMeaning(fields: Fields, defaults: Table, layers: seq<Json>, key: Key)
    requires Fits(fields, defaults) && key in fields
    ensures key in Merge(fields, defaults, layers)
    ensures LastMeaning(fields[key], layers, key, defaults[key], Merge(fields, defaults, layers)[key])
  {
    var k := fields[key];
    var flags := seq(|layers|, j requires 0 <= j < |layers| => Usable(k, layers[j], key));
    var i := LastTrue(flags);
    assert forall j :: 0 <= j < |layers| ==> flags[j] == Usable(k, layers[j], key);
    forall j | 0 <= j < |layers| ensures Usable(k, layers[j], key) <==> Supplies(k, layers[j], key) {
      UsableIff(k, layers[j], key);
    }
    if i == -1 {
      DefaultOtherwise(fields, defaults, layers, key);
    } else {
      GivesIff(layers[i], key);
      LastValidWins(fields, defaults, layers, key, i);
      MeaningIff(k, Given(layers[i], key), Canonical(k, Given(layers[i], key)));
    }
  }

  /**
   Every known device setting of a load is the meaning of the last meaningful value any
   layer gives it, or its default; the connection to open automatically is that value if
   such a connection was loaded, else none.
   */
  lemma LoadedDevice(p: Profile, layers: seq<Json>, key: Key)
    requires Sane(p) && key in p.device
    ensures key in Load(p, layers).device
    ensures key != AutoConnect ==>
              LastMeaning(p.device[key], layers, key, p.deviceDefaults[key], Load(p, layers).device[key])
    ensures key == AutoConnect ==>
              exists r: Json ::
                && LastMeaning(TEXT, layers, key, p.deviceDefaults[key], r)
                && Load(p, layers).device[key] ==
                   if r.Str? && r.s in IdsOf(Load(p, layers).connections) then r else Str("")
  {
    MergedMeaning(p.device, p.deviceDefaults, layers, key);
    var merged, ids := Merge(p.device, p.deviceDefaults, layers), IdsOf(Load(p, layers).connections);
    assert Load(p, layers).device == Referential(merged, ids);
    if key == AutoConnect {
      MergeFits(p.device, p.deviceDefaults, layers);
      var r := merged[key];
      assert Normal(TEXT, r);
      assert Referential(merged, ids)[key] == if r.s in ids then r else Str("");
    }
  }

  // ------------------------------------------------------------- thin client --

  lemma ThinClientProtocols()
    ensures Protocols(THINCLIENT)
  {
  }

  /** Without a port of its own a VNC connection gets 5900, every other one 3389. */
  lemma ThinClientPorts(layers: seq<Json>, items: seq<Json>, i: nat)
    requires LastList(layers, items) && i < |ObjectsOf(items)|
    requires forall n :: Port in ObjectsOf(items)[i] ==> !Denotes(ObjectsOf(items)[i][Port], n)
    ensures Sane(THINCLIENT) && i < |Load(THINCLIENT, layers).connections|
    ensures var conn := Load(THINCLIENT, layers).connections[i];
            && Port in conn && Protocol in conn
            && (conn[Protocol] == Str("vnc") ==> conn[Port] == Int(5900))
            && (conn[Protocol] != Str("vnc") ==> conn[Port] == Int(3389))
  {
    ThinClientIsSane();
    ThinClientProtocols();
    LoadedConnections(THINCLIENT, layers, items);
  }
}
