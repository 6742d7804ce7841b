/** Idempotence of the normal form, id assignment, and which layer's value wins. */
module ConfigProofs {
  import opened Text
  import opened Config

  // ---------------------------------------------------------- normal values --

  lemma FoldedFixed(s: string)
    ensures Folded(Folded(s)) == Folded(s)
  {
    StripTrims(s);
    LowerTrimmed(Strip(s));
    StripTrims(Lower(Strip(s)));
    LowerLower(Strip(s));
  }

  lemma {:induction false} CleanWordsFixed(items: seq<Json>)
    ensures CleanWords(CleanWords(items)) == CleanWords(items)
  {
    if items != [] {
      CleanWordsFixed(items[1..]);
      if items[0].Str? && Strip(items[0].s) != "" {
        StripTrims(items[0].s);
        StripTrims(Strip(items[0].s));
        assert CleanWords(items)[1..] == CleanWords(items[1..]);
      } else {
        assert CleanWords(items) == CleanWords(items[1..]);
      }
    }
  }

  /** Normalising a value twice is normalising it once. */
  lemma CanonicalIsNormal(k: Kind, v: Json)
    requires Valid(k, v)
    ensures Normal(k, Canonical(k, v))
  {
    match k
    case Text(_) => StripTrims(v.s); StripTrims(Strip(v.s));
    case Flag =>
    case Range(_, _) =>
    case Choice(_) => FoldedFixed(v.s);
    case Display => FoldedFixed(v.s);
    case Words => CleanWordsFixed(v.items);
  }

  lemma SettingIsNormal(k: Kind, v: Json, default: Json)
    requires Normal(k, default)
    ensures Normal(k, Setting(k, v, default))
    ensures Normal(k, v) ==> Setting(k, v, default) == v
  {
    if Valid(k, v) { CanonicalIsNormal(k, v); }
  }

  lemma TextIsNormal(strip: bool, s: string)
    requires Trimmed(s)
    ensures Normal(Text(strip), Str(s))
  {
    StripTrims(s);
  }

  lemma FoldedWord(s: string)
    requires Trimmed(s) && forall i :: 0 <= i < |s| ==> !('A' <= s[i] <= 'Z')
    ensures Folded(s) == s
  {
    StripTrims(s);
  }

  // ------------------------------------------------------------------ tables --

  /** A normalised table fits its fields, and one that fits is left alone. */
  lemma NormaliseFits(fields: Fields, t: Table, fallback: Table)
    requires Fits(fields, fallback)
    ensures Fits(fields, Normalise(fields, t, fallback))
    ensures Fits(fields, t) ==> Normalise(fields, t, fallback) == t
  {
    forall k | k in fields
      ensures Normal(fields[k], Setting(fields[k], Get(t, k), fallback[k]))
      ensures k in t && Normal(fields[k], t[k]) ==> Setting(fields[k], Get(t, k), fallback[k]) == t[k]
    {
      SettingIsNormal(fields[k], Get(t, k), fallback[k]);
    }
  }

  // ------------------------------------------------------------------- merge --

  lemma MergeLayerFits(fields: Fields, previous: Table, layer: Json)
    requires Fits(fields, previous)
    ensures Fits(fields, MergeLayer(fields, previous, layer))
  {
    var section := DeviceOf(layer);
    if section.Some? { NormaliseFits(fields, previous + section.value, previous); }
  }

  lemma {:induction false} MergeFits(fields: Fields, previous: Table, layers: seq<Json>)
    requires Fits(fields, previous)
    ensures Fits(fields, Merge(fields, previous, layers))
    decreases |layers|
  {
    if layers != [] {
      MergeLayerFits(fields, previous, layers[0]);
      MergeFits(fields, MergeLayer(fields, previous, layers[0]), layers[1..]);
    }
  }

  /** Does this layer supply a usable value for the key? */
  predicate Supplies(kind: Kind, layer: Json, key: Key) {
    DeviceOf(layer).Some? && key in DeviceOf(layer).value && Valid(kind, DeviceOf(layer).value[key])
  }

  lemma MergedKey(fields: Fields, previous: Table, layer: Json, key: Key)
    requires Fits(fields, previous) && key in fields
    ensures MergeLayer(fields, previous, layer)[key] ==
            if Supplies(fields[key], layer, key) then Canonical(fields[key], DeviceOf(layer).value[key])
                else previous[key]
  {
    assert Normal(fields[key], previous[key]);
  }

  /** No usable value anywhere: the key keeps what the layers started from. */
  lemma {:induction false} DefaultOtherwise(fields: Fields, previous: Table, layers: seq<Json>, key: Key)
    requires Fits(fields, previous) && key in fields
    requires forall j :: 0 <= j < |layers| ==> !Supplies(fields[key], layers[j], key)
    ensures key in Merge(fields, previous, layers) && Merge(fields, previous, layers)[key] == previous[key]
    decreases |layers|
  {
    if layers != [] {
      MergedKey(fields, previous, layers[0], key);
      MergeLayerFits(fields, previous, layers[0]);
      DefaultOtherwise(fields, MergeLayer(fields, previous, layers[0]), layers[1..], key);
    }
  }

  /**
   Last valid value wins: a known key has the normalised value of the last layer that
   supplies a usable one, whatever unusable values later layers hold.
   */
  lemma {:induction false} LastValidWins(fields: Fields, previous: Table, layers: seq<Json>, key: Key, i: nat)
    requires Fits(fields, previous) && key in fields && i < |layers| && Supplies(fields[key], layers[i], key)
    requires forall j :: i < j < |layers| ==> !Supplies(fields[key], layers[j], key)
    ensures key in Merge(fields, previous, layers)
    ensures Merge(fields, previous, layers)[key] == Canonical(fields[key], DeviceOf(layers[i]).value[key])
    decreases |layers|
  {
    var first := MergeLayer(fields, previous, layers[0]);
    MergeLayerFits(fields, previous, layers[0]);
    if i == 0 {
      MergedKey(fields, previous, layers[0], key);
      DefaultOtherwise(fields, first, layers[1..], key);
    } else {
      LastValidWins(fields, first, layers[1..], key, i - 1);
    }
  }

  lemma {:induction false} NoLaterList(layers: seq<Json>, previous: seq<Json>)
    requires forall j :: 0 <= j < |layers| ==> ConnectionsOf(layers[j]).None?
    ensures MergeConnections(layers, previous) == previous
    decreases |layers|
  {
    if layers != [] { NoLaterList(layers[1..], previous); }
  }

  /** Connections are never merged: the last list replaces all earlier ones. */
  lemma {:induction false} LastListWins(layers: seq<Json>, previous: seq<Json>, i: nat)
    requires i < |layers| && ConnectionsOf(layers[i]).Some?
    requires forall j :: i < j < |layers| ==> ConnectionsOf(layers[j]).None?
    ensures MergeConnections(layers, previous) == ConnectionsOf(layers[i]).value
    decreases |layers|
  {
    var section := ConnectionsOf(layers[0]);
    if i == 0 {
      NoLaterList(layers[1..], section.value);
    } else {
      LastListWins(layers[1..], if section.Some? then section.value else previous, i - 1);
    }
  }

  // --------------------------------------------------------------------- ids --

  ghost predicate AllDistinct(ids: seq<string>) { forall i, j :: 0 <= i < j < |ids| ==> ids[i] != ids[j] }

  /** Is position `i` the first holder of an explicit id that nobody outside has used? */
  predicate FirstHolder(ids: seq<string>, used: set<string>, i: nat)
    requires i < |ids|
  {
    ids[i] != "" && ids[i] !in used && ids[i] !in ids[..i]
  }

  ghost predicate Assigned(ids: seq<string>, out: seq<string>, reserved: set<string>, used: set<string>) {
    && |out| == |ids| && AllDistinct(out)
    && (forall i :: 0 <= i < |out| ==> out[i] != "" && out[i] !in used)
    && (forall i :: 0 <= i < |ids| && FirstHolder(ids, used, i) ==> out[i] == ids[i])
    && (forall i :: 0 <= i < |ids| && !FirstHolder(ids, used, i) ==>
          out[i] !in reserved && exists n: nat :: out[i] == Generated(n))
  }

  lemma {:induction false} AssignCorrect(ids: seq<string>, reserved: set<string>, used: set<string>, next: nat)
    requires forall i :: 0 <= i < |ids| && ids[i] != "" ==> ids[i] in reserved
    ensures Assigned(ids, Assign(ids, reserved, used, next), reserved, used)
    decreases |ids|
  {
    if ids != [] {
      var keep := ids[0] != "" && ids[0] !in used;
      var n := NextFree(reserved + used, next);
      var first := if keep then ids[0] else Generated(n);
      var rest := Assign(ids[1..], reserved, used + {first}, if keep then next else n + 1);
      AssignCorrect(ids[1..], reserved, used + {first}, if keep then next else n + 1);
      assert Assign(ids, reserved, used, next) == [first] + rest;
      AssignCons(ids, reserved, used, first, rest);
    }
  }

  lemma AssignCons(ids: seq<string>, reserved: set<string>, used: set<string>, first: string, rest: seq<string>)
    requires ids != [] && (forall i :: 0 <= i < |ids| && ids[i] != "" ==> ids[i] in reserved)
    requires first != "" && first !in used
    requires if ids[0] != "" && ids[0] !in used then first == ids[0]
             else first !in reserved && exists n: nat :: first == Generated(n)
    requires Assigned(ids[1..], rest, reserved, used + {first})
    ensures Assigned(ids, [first] + rest, reserved, used)
  {
    var out := [first] + rest;
    forall i | 0 < i < |ids| ensures FirstHolder(ids, used, i) <==> FirstHolder(ids[1..], used + {first}, i - 1) {
      assert ids[..i] == [ids[0]] + ids[1..][..i - 1];
    }
    assert FirstHolder(ids, used, 0) <==> ids[0] != "" && ids[0] !in used;
    forall i | 0 <= i < |ids|
      ensures FirstHolder(ids, used, i) ==> out[i] == ids[i]
      ensures !FirstHolder(ids, used, i) ==> out[i] !in reserved && exists n: nat :: out[i] == Generated(n)
    {
      if i > 0 { assert out[i] == rest[i - 1] && ids[i] == ids[1..][i - 1]; }
    }
  }

  /**
   Ids are non-empty and pairwise distinct, the first holder of an explicit id keeps
   it, and nobody else receives an id that some connection asked for.
   */
  lemma IdsAssigned(ids: seq<string>)
    ensures Assigned(ids, AssignIds(ids), Explicit(ids), {})
  {
    AssignCorrect(ids, Explicit(ids), {}, 1);
  }

  /** Every number from 1 up to this one has its id taken. */
  ghost predicate TakenBelow(taken: set<string>, n: int) {
    forall k: nat :: 1 <= k < n ==> Generated(k) in taken
  }

  function Elements(ids: seq<string>): set<string> { set x | x in ids }

  /** Is this the id of the least number, from 1 on, that was free when position `i` was reached? */
  ghost predicate Least(out: seq<string>, taken: set<string>, i: nat)
    requires i < |out|
  {
    exists n: nat :: n >= 1 && out[i] == Generated(n) && TakenBelow(taken + Elements(out[..i]), n)
  }

  lemma LeastFirst(first: string, rest: seq<string>, taken: set<string>, n: nat)
    requires n >= 1 && first == Generated(n) && TakenBelow(taken, n)
    ensures Least([first] + rest, taken, 0)
  {
    var out := [first] + rest;
    assert out[..0] == [];
    assert taken + Elements(out[..0]) == taken;
  }

  lemma LeastLater(first: string, rest: seq<string>, taken: set<string>, i: nat)
    requires i < |rest| && Least(rest, taken + {first}, i)
    ensures Least([first] + rest, taken, i + 1)
  {
    var out := [first] + rest;
    assert out[..i + 1] == [first] + rest[..i];
    assert taken + {first} + Elements(rest[..i]) == taken + Elements(out[..i + 1]);
  }

  lemma {:induction false} AssignLeast(ids: seq<string>, reserved: set<string>, used: set<string>, next: nat, i: nat)
    requires i < |ids| && !FirstHolder(ids, used, i) && next >= 1 && TakenBelow(reserved + used, next)
    ensures i < |Assign(ids, reserved, used, next)| && Least(Assign(ids, reserved, used, next), reserved + used, i)
    decreases |ids|
  {
    var keep := ids[0] != "" && ids[0] !in used;
    var n := NextFree(reserved + used, next);
    var first := if keep then ids[0] else Generated(n);
    var later := if keep then next else n + 1;
    var rest := Assign(ids[1..], reserved, used + {first}, later);
    assert Assign(ids, reserved, used, next) == [first] + rest;
    if i == 0 {
      assert ids[..0] == [];
      LeastFirst(first, rest, reserved + used, n);
    } else {
      assert ids[..i] == [ids[0]] + ids[1..][..i - 1];
      AssignLeast(ids[1..], reserved, used + {first}, later, i - 1);
      assert reserved + (used + {first}) == reserved + used + {first};
      LeastLater(first, rest, reserved + used, i - 1);
    }
  }

  /** A connection that keeps no id of its own gets the least number, from 1 on, that nobody holds or asked for. */
  lemma LeastNumberAssigned(ids: seq<string>, i: nat)
    requires i < |ids| && !FirstHolder(ids, {}, i)
    ensures i < |AssignIds(ids)| && Least(AssignIds(ids), Explicit(ids), i)
  {
    AssignLeast(ids, Explicit(ids), {}, 1, i);
    assert Explicit(ids) + {} == Explicit(ids);
  }

  lemma {:induction false} AssignFixed(ids: seq<string>, reserved: set<string>, used: set<string>, next: nat)
    requires AllDistinct(ids) && forall i :: 0 <= i < |ids| ==> ids[i] != "" && ids[i] !in used
    ensures Assign(ids, reserved, used, next) == ids
    decreases |ids|
  {
    if ids != [] {
      AssignFixed(ids[1..], reserved, used + {ids[0]}, next);
    }
  }

  // ------------------------------------------------------------- connections --

  lemma ConnectionIsNormal(p: Profile, raw: Table)
    requires Sane(p)
    ensures Fits(p.connection, NormaliseConnection(p, raw))
    ensures Fits(p.connection, raw) ==> NormaliseConnection(p, raw) == raw
  {
    NormaliseFits(p.connection, raw, ConnectionDefaults(p, raw));
  }

  ghost predicate AllNormal(p: Profile, conns: seq<Table>) {
    forall i :: 0 <= i < |conns| ==> Fits(p.connection, conns[i])
  }

  lemma {:induction false} AllAreNormal(p: Profile, raw: seq<Json>)
    requires Sane(p)
    ensures AllNormal(p, NormaliseAll(p, raw))
  {
    if raw != [] {
      AllAreNormal(p, raw[1..]);
      if raw[0].Obj? { ConnectionIsNormal(p, raw[0].fields); }
    }
  }

  lemma NormaliseCons(p: Profile, raw: seq<Json>, rest: seq<Json>)
    requires Sane(p) && raw != [] && raw[0].Obj? && rest == raw[1..]
    ensures NormaliseAll(p, raw) == [NormaliseConnection(p, raw[0].fields)] + NormaliseAll(p, rest)
  {
  }

  lemma WrapCons(conns: seq<Table>, raw: seq<Json>)
    requires conns != [] && raw == Wrap(conns)
    ensures raw[0] == Obj(conns[0]) && raw[1..] == Wrap(conns[1..]) && conns == [conns[0]] + conns[1..]
  {
  }

  lemma {:induction false} NormaliseWrapped(p: Profile, conns: seq<Table>)
    requires Sane(p) && AllNormal(p, conns)
    ensures NormaliseAll(p, Wrap(conns)) == conns
  {
    if conns != [] {
      NormaliseWrapped(p, conns[1..]);
      ConnectionIsNormal(p, conns[0]);
      WrapCons(conns, Wrap(conns));
      NormaliseCons(p, Wrap(conns), Wrap(conns[1..]));
    }
  }

  lemma GeneratedIsTrimmed(n: nat)
    ensures Trimmed(Generated(n)) && Generated(n) != ""
  {
    ValueDecimal(n);
    var d := Decimal(n);
    assert d[|d| - 1] in d;
    assert Generated(n)[|Generated(n)| - 1] == d[|d| - 1];
  }

  /** The texts the loader reads back are present and trimmed. */
  lemma ConnectionText(p: Profile, conn: Table, key: Key)
    requires Sane(p) && Fits(p.connection, conn) && key in {Id, Name, Host}
    ensures key in conn && conn[key] == Str(GetStr(conn, key)) && Trimmed(GetStr(conn, key))
  {
    assert Normal(TEXT, conn[key]);
    StripTrims(conn[key].s);
  }

  lemma AssignedIsTrimmed(p: Profile, conns: seq<Table>, i: nat)
    requires Sane(p) && AllNormal(p, conns) && i < |conns|
    ensures var ids := IdsOf(conns); |AssignIds(ids)| == |ids| && Trimmed(AssignIds(ids)[i]) && AssignIds(ids)[i] != ""
  {
    var ids := IdsOf(conns);
    IdsAssigned(ids);
    if FirstHolder(ids, {}, i) {
      ConnectionText(p, conns[i], Id);
    } else {
      var n: nat :| AssignIds(ids)[i] == Generated(n);
      GeneratedIsTrimmed(n);
    }
  }

  lemma FitsUpdated(fields: Fields, t: Table, key: Key, s: string)
    requires Fits(fields, t) && key in fields && fields[key] == TEXT && Trimmed(s)
    ensures Fits(fields, t[key := Str(s)])
  {
    TextIsNormal(true, s);
  }

  lemma FinishedIsNormal(p: Profile, conn: Table, id: string)
    requires Sane(p) && Fits(p.connection, conn) && Trimmed(id) && id != ""
    ensures Fits(p.connection, Finished(conn, id))
    ensures GetStr(Finished(conn, id), Id) == id && GetStr(Finished(conn, id), Name) != ""
  {
    ConnectionText(p, conn, Host);
    var c := conn[Id := Str(id)];
    FitsUpdated(p.connection, conn, Id, id);
    FitsUpdated(p.connection, c, Name, if GetStr(c, Host) != "" then GetStr(c, Host) else id);
  }

  lemma FinishedIsFixed(p: Profile, conn: Table)
    requires Sane(p) && Fits(p.connection, conn) && GetStr(conn, Name) != ""
    ensures Finished(conn, GetStr(conn, Id)) == conn
  {
    ConnectionText(p, conn, Id);
    assert conn[Id := conn[Id]] == conn;
  }

  // ------------------------------------------------------------- fixed point --

  /** What every loaded configuration satisfies. */
  ghost predicate Settled(p: Profile, cfg: Loaded) {
    && Fits(p.device, cfg.device) && AllNormal(p, cfg.connections)
    && AllDistinct(IdsOf(cfg.connections))
    && (forall i :: 0 <= i < |cfg.connections| ==>
          GetStr(cfg.connections[i], Id) != "" && GetStr(cfg.connections[i], Name) != "")
    && (GetStr(cfg.device, AutoConnect) == "" || GetStr(cfg.device, AutoConnect) in IdsOf(cfg.connections))
  }

  lemma AllFinished(p: Profile, conns: seq<Table>)
    requires Sane(p) && AllNormal(p, conns)
    ensures var ids := AssignIds(IdsOf(conns));
            |ids| == |conns| && AllDistinct(ids)
            && AllNormal(p, FinishAll(conns, ids)) && IdsOf(FinishAll(conns, ids)) == ids
            && forall i :: 0 <= i < |conns| ==> ids[i] != "" && GetStr(FinishAll(conns, ids)[i], Name) != ""
  {
    var ids := AssignIds(IdsOf(conns));
    IdsAssigned(IdsOf(conns));
    var finished := FinishAll(conns, ids);
    forall i | 0 <= i < |conns|
      ensures Fits(p.connection, finished[i]) && GetStr(finished[i], Id) == ids[i] && GetStr(finished[i], Name) != ""
    {
      AssignedIsTrimmed(p, conns, i);
      FinishedIsNormal(p, conns[i], ids[i]);
    }
  }

  /** Loading yields normal values, distinct non-empty ids, names, and no dangling auto_connect. */
  lemma LoadSettles(p: Profile, layers: seq<Json>)
    requires Sane(p)
    ensures Settled(p, Load(p, layers))
  {
    var conns := NormaliseAll(p, MergeConnections(layers));
    AllAreNormal(p, MergeConnections(layers));
    AllFinished(p, conns);
    MergeFits(p.device, p.deviceDefaults, layers);
    FitsUpdated(p.device, Merge(p.device, p.deviceDefaults, layers), AutoConnect, "");
  }

  lemma ReloadDevice(p: Profile, cfg: Loaded)
    requires Sane(p) && Settled(p, cfg)
    ensures Merge(p.device, p.deviceDefaults, [Saved(cfg)]) == cfg.device
  {
    var layers := [Saved(cfg)];
    assert layers[1..] == [];
    assert p.deviceDefaults + cfg.device == cfg.device;
    NormaliseFits(p.device, cfg.device, p.deviceDefaults);
  }

  lemma ReloadConnections(p: Profile, cfg: Loaded)
    requires Sane(p) && Settled(p, cfg)
    ensures NormaliseAll(p, MergeConnections([Saved(cfg)])) == cfg.connections
    ensures AssignIds(IdsOf(cfg.connections)) == IdsOf(cfg.connections)
    ensures FinishAll(cfg.connections, IdsOf(cfg.connections)) == cfg.connections
  {
    NormaliseWrapped(p, cfg.connections);
    var layers := [Saved(cfg)];
    assert layers[1..] == [];
    var ids := IdsOf(cfg.connections);
    AssignFixed(ids, Explicit(ids), {}, 1);
    forall i | 0 <= i < |ids| ensures Finished(cfg.connections[i], ids[i]) == cfg.connections[i] {
      FinishedIsFixed(p, cfg.connections[i]);
    }
  }

  lemma ReloadReference(p: Profile, cfg: Loaded)
    requires Sane(p) && Settled(p, cfg)
    ensures Referential(cfg.device, IdsOf(cfg.connections)) == cfg.device
  {
    if GetStr(cfg.device, AutoConnect) !in IdsOf(cfg.connections) {
      assert Normal(TEXT, cfg.device[AutoConnect]);
      assert cfg.device[AutoConnect := Str("")] == cfg.device;
    }
  }

  /** Loading what was saved from any loaded configuration gives the same configuration. */
  lemma SaveLoadFixedPoint(p: Profile, layers: seq<Json>)
    requires Sane(p)
    ensures Load(p, [Saved(Load(p, layers))]) == Load(p, layers)
  {
    var cfg := Load(p, layers);
    LoadSettles(p, layers);
    ReloadDevice(p, cfg);
    ReloadConnections(p, cfg);
    ReloadReference(p, cfg);
  }
}
