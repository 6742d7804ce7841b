/** The loader's loops, each proved to compute what Config.dfy says. */
module ConfigLoader {
  import opened Config

  /**
   Overwrites the known keys of a section one after the other, in whatever order they
   are listed; a later step reads only its own key.
   */
  method NormaliseFields(fields: Fields, section: Table, fallback: Table) returns (table: Table)
    requires fields.Keys <= fallback.Keys
    ensures table == Normalise(fields, section, fallback)
  {
    table := section;
    var remaining := fields.Keys;
    while remaining != {}
      invariant remaining <= fields.Keys
      invariant table.Keys == section.Keys + (fields.Keys - remaining)
      invariant forall k :: k in remaining ==> Get(table, k) == Get(section, k)
      invariant forall k :: k in table ==>
                  table[k] == if k in fields.Keys - remaining then Setting(fields[k], Get(section, k), fallback[k])
                      else section[k]
      decreases remaining
    {
      var key :| key in remaining;
      table := table[key := Setting(fields[key], Get(table, key), fallback[key])];
      remaining := remaining - {key};
    }
  }

  method ReservedIds(ids: seq<string>) returns (reserved: set<string>)
    ensures reserved == Explicit(ids)
  {
    reserved := {};
    for i := 0 to |ids|
      invariant reserved == Explicit(ids[..i])
    {
      if ids[i] != "" { reserved := reserved + {ids[i]}; }
      assert ids[..i + 1] == ids[..i] + [ids[i]];
      ExplicitSnoc(ids[..i], ids[i]);
    }
    assert ids[..|ids|] == ids;
  }

  /** The search stops because the generated names differ and only finitely many are taken. */
  method FindFree(taken: set<string>, start: nat) returns (next: nat)
    ensures next == NextFree(taken, start)
  {
    next := start;
    while Generated(next) in taken
      invariant NextFree(taken, start) == NextFree(taken, next)
      decreases |taken - Issued(next)|
    {
      IssuedStep(taken, next);
      next := next + 1;
    }
  }

  /** Keeps the first holder of each explicit id and generates the others. */
  method AssignConnectionIds(ids: seq<string>) returns (result: seq<string>)
    ensures result == AssignIds(ids)
  {
    var reserved := ReservedIds(ids);
    var used: set<string> := {};
    var next := 1;
    result := [];
    for i := 0 to |ids|
      invariant result + Assign(ids[i..], reserved, used, next) == AssignIds(ids)
    {
      AssignStep(result, ids[i..], reserved, used, next);
      assert ids[i..][1..] == ids[i + 1..] && ids[i..][0] == ids[i];
      if ids[i] != "" && ids[i] !in used {
        used := used + {ids[i]};
        result := result + [ids[i]];
      } else {
        next := FindFree(reserved + used, next);
        used := used + {Generated(next)};
        result := result + [Generated(next)];
        next := next + 1;
      }
    }
  }

  lemma AssignStep(before: seq<string>, ids: seq<string>, reserved: set<string>, used: set<string>, next: nat)
    requires ids != []
    ensures var n := NextFree(reserved + used, next);
            before + Assign(ids, reserved, used, next) ==
            if ids[0] != "" && ids[0] !in used then
              (before + [ids[0]]) + Assign(ids[1..], reserved, used + {ids[0]}, next)
            else
              (before + [Generated(n)]) + Assign(ids[1..], reserved, used + {Generated(n)}, n + 1)
  {
    var n := NextFree(reserved + used, next);
    if ids[0] != "" && ids[0] !in used {
      Regroup(before, ids[0], Assign(ids[1..], reserved, used + {ids[0]}, next));
    } else {
      Regroup(before, Generated(n), Assign(ids[1..], reserved, used + {Generated(n)}, n + 1));
    }
  }

  lemma Regroup(before: seq<string>, id: string, after: seq<string>)
    ensures before + ([id] + after) == before + [id] + after
  {
  }

  lemma ExplicitSnoc(ids: seq<string>, id: string)
    ensures Explicit(ids + [id]) == Explicit(ids) + (if id == "" then {} else {id})
  {
    forall x | x in Explicit(ids) ensures x in Explicit(ids + [id]) {
      var i :| 0 <= i < |ids| && ids[i] != "" && ids[i] == x;
      assert (ids + [id])[i] == x;
    }
    if id != "" { assert (ids + [id])[|ids|] == id; }
  }

  /** Folds the layers into one device section and one connection list. */
  method MergeLayers(fields: Fields, defaults: Table, layers: seq<Json>) returns (device: Table, connections: seq<Json>)
    requires fields.Keys <= defaults.Keys
    ensures device == Merge(fields, defaults, layers)
    ensures connections == MergeConnections(layers)
  {
    device, connections := defaults, [];
    for i := 0 to |layers|
      invariant fields.Keys <= device.Keys
      invariant Merge(fields, device, layers[i..]) == Merge(fields, defaults, layers)
      invariant MergeConnections(layers[i..], connections) == MergeConnections(layers)
    {
      assert layers[i..][1..] == layers[i + 1..];
      var section, items := DeviceOf(layers[i]), ConnectionsOf(layers[i]);
      if section.Some? { device := NormaliseFields(fields, device + section.value, device); }
      if items.Some? { connections := items.value; }
    }
  }

  /** Keeps the objects of the list, each in normal form. */
  method NormaliseConnections(p: Profile, raw: seq<Json>) returns (connections: seq<Table>)
    requires Sane(p)
    ensures connections == NormaliseAll(p, raw)
  {
    connections := [];
    for i := 0 to |raw|
      invariant connections + NormaliseAll(p, raw[i..]) == NormaliseAll(p, raw)
    {
      assert raw[i..][1..] == raw[i + 1..];
      if raw[i].Obj? {
        var connection := NormaliseFields(p.connection, raw[i].fields, ConnectionDefaults(p, raw[i].fields));
        connections := connections + [connection];
      }
    }
  }

  /** Stores the ids and fills in missing names. */
  method FinishConnections(normalised: seq<Table>, ids: seq<string>) returns (connections: seq<Table>)
    requires |ids| == |normalised|
    ensures connections == FinishAll(normalised, ids)
  {
    connections := normalised;
    for i := 0 to |connections|
      invariant |connections| == |normalised|
      invariant forall j :: 0 <= j < |normalised| ==>
                  connections[j] == if j < i then Finished(normalised[j], ids[j]) else normalised[j]
    {
      connections := connections[i := Finished(connections[i], ids[i])];
    }
  }

  /** The whole load. */
  method LoadLayers(p: Profile, layers: seq<Json>) returns (cfg: Loaded)
    requires Sane(p)
    ensures cfg == Load(p, layers)
  {
    var device, raw := MergeLayers(p.device, p.deviceDefaults, layers);
    var normalised := NormaliseConnections(p, raw);
    var ids := AssignConnectionIds(IdsOf(normalised));
    AssignLength(IdsOf(normalised), Explicit(IdsOf(normalised)), {}, 1);
    var connections := FinishConnections(normalised, ids);
    cfg := Loaded(Referential(device, IdsOf(connections)), connections);
  }
}
