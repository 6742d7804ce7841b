/**
 What one call does to the table of clients: who is in it afterwards, in which
 order, and how much traffic its entries account for.
 */
module ClientTable {
  import opened Prelude
  import opened OrderedDict
  import opened Ledger

  // The figures kept per client.
  function RequestsOf(c: Client): int { c.requests }
  function BootsOf(c: Client): int { c.boots }
  function BytesOf(c: Client): int { c.bytes }

  function Account(c: Option<Client>, f: Client -> int): int { if c.None? then 0 else f(c.value) }

  /** The sum of one figure over the whole table. */
  function Worth(clients: Clients, f: Client -> int): int {
    if clients == [] then 0 else f(clients[0].1) + Worth(clients[1..], f)
  }

  lemma {:induction false} WorthDel(d: Clients, k: string, f: Client -> int)
    ensures Worth(Del(d, k), f) == Worth(d, f) - Account(Lookup(d, k), f)
  {
    if d != [] && d[0].0 != k {
      WorthDel(d[1..], k, f);
      assert ([d[0]] + Del(d[1..], k))[1..] == Del(d[1..], k);
    }
  }

  lemma {:induction false} WorthPut(d: Clients, k: string, c: Client, f: Client -> int)
    ensures Worth(Put(d, k, c), f) == Worth(d, f) - Account(Lookup(d, k), f) + f(c)
  {
    if d == [] {
      var single: Clients := [(k, c)];
      assert single[1..] == [];
    } else if d[0].0 == k {
      assert ([(k, c)] + d[1..])[1..] == d[1..];
    } else {
      WorthPut(d[1..], k, c, f);
      assert ([d[0]] + Put(d[1..], k, c))[1..] == Put(d[1..], k, c);
    }
  }

  lemma {:induction false} WorthConcat(a: Clients, b: Clients, f: Client -> int)
    ensures Worth(a + b, f) == Worth(a, f) + Worth(b, f)
  {
    if a == [] {
      assert a + b == b;
    } else {
      WorthConcat(a[1..], b, f);
      assert (a + b)[1..] == a[1..] + b;
    }
  }

  /** Registering a request keeps every other entry, except the anonymous one it absorbs. */
  lemma TouchedLookup(clients: Clients, ip: string, mac: Option<string>, path: string, now: real, k: string)
    requires Distinct(clients)
    ensures var table := TouchedTable(clients, ip, mac, path, now);
            Lookup(table, k) ==
            if k == ClientKey(ip, mac) then Some(TouchedClient(clients, ip, mac, path, now))
            else if Identified(mac) && k == ClientKey(ip, None) then None
            else Lookup(clients, k)
  {
    var key, rest := ClientKey(ip, mac), WithoutAbsorbed(clients, ip, mac);
    if Identified(mac) {
      DelDistinct(clients, ClientKey(ip, None));
      DelLookup(clients, ClientKey(ip, None), k);
    }
    DelLookup(rest, key, k);
    AppendLookup(Del(rest, key), key, TouchedClient(clients, ip, mac, path, now), k);
  }

  lemma TouchedDistinct(clients: Clients, ip: string, mac: Option<string>, path: string, now: real)
    requires Distinct(clients)
    ensures Distinct(TouchedTable(clients, ip, mac, path, now))
  {
    var key, rest := ClientKey(ip, mac), WithoutAbsorbed(clients, ip, mac);
    if Identified(mac) { DelDistinct(clients, ClientKey(ip, None)); }
    DelDistinct(rest, key);
    DelLookup(rest, key, key);
    LookupMember(Del(rest, key), key);
  }

  /** The touched entry inherits the requests, boots and bytes of both its predecessors. */
  lemma TouchedFigures(clients: Clients, ip: string, mac: Option<string>, path: string, now: real)
    requires Distinct(clients)
    ensures var c := TouchedClient(clients, ip, mac, path, now);
            var known, absorbed := Lookup(clients, ClientKey(ip, mac)), Absorbed(clients, ip, mac);
            && c.requests == Account(known, RequestsOf) + Account(absorbed, RequestsOf) + 1
            && c.boots == Account(known, BootsOf) + Account(absorbed, BootsOf)
            && c.bytes == Account(known, BytesOf) + Account(absorbed, BytesOf)
  {
    if Identified(mac) {
      KeyKinds(ip, mac.value, ip);
      DelLookup(clients, ClientKey(ip, None), ClientKey(ip, mac));
    }
  }

  lemma TouchedSum(clients: Clients, ip: string, mac: Option<string>, path: string, now: real, f: Client -> int)
    requires Distinct(clients)
    ensures Worth(TouchedTable(clients, ip, mac, path, now), f) ==
            Worth(clients, f) - Account(Lookup(clients, ClientKey(ip, mac)), f) - Account(Absorbed(clients, ip, mac), f)
            + f(TouchedClient(clients, ip, mac, path, now))
  {
    var key, rest := ClientKey(ip, mac), WithoutAbsorbed(clients, ip, mac);
    if Identified(mac) {
      KeyKinds(ip, mac.value, ip);
      WorthDel(clients, ClientKey(ip, None), f);
      DelLookup(clients, ClientKey(ip, None), key);
    }
    WorthDel(rest, key, f);
    var last: Clients := [(key, TouchedClient(clients, ip, mac, path, now))];
    WorthConcat(Del(rest, key), last, f);
    assert last[1..] == [];
  }

  /** Touching and merging create one request and lose nothing. */
  lemma TouchedWorth(clients: Clients, ip: string, mac: Option<string>, path: string, now: real)
    requires Distinct(clients)
    ensures var table := TouchedTable(clients, ip, mac, path, now);
            && Worth(table, RequestsOf) == Worth(clients, RequestsOf) + 1
            && Worth(table, BootsOf) == Worth(clients, BootsOf)
            && Worth(table, BytesOf) == Worth(clients, BytesOf)
  {
    TouchedFigures(clients, ip, mac, path, now);
    TouchedSum(clients, ip, mac, path, now, RequestsOf);
    TouchedSum(clients, ip, mac, path, now, BootsOf);
    TouchedSum(clients, ip, mac, path, now, BytesOf);
  }

  lemma CreditLookup(clients: Clients, key: string, r: Request, v: Verdict, now: real, k: string)
    ensures Lookup(CreditClient(clients, key, r, v, now), k) ==
            if k == key && Lookup(clients, k).Some? then Some(FinishedClient(Lookup(clients, k).value, r, v, now))
            else Lookup(clients, k)
  {
    if Lookup(clients, key).Some? {
      PutLookup(clients, key, FinishedClient(Lookup(clients, key).value, r, v, now), k);
    }
  }

  lemma CreditKeys(clients: Clients, key: string, r: Request, v: Verdict, now: real)
    ensures var c := CreditClient(clients, key, r, v, now);
            |c| == |clients| && forall i :: 0 <= i < |c| ==> c[i].0 == clients[i].0
  {
    if Lookup(clients, key).Some? {
      PutKeys(clients, key, FinishedClient(Lookup(clients, key).value, r, v, now));
    }
  }

  lemma {:induction false} RecoverAllKeys(m: Monitor, rs: Active, now: real)
    ensures var c := RecoverAll(m, rs, now).clients;
            |c| == |m.clients| && forall i :: 0 <= i < |c| ==> c[i].0 == m.clients[i].0
    decreases |rs|
  {
    if rs != [] {
      CreditKeys(m.clients, rs[0].1.clientKey, rs[0].1, LOST, now);
      RecoverAllKeys(RecoverOne(m, rs[0].1, now), rs[1..], now);
    }
  }
}
