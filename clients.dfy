/** src/clients.rs: known, online and offline clients (stations). The same
    code is repeated in src/api.rs:271-311. */
module Clients {
  import opened Wrappers
  import opened Json
  import opened Api

  /** `get_clients_all`: every client the controller has seen. */
  function GetClientsAll(c: Client, send: Transport): (r: Result<Json>)
    ensures r == GetRest(c, "user", send)
    ensures var resp := send(GetRequest(c, RestUrl(c, "user")));
            r.Ok? ==> resp.Response? && resp.parsed.Some? && r.value == DataOrEmpty(resp.parsed.value)
  {
    GetRest(c, "user", send)
  }

  /** `get_clients_online`: the stations connected now. */
  function GetClientsOnline(c: Client, send: Transport): (r: Result<Json>)
    ensures r == GetStat(c, "sta", send)
    ensures var resp := send(GetRequest(c, StatUrl(c, "sta")));
            r.Ok? ==> resp.Response? && resp.parsed.Some? && r.value == DataOrEmpty(resp.parsed.value)
  {
    GetStat(c, "sta", send)
  }

  /** A client's MAC address, when it has one that is a string. */
  function Mac(client: Json): Option<string> {
    StrField(client, "mac")
  }

  /** The string MACs found among `clients`. */
  function MacsOf(clients: seq<Json>): set<string> {
    if clients == [] then {}
    else (if Mac(clients[0]).Some? then {Mac(clients[0]).value} else {}) + MacsOf(clients[1..])
  }

  /** A MAC is collected exactly when some client carries it as a string. */
  lemma {:induction false} MacsOfSpec(clients: seq<Json>, m: string)
    ensures m in MacsOf(clients) <==> exists o :: o in clients && Mac(o) == Some(m)
  {
    if clients != [] {
      MacsOfSpec(clients[1..], m);
      if exists o :: o in clients && Mac(o) == Some(m) {
        var o :| o in clients && Mac(o) == Some(m);
        if o != clients[0] {
          assert o in clients[1..];
        }
      }
    }
  }

  /** `online_macs`: empty when the online list is not an array. */
  function OnlineMacs(online: Json): (macs: set<string>)
    ensures !online.Arr? ==> macs == {}
    ensures online.Arr? ==> forall m :: m in macs <==> exists o :: o in online.items && Mac(o) == Some(m)
  {
    if online.Arr? then
      var macs := MacsOf(online.items);
      assert forall m :: m in macs <==> exists o :: o in online.items && Mac(o) == Some(m) by {
        forall m ensures m in macs <==> exists o :: o in online.items && Mac(o) == Some(m) {
          MacsOfSpec(online.items, m);
        }
      }
      macs
    else {}
  }

  /** A client counts as offline when its MAC is not online, or when it has
      no string MAC at all. */
  predicate IsOffline(client: Json, onlineMacs: set<string>) {
    match Mac(client)
    case Some(m) => m !in onlineMacs
    case None => true
  }

  /** The `filter` over the "all" array: order and duplicates are kept. */
  function KeepOffline(clients: seq<Json>, onlineMacs: set<string>): seq<Json> {
    if clients == [] then []
    else (if IsOffline(clients[0], onlineMacs) then [clients[0]] else [])
         + KeepOffline(clients[1..], onlineMacs)
  }

  /** The filter distributes over concatenation, so it keeps relative order. */
  lemma {:induction false} KeepOfflineAppend(a: seq<Json>, b: seq<Json>, onlineMacs: set<string>)
    ensures KeepOffline(a + b, onlineMacs) == KeepOffline(a, onlineMacs) + KeepOffline(b, onlineMacs)
  {
    if a != [] {
      assert (a + b)[1..] == a[1..] + b;
      KeepOfflineAppend(a[1..], b, onlineMacs);
    } else {
      assert a + b == b;
    }
  }

  /** Each client occurs in the result as often as in the input when it is
      offline, and never otherwise. */
  lemma {:induction false} KeepOfflineCounts(clients: seq<Json>, onlineMacs: set<string>, x: Json)
    ensures multiset(KeepOffline(clients, onlineMacs))[x] ==
            if IsOffline(x, onlineMacs) then multiset(clients)[x] else 0
  {
    if clients != [] {
      KeepOfflineCounts(clients[1..], onlineMacs, x);
      assert clients == [clients[0]] + clients[1..];
    }
  }

  /** `r` can be obtained from `s` by deleting elements. */
  ghost predicate IsSubsequence(r: seq<Json>, s: seq<Json>)
    decreases |s|
  {
    if r == [] then true
    else if s == [] then false
    else (r[0] == s[0] && IsSubsequence(r[1..], s[1..])) || IsSubsequence(r, s[1..])
  }

  lemma {:induction false} KeepOfflineIsSubsequence(clients: seq<Json>, onlineMacs: set<string>)
    ensures IsSubsequence(KeepOffline(clients, onlineMacs), clients)
  {
    if clients != [] {
      var rest := KeepOffline(clients[1..], onlineMacs);
      KeepOfflineIsSubsequence(clients[1..], onlineMacs);
      if IsOffline(clients[0], onlineMacs) {
        assert KeepOffline(clients, onlineMacs) == [clients[0]] + rest;
        assert ([clients[0]] + rest)[1..] == rest;
      } else {
        assert KeepOffline(clients, onlineMacs) == rest;
        if rest != [] {
          assert IsSubsequence(rest, clients[1..]);
        }
      }
    }
  }

  /** With no online MACs every client is kept. */
  lemma {:induction false} KeepOfflineNoneOnline(clients: seq<Json>)
    ensures KeepOffline(clients, {}) == clients
  {
    if clients != [] {
      KeepOfflineNoneOnline(clients[1..]);
      assert clients == [clients[0]] + clients[1..];
    }
  }

  /** The result of `get_clients_offline` from the two fetched lists; a
      non-array "all" gives an empty array. */
  function OfflineClients(all: Json, online: Json): (r: Json)
    ensures r.Arr?
    ensures !all.Arr? ==> r == Arr([])
    ensures all.Arr? ==> r.items == KeepOffline(all.items, OnlineMacs(online))
    ensures all.Arr? ==> forall x :: x in r.items <==> x in all.items && IsOffline(x, OnlineMacs(online))
  {
    if all.Arr? then
      var kept := KeepOffline(all.items, OnlineMacs(online));
      assert forall x :: x in kept <==> x in all.items && IsOffline(x, OnlineMacs(online)) by {
        forall x ensures x in kept <==> x in all.items && IsOffline(x, OnlineMacs(online)) {
          KeepOfflineCounts(all.items, OnlineMacs(online), x);
        }
      }
      Arr(kept)
    else Arr([])
  }

  /** No offline client shares a string MAC with an online client. */
  lemma OfflineDisjointFromOnline(all: Json, online: Json, x: Json, o: Json)
    requires online.Arr? && o in online.items
    requires x in OfflineClients(all, online).items
    requires Mac(x).Some? && Mac(o).Some?
    ensures Mac(x) != Mac(o)
  {
  }

  /** When the online list is not an array, every known client is offline. */
  lemma OfflineWhenOnlineNotArray(all: Json, online: Json)
    requires all.Arr? && !online.Arr?
    ensures OfflineClients(all, online) == all
  {
    KeepOfflineNoneOnline(all.items);
  }

  /** `get_clients_offline`: both fetches must succeed ("all" first). */
  function GetClientsOffline(c: Client, send: Transport): (r: Result<Json>)
    ensures GetClientsAll(c, send).Err? ==> r == Err(GetClientsAll(c, send).error)
    ensures GetClientsAll(c, send).Ok? && GetClientsOnline(c, send).Err? ==>
              r == Err(GetClientsOnline(c, send).error)
    ensures r.Ok? <==> GetClientsAll(c, send).Ok? && GetClientsOnline(c, send).Ok?
    ensures r.Ok? ==> r.value == OfflineClients(GetClientsAll(c, send).value, GetClientsOnline(c, send).value)
  {
    match GetClientsAll(c, send)
    case Err(e) => Err(e)
    case Ok(all) =>
      match GetClientsOnline(c, send)
      case Err(e) => Err(e)
      case Ok(online) => Ok(OfflineClients(all, online))
  }
}
