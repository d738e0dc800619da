/** The Redis reservation store behind the cost gate: one key per in-flight request of a tenant. */
module Reservations {

  /** Tenant and request id; the key text is `budget:resv:{tenant}:{request}`. */
  datatype Key = Key(tenant: nat, request: nat)

  /** A stored value either parses as a decimal amount or is skipped. */
  datatype Value = Amount(usd: real) | Unparseable

  type Entries = map<Key, Value>

  /** How a write command ends: acknowledged, or with a client error before or after it took effect. */
  datatype Reply = Acknowledged | ClientError(applied: bool)
  {
    predicate Applied() { Acknowledged? || applied }
  }

  function Worth(entries: Entries, key: Key): real {
    if key in entries && entries[key].Amount? then entries[key].usd else 0.0
  }

  function SumKeys(entries: Entries, keys: seq<Key>): real {
    if keys == [] then 0.0 else SumKeys(entries, keys[..|keys| - 1]) + Worth(entries, keys[|keys| - 1])
  }

  function Flatten(pages: seq<seq<Key>>): seq<Key> {
    if pages == [] then [] else Flatten(pages[..|pages| - 1]) + pages[|pages| - 1]
  }

  /** The total over a set of keys, without reference to any order of visiting them. */
  ghost function TotalOver(entries: Entries, keys: set<Key>): real {
    if keys == {} then 0.0
    else var key :| key in keys; Worth(entries, key) + TotalOver(entries, keys - {key})
  }

  function TenantKeys(entries: Entries, tenant: nat): set<Key> {
    set key | key in entries && key.tenant == tenant
  }

  /** What a tenant has in flight. */
  ghost function InFlight(entries: Entries, tenant: nat): real {
    TotalOver(entries, TenantKeys(entries, tenant))
  }

  class ReservationStore {
    const connected: bool
    var entries: Entries

    constructor (connected: bool)
      ensures this.connected == connected && entries == map[]
    {
      this.connected, entries := connected, map[];
    }

    /** Charges that are zero or negative are never reserved; a client error is reported as not reserved. */
    method Reserve(tenant: nat, request: nat, amount: real, reply: Reply) returns (reserved: bool)
      modifies this
      ensures reserved <==> connected && amount > 0.0 && reply.Acknowledged?
      ensures entries == if connected && amount > 0.0 && reply.Applied()
                         then old(entries)[Key(tenant, request) := Amount(amount)] else old(entries)
    {
      if !connected || amount <= 0.0 { return false; }
      if reply.Applied() { entries := entries[Key(tenant, request) := Amount(amount)]; }
      return reply.Acknowledged?;
    }

    /** A client error is swallowed and may leave the key to its time-to-live. */
    method Release(tenant: nat, request: nat, reply: Reply)
      modifies this
      ensures entries == if connected && reply.Applied() then old(entries) - {Key(tenant, request)} else old(entries)
    {
      if connected && reply.Applied() { entries := entries - {Key(tenant, request)}; }
    }

    /** MGET of one page: values that are gone or do not parse are skipped. */
    method PageTotal(page: seq<Key>) returns (total: real)
      ensures total == SumKeys(entries, page)
    {
      total := 0.0;
      var i := 0;
      while i < |page|
        invariant 0 <= i <= |page|
        invariant total == SumKeys(entries, page[..i])
      {
        assert page[..i + 1][..i] == page[..i];
        if page[i] in entries && entries[page[i]].Amount? {
          total := total + entries[page[i]].usd;
        }
        i := i + 1;
      }
      assert page[..i] == page;
    }

    /**
     `pages` are the key pages the SCAN cursor yields. SCAN may yield a key twice and may yield a key that is
     gone by the time MGET reads it.  A client error on page `errorAt` gives up and reports zero.
     */
    method TotalReserved(pages: seq<seq<Key>>, errorAt: nat) returns (total: real)
      ensures total == if connected && |pages| <= errorAt then SumKeys(entries, Flatten(pages)) else 0.0
    {
      if !connected { return 0.0; }
      total := 0.0;
      var cursor := 0;
      while cursor < |pages|
        invariant 0 <= cursor <= |pages| && cursor <= errorAt
        invariant total == SumKeys(entries, Flatten(pages[..cursor]))
      {
        if cursor == errorAt { return 0.0; }
        var page := PageTotal(pages[cursor]);
        total := total + page;
        SumAppend(entries, Flatten(pages[..cursor]), pages[cursor]);
        assert pages[..cursor + 1][..cursor] == pages[..cursor];
        cursor := cursor + 1;
      }
      assert pages[..cursor] == pages;
    }
  }

  lemma {:induction false} SumAppend(entries: Entries, a: seq<Key>, b: seq<Key>)
    ensures SumKeys(entries, a + b) == SumKeys(entries, a) + SumKeys(entries, b)
  {
    if b == [] {
      assert a + b == a;
    } else {
      SumAppend(entries, a, b[..|b| - 1]);
      assert (a + b)[..|a + b| - 1] == a + b[..|b| - 1];
    }
  }

  // ---------------------------------------------------------------- what the scan total means

  lemma {:induction false} TotalSplit(entries: Entries, keys: set<Key>, key: Key)
    requires key in keys
    ensures TotalOver(entries, keys) == Worth(entries, key) + TotalOver(entries, keys - {key})
    decreases |keys|
  {
    var first :| first in keys && TotalOver(entries, keys) == Worth(entries, first) + TotalOver(entries, keys - {first});
    if first != key {
      TotalSplit(entries, keys - {first}, key);
      TotalSplit(entries, keys - {key}, first);
      assert keys - {first} - {key} == keys - {key} - {first};
    }
  }

  ghost predicate NonNegative(entries: Entries) {
    forall key | key in entries && entries[key].Amount? :: entries[key].usd >= 0.0
  }

  /** A scan that yields every key once or more reports at least what is in flight. */
  lemma {:induction false} ScanNeverUnderReports(entries: Entries, keys: seq<Key>, wanted: set<Key>)
    requires NonNegative(entries)
    requires forall key | key in wanted :: key in keys
    ensures SumKeys(entries, keys) >= TotalOver(entries, wanted)
  {
    if keys == [] {
      assert wanted == {};
    } else {
      var last := keys[|keys| - 1];
      ScanNeverUnderReports(entries, keys[..|keys| - 1], wanted - {last});
      if last in wanted {
        TotalSplit(entries, wanted, last);
      } else {
        assert wanted - {last} == wanted;
      }
    }
  }

  predicate Distinct(keys: seq<Key>) {
    forall i, j | 0 <= i < j < |keys| :: keys[i] != keys[j]
  }

  function KeySet(keys: seq<Key>): set<Key> {
    set key | key in keys
  }

  /** A scan that yields every key exactly once reports exactly what is in flight, in whatever order. */
  lemma {:induction false} ScanIsExact(entries: Entries, keys: seq<Key>)
    requires Distinct(keys)
    ensures SumKeys(entries, keys) == TotalOver(entries, KeySet(keys))
  {
    if keys != [] {
      var init, last := keys[..|keys| - 1], keys[|keys| - 1];
      ScanIsExact(entries, init);
      DistinctLast(keys);
      TotalSplit(entries, KeySet(keys), last);
    }
  }

  lemma DistinctLast(keys: seq<Key>)
    requires Distinct(keys) && keys != []
    ensures keys[|keys| - 1] in KeySet(keys)
    ensures KeySet(keys) - {keys[|keys| - 1]} == KeySet(keys[..|keys| - 1])
  {
    var init, last := keys[..|keys| - 1], keys[|keys| - 1];
    assert keys == init + [last];
    assert last !in init;
  }

  lemma {:induction false} TotalDependsOnKeys(entries: Entries, entries': Entries, keys: set<Key>)
    requires forall key | key in keys :: Worth(entries, key) == Worth(entries', key)
    ensures TotalOver(entries, keys) == TotalOver(entries', keys)
    decreases |keys|
  {
    if keys != {} {
      var key :| key in keys;
      TotalSplit(entries, keys, key);
      TotalSplit(entries', keys, key);
      TotalDependsOnKeys(entries, entries', keys - {key});
    }
  }

  /** Reserving adds exactly the amount to its own tenant and nothing to any other; releasing undoes it. */
  lemma ReserveThenRelease(entries: Entries, tenant: nat, request: nat, amount: real, other: nat)
    requires Key(tenant, request) !in entries
    ensures var entries' := entries[Key(tenant, request) := Amount(amount)];
            && InFlight(entries', tenant) == InFlight(entries, tenant) + amount
            && (other != tenant ==> InFlight(entries', other) == InFlight(entries, other))
            && entries' - {Key(tenant, request)} == entries
  {
    var key := Key(tenant, request);
    var entries' := entries[key := Amount(amount)];
    TotalSplit(entries', TenantKeys(entries', tenant), key);
    assert TenantKeys(entries', tenant) - {key} == TenantKeys(entries, tenant);
    TotalDependsOnKeys(entries, entries', TenantKeys(entries, tenant));
    if other != tenant {
      assert TenantKeys(entries', other) == TenantKeys(entries, other);
      TotalDependsOnKeys(entries, entries', TenantKeys(entries, other));
    }
    assert entries' - {key} == entries;
  }
}
