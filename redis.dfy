/**
 * The Redis cache as the services use it: string keys, values with an optional time to live,
 * and a server that may be unreachable, in which case every command throws. The commands are
 * functions from one keyspace to the next; the two cache classes run them in place.
 */
module Redis {
  import opened Wrappers
  import opened Errors
  import Decimal

  /** A stored value and the TTL it was set with, in seconds (None: no expiry). */
  datatype Entry<V> = Entry(value: V, ttlSeconds: Option<int>)

  /** The server as one client sees it. */
  datatype Keyspace<V> = Keyspace(up: bool, entries: map<string, Entry<V>>)

  const ConnectionLost: Failure := Unhandled(RedisConnectionFailure, "Unable to connect to Redis")

  /** The key under which both pricing and availability cache a category's stock. */
  function StockKey(categoryId: nat): string {
    "stock::" + Decimal.Digits(categoryId)
  }

  /** Distinct categories never share a stock key. */
  lemma StockKeysDistinct(m: nat, n: nat)
    requires m != n
    ensures StockKey(m) != StockKey(n)
  {
    Decimal.PrefixedDigitsInjective("stock::", m, n);
  }

  /** GET. */
  function Get<V>(ks: Keyspace<V>, key: string): (r: Outcome<Option<V>>)
    ensures !ks.up <==> r == Thrown(ConnectionLost)
    ensures r.Success? ==> (r.value.Some? <==> key in ks.entries)
    ensures r.Success? && r.value.Some? ==> r.value.value == ks.entries[key].value
  {
    if !ks.up then Thrown(ConnectionLost)
    else if key in ks.entries then Success(Some(ks.entries[key].value))
    else Success(None)
  }

  /** SET with an expiry: the key holds the value, every other key is untouched. */
  function Set<V>(ks: Keyspace<V>, key: string, value: V, ttl: Option<int>): (r: (Keyspace<V>, Outcome<()>))
    ensures !ks.up ==> r == (ks, Thrown(ConnectionLost))
    ensures ks.up ==> r.1.Success? && r.0.entries == ks.entries[key := Entry(value, ttl)]
    ensures r.0.up == ks.up
  {
    if !ks.up then (ks, Thrown(ConnectionLost))
    else (ks.(entries := ks.entries[key := Entry(value, ttl)]), Success(()))
  }

  /** DEL: reports whether a key was removed. */
  function Delete<V>(ks: Keyspace<V>, key: string): (r: (Keyspace<V>, Outcome<bool>))
    ensures !ks.up ==> r == (ks, Thrown(ConnectionLost))
    ensures ks.up ==> r.1 == Success(key in ks.entries) && r.0.entries == ks.entries - {key}
    ensures r.0.up == ks.up
  {
    if !ks.up then (ks, Thrown(ConnectionLost))
    else (ks.(entries := ks.entries - {key}), Success(key in ks.entries))
  }

  /**
   * INCR: a missing key counts from 0; a value that is not a 64-bit integer, or the largest
   * one, is an error and stays; the TTL is kept.
   */
  function Incr(ks: Keyspace<string>, key: string): (r: (Keyspace<string>, Outcome<int>))
    ensures !ks.up ==> r == (ks, Thrown(ConnectionLost))
    ensures r.1.Success? ==> r.0.entries == ks.entries[key := Entry(Decimal.IntToString(r.1.value),
      if key in ks.entries then ks.entries[key].ttlSeconds else None)]
    ensures r.1.Success? && key in ks.entries ==> Decimal.ParseLong(ks.entries[key].value) == Some(r.1.value - 1)
    ensures !r.1.Success? ==> r.0 == ks
    // which calls succeed: a missing key, or a stored 64-bit number below the largest
    ensures ks.up && key !in ks.entries ==> r.1 == Success(1)
    ensures ks.up && key in ks.entries ==>
      match Decimal.ParseLong(ks.entries[key].value)
      case Some(n) => (n < Decimal.Int64Max ==> r.1 == Success(n + 1)) && (n == Decimal.Int64Max ==> r.1.Thrown?)
      case None => r.1.Thrown?
  {
    if !ks.up then (ks, Thrown(ConnectionLost))
    else if key !in ks.entries then
      (ks.(entries := ks.entries[key := Entry("1", None)]), Success(1))
    else
      var e := ks.entries[key];
      match Decimal.ParseLong(e.value)
      case None => (ks, Thrown(Unhandled(RedisScriptError, "ERR value is not an integer or out of range")))
      case Some(v) =>
        if v == Decimal.Int64Max then (ks, Thrown(Unhandled(RedisScriptError, "ERR increment or decrement would overflow")))
        else (ks.(entries := ks.entries[key := e.(value := Decimal.IntToString(v + 1))]), Success(v + 1))
  }

  /**
   * The reservation script: -1 when the key is missing or its number is not positive,
   * otherwise DECR and the new value. Text that is not an integer makes the script fail.
   */
  function ReserveScript(ks: Keyspace<string>, key: string): (r: (Keyspace<string>, Outcome<int>))
    ensures !ks.up ==> r == (ks, Thrown(ConnectionLost))
    ensures ks.up && key !in ks.entries ==> r == (ks, Success(-1))
    ensures r.1 == Success(-1) ==> r.0 == ks
    ensures r.1.Success? && r.1.value != -1 ==>
      && key in ks.entries
      && Decimal.ParseLong(ks.entries[key].value) == Some(r.1.value + 1)
      && r.1.value >= 0
      && r.0.entries == ks.entries[key := ks.entries[key].(value := Decimal.IntToString(r.1.value))]
    ensures r.1.Thrown? ==> r.0 == ks
    // what a present key yields: a positive number is decremented, any other number gives -1
    ensures ks.up && key in ks.entries ==>
      match Decimal.ParseLong(ks.entries[key].value)
      case Some(n) => (n > 0 ==> r.1 == Success(n - 1)) && (n <= 0 ==> r == (ks, Success(-1)))
      case None => r.1.Thrown?
  {
    if !ks.up then (ks, Thrown(ConnectionLost))
    else if key !in ks.entries then (ks, Success(-1))
    else
      var e := ks.entries[key];
      match Decimal.ParseLong(e.value)
      case None => (ks, Thrown(Unhandled(RedisScriptError, "attempt to compare nil with number")))
      case Some(v) =>
        if v <= 0 then (ks, Success(-1))
        else (ks.(entries := ks.entries[key := e.(value := Decimal.IntToString(v - 1))]), Success(v - 1))
  }

  /** A reservation followed by INCR on the same key puts the value and its TTL back. */
  lemma ReserveThenIncrRestores(ks: Keyspace<string>, key: string)
    requires ReserveScript(ks, key).1.Success? && ReserveScript(ks, key).1.value >= 0
    ensures Incr(ReserveScript(ks, key).0, key).1 == Success(ReserveScript(ks, key).1.value + 1)
    ensures Incr(ReserveScript(ks, key).0, key).0.entries[key] ==
      ks.entries[key].(value := Decimal.IntToString(ReserveScript(ks, key).1.value + 1))
  {
    var n := ReserveScript(ks, key).1.value;
    Decimal.ParseLongRoundTrip(n);
  }

  /** The cache holding decimal strings: the stock counters. */
  class StringCache {
    var up: bool
    var entries: map<string, Entry<string>>

    function State(): Keyspace<string>
      reads this
    {
      Keyspace(up, entries)
    }

    constructor (initial: Keyspace<string>)
      ensures State() == initial
    {
      up, entries := initial.up, initial.entries;
    }

    method Read(key: string) returns (r: Outcome<Option<string>>)
      ensures r == Get(State(), key)
    {
      if !up {
        return Thrown(ConnectionLost);
      }
      r := if key in entries then Success(Some(entries[key].value)) else Success(None);
    }

    method Write(key: string, value: string, ttl: Option<int>) returns (r: Outcome<()>)
      modifies this`entries
      ensures (State(), r) == Set(old(State()), key, value, ttl)
    {
      if !up {
        return Thrown(ConnectionLost);
      }
      entries := entries[key := Entry(value, ttl)];
      r := Success(());
    }

    method Increment(key: string) returns (r: Outcome<int>)
      modifies this`entries
      ensures (State(), r) == Incr(old(State()), key)
    {
      var next;
      next, r := Incr(State(), key).0, Incr(State(), key).1;
      entries := next.entries;
    }

    method Reserve(key: string) returns (r: Outcome<int>)
      modifies this`entries
      ensures (State(), r) == ReserveScript(old(State()), key)
    {
      var next;
      next, r := ReserveScript(State(), key).0, ReserveScript(State(), key).1;
      entries := next.entries;
    }
  }

  /** The cache holding serialized responses. */
  class ObjectCache<V> {
    var up: bool
    var entries: map<string, Entry<V>>

    function State(): Keyspace<V>
      reads this
    {
      Keyspace(up, entries)
    }

    constructor (initial: Keyspace<V>)
      ensures State() == initial
    {
      up, entries := initial.up, initial.entries;
    }

    method Read(key: string) returns (r: Outcome<Option<V>>)
      ensures r == Get(State(), key)
    {
      if !up {
        return Thrown(ConnectionLost);
      }
      r := if key in entries then Success(Some(entries[key].value)) else Success(None);
    }

    method Write(key: string, value: V, ttl: Option<int>) returns (r: Outcome<()>)
      modifies this`entries
      ensures (State(), r) == Set(old(State()), key, value, ttl)
    {
      if !up {
        return Thrown(ConnectionLost);
      }
      entries := entries[key := Entry(value, ttl)];
      r := Success(());
    }

    method Remove(key: string) returns (r: Outcome<bool>)
      modifies this`entries
      ensures (State(), r) == Delete(old(State()), key)
    {
      if !up {
        return Thrown(ConnectionLost);
      }
      r := Success(key in entries);
      entries := entries - {key};
    }
  }
}
