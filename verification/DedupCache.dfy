/** The deduplication cache: one key-value map in Redis, or in its place a set of keys and a dictionary
    of hashes in memory. */
module DedupCache {
  import opened Domain

  type Key = string

  datatype Verdict = New | ValidDuplicate | PayloadMismatch

  /** A mark without a hash carries the empty string. */
  datatype Mark = Mark(key: Key, hash: string)

  // ---- The Redis path ----

  type Redis = map<Key, string>

  const NO_HASH := "1"

  function MarkRedis(r: Redis, m: Mark): Redis {
    r[m.key := if m.hash == "" then NO_HASH else m.hash]
  }

  function CheckRedis(r: Redis, key: Key, hash: string): Verdict {
    if key !in r then New
    else if r[key] == NO_HASH || r[key] == hash then ValidDuplicate
    else PayloadMismatch
  }

  // ---- The in-memory fallback ----

  datatype Memory = Memory(keys: set<Key>, hashes: map<Key, string>)

  function MarkMemory(m: Memory, mark: Mark): Memory {
    Memory(m.keys + {mark.key}, if mark.hash == "" then m.hashes else m.hashes[mark.key := mark.hash])
  }

  function CheckMemory(m: Memory, key: Key, hash: string): Verdict {
    if key !in m.keys then New
    else if key !in m.hashes || m.hashes[key] == hash then ValidDuplicate
    else PayloadMismatch
  }

  class MemoryCache {
    var dedup: set<Key>
    var payloadHashes: map<Key, string>

    ghost function View(): Memory
      reads this
    {
      Memory(dedup, payloadHashes)
    }

    constructor ()
      ensures View() == Memory({}, map[])
    {
      dedup, payloadHashes := {}, map[];
    }

    method MarkEventProcessed(key: Key, hash: string)
      modifies this
      ensures View() == MarkMemory(old(View()), Mark(key, hash))
    {
      dedup := dedup + {key};
      if hash != "" {
        payloadHashes := payloadHashes[key := hash];
      }
    }

    method VerifyIdempotencyPayload(key: Key, hash: string) returns (verdict: Verdict)
      ensures verdict == CheckMemory(View(), key, hash)
    {
      if key !in dedup {
        return New;
      }
      if key !in payloadHashes || payloadHashes[key] == hash {
        return ValidDuplicate;
      }
      return PayloadMismatch;
    }
  }

  // ---- Sequences of marks; checks in between change nothing ----

  function RedisAfter(marks: seq<Mark>): Redis {
    if marks == [] then map[] else MarkRedis(RedisAfter(marks[..|marks| - 1]), marks[|marks| - 1])
  }

  function MemoryAfter(marks: seq<Mark>): Memory {
    if marks == [] then Memory({}, map[]) else MarkMemory(MemoryAfter(marks[..|marks| - 1]), marks[|marks| - 1])
  }

  /** The hash of the last mark of a key. */
  function LastHash(marks: seq<Mark>, key: Key): Option<string> {
    if marks == [] then None
    else if marks[|marks| - 1].key == key then Some(marks[|marks| - 1].hash)
    else LastHash(marks[..|marks| - 1], key)
  }

  /** The last hash that a mark of the key really carried. */
  function LastRealHash(marks: seq<Mark>, key: Key): Option<string> {
    if marks == [] then None
    else if marks[|marks| - 1].key == key && marks[|marks| - 1].hash != "" then Some(marks[|marks| - 1].hash)
    else LastRealHash(marks[..|marks| - 1], key)
  }

  /** What the two representations hold under a key. */
  lemma {:induction false} ContentsAfter(marks: seq<Mark>, key: Key)
    ensures var last, hash := LastHash(marks, key), LastRealHash(marks, key);
      && (key in RedisAfter(marks) <==> last.Some?)
      && (last.Some? ==> RedisAfter(marks)[key] == if last.value == "" then NO_HASH else last.value)
      && (key in MemoryAfter(marks).keys <==> last.Some?)
      && (key in MemoryAfter(marks).hashes <==> hash.Some?)
      && (hash.Some? ==> MemoryAfter(marks).hashes[key] == hash.value && last.Some?)
      && (last.Some? && last.value != "" ==> hash == last)
  {
    if marks != [] {
      ContentsAfter(marks[..|marks| - 1], key);
    }
  }

  /** The verdict of Redis after any marks: NEW for a key that was never marked, a duplicate if the last mark
      carried this hash, none, or the value "1" that stands for none, and a mismatch otherwise. */
  lemma VerdictAfter(marks: seq<Mark>, key: Key, probe: string)
    ensures var verdict, last := CheckRedis(RedisAfter(marks), key, probe), LastHash(marks, key);
      && (verdict == New <==> last.None?)
      && (verdict == ValidDuplicate <==> last.Some? && last.value in {probe, "", "1"})
      && (verdict == PayloadMismatch <==> last.Some? && last.value !in {probe, "", "1"})
  {
    ContentsAfter(marks, key);
  }

  /** The last mark of the key is not the reserved value, and if it carries no hash, none ever did. */
  predicate IsClean(marks: seq<Mark>, key: Key) {
    match LastHash(marks, key)
    case None => true
    case Some(hash) => hash != NO_HASH && (hash == "" ==> LastRealHash(marks, key).None?)
  }

  /** After any sequence of marks, the fallback answers every check of a key as Redis would, exactly
      when the marks of the key are clean. */
  lemma FallbackAgreesExactlyWhenClean(marks: seq<Mark>, key: Key)
    ensures (forall probe :: CheckMemory(MemoryAfter(marks), key, probe) == CheckRedis(RedisAfter(marks), key, probe))
       <==> IsClean(marks, key)
  {
    ContentsAfter(marks, key);
    if !IsClean(marks, key) {
      var other := LastRealHash(marks, key).value + "x";
      assert |other| != |LastRealHash(marks, key).value|;
      assert CheckMemory(MemoryAfter(marks), key, other) != CheckRedis(RedisAfter(marks), key, other);
    }
  }

  /** Marks that all carry a hash other than the reserved value are clean: the fallback refines the map. */
  lemma {:induction false} HashedMarksAreClean(marks: seq<Mark>, key: Key)
    requires forall m | m in marks :: m.hash != "" && m.hash != NO_HASH
    ensures IsClean(marks, key)
  {
    if marks != [] {
      HashedMarksAreClean(marks[..|marks| - 1], key);
    }
  }
}
