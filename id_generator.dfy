/** The shared-data id generator: every generator keeps its counter under
    its own name in one shared map (`__ID__`), so generators with the same
    name share a sequence. `nextId` stores and returns 1 the first time,
    and the stored value plus one (a Java `long`, wrapping) after that. The
    asynchronous hand-off through `runOnContext` is left out: each call takes
    effect when it runs. */
module IdGeneration {
  import opened Common

  const ID_MAP_NAME: string := "__ID__"

  /** One step of `nextId` on the shared map: the new map and the id
      returned. */
  function Advance(entries: map<string, Int64>, name: string): (r: (map<string, Int64>, Int64))
    ensures name in r.0 && r.0[name] == r.1
    ensures name !in entries ==> r.1 == 1
    ensures name in entries && entries[name] < LONG_MAX ==> r.1 == entries[name] + 1
    ensures name in entries && entries[name] == LONG_MAX ==> r.1 == LONG_MIN
    ensures r.0.Keys == entries.Keys + {name}
    ensures forall k :: k in entries && k != name ==> r.0[k] == entries[k]
  {
    var value := if name in entries then WrapLong(entries[name] as int + 1) else 1;
    (entries[name := value], value)
  }

  /** The shared map after `n` successive calls for `name`. */
  function After(entries: map<string, Int64>, name: string, n: nat): map<string, Int64>
  {
    if n == 0 then entries else Advance(After(entries, name, n - 1), name).0
  }

  /** The ids returned by `n` successive calls for `name`, in call order. */
  function Ids(entries: map<string, Int64>, name: string, n: nat): (ids: seq<Int64>)
    ensures |ids| == n
  {
    if n == 0 then [] else Ids(entries, name, n - 1) + [Advance(After(entries, name, n - 1), name).1]
  }

  /** After `k` calls starting from a stored `start` (0 meaning absent),
      without reaching the `long` limit, the stored value is `start + k`. */
  lemma {:induction false} AfterStored(entries: map<string, Int64>, name: string, start: nat, k: nat)
    requires name in entries ==> entries[name] == start
    requires name !in entries ==> start == 0
    requires start + k <= LONG_MAX
    ensures k > 0 ==> name in After(entries, name, k) && After(entries, name, k)[name] == start + k
    ensures k == 0 ==> After(entries, name, k) == entries
  {
    if k > 0 {
      AfterStored(entries, name, start, k - 1);
    }
  }

  /** `n` successive calls from a stored `start` return `start + 1`, …,
      `start + n`. */
  lemma {:induction false} IdsCount(entries: map<string, Int64>, name: string, start: nat, n: nat)
    requires name in entries ==> entries[name] == start
    requires name !in entries ==> start == 0
    requires start + n <= LONG_MAX
    ensures forall i :: 0 <= i < n ==> Ids(entries, name, n)[i] == start + i + 1
  {
    if n > 0 {
      IdsCount(entries, name, start, n - 1);
      AfterStored(entries, name, start, n - 1);
    }
  }

  /** On a name the map has never seen, `n` calls return 1, 2, …, n. */
  lemma FreshIds(entries: map<string, Int64>, name: string, n: nat)
    requires name !in entries
    requires n <= LONG_MAX
    ensures Ids(entries, name, n) == seq(n, i => i + 1)
  {
    IdsCount(entries, name, 0, n);
  }

  /** Calls for one name never change another name's counter. */
  lemma {:induction false} AfterOthers(entries: map<string, Int64>, name: string, other: string, n: nat)
    requires other != name
    ensures other in After(entries, name, n) <==> other in entries
    ensures other in entries ==> After(entries, name, n)[other] == entries[other]
  {
    if n > 0 {
      AfterOthers(entries, name, other, n - 1);
    }
  }

  /** The shared map itself. */
  class SharedCounters {
    var entries: map<string, Int64>

    constructor ()
      ensures entries == map[]
    {
      entries := map[];
    }
  }

  class SharedDataIdGenerator {
    const name: string
    const counters: SharedCounters

    /** `name()` returns the name given here. */
    constructor (name: string, counters: SharedCounters)
      ensures this.name == name && this.counters == counters
    {
      this.name := name;
      this.counters := counters;
    }

    /** `nextId`: one `Advance` of the shared map under this generator's name. */
    method NextId() returns (id: Int64)
      modifies counters
      ensures counters.entries == Advance(old(counters.entries), name).0
      ensures id == Advance(old(counters.entries), name).1
    {
      var value: Int64;
      if name !in counters.entries {
        counters.entries := counters.entries[name := 1];
        value := 1;
      } else {
        value := WrapLong(counters.entries[name] as int + 1);
        counters.entries := counters.entries[name := value];
      }
      id := value;
    }
  }
}
