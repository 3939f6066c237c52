/**
 * The flash-message table that a ServiceProvider keeps in the PHP session under
 * the key '__flashes': every flash type (such as "info" or "error") maps to the
 * messages flashed with that type, oldest first.
 */
module FlashStore {
  import opened Wrappers

  /** The table itself: flash type to its ordered list of messages. The order in
      which the types were first flashed (the key order of the PHP array) is
      not kept: two tables are equal here when they hold the same key/value
      pairs, which is PHP's `==` on arrays, not `===`. */
  type Table = map<string, seq<string>>

  /** The session entry '__flashes': None while it is unset. An empty table is
      still set (PHP's isset is true of an empty array). */
  type Store = Option<Table>

  /** The type that flash() takes as its default argument, and the one it uses
      when its type argument is an array of parameters. */
  const DefaultType: string := "info"

  /** The second argument of flash(): a type name, or an array that PHP then
      takes as the markdown parameters. */
  datatype TypeArg = Named(name: string) | Params(args: seq<string>)

  /** What flashes() hands back: with no type the whole table, with a type that
      type's list. PHP returns a bare empty array when the store is unset; here
      that is the empty value of the requested shape. */
  datatype Flashed = AllTypes(table: Table) | OneType(messages: seq<string>)

  /** The types that have an entry (isset) in the store. */
  function Types(store: Store): (r: set<string>)
  {
    if store.None? then {} else store.value.Keys
  }

  /** The messages stored for `kind`, oldest first; empty when the store or the
      type's entry is missing. */
  function Messages(store: Store, kind: string): (r: seq<string>)
  {
    if store.Some? && kind in store.value then store.value[kind] else []
  }

  /** flash() on the table: create the table, or the entry for `kind`, when it is
      missing, then append `entry` (the rendered message) at the end of `kind`'s
      list. The result is always a set table. */
  function Flash(store: Store, kind: string, entry: string): (r: Table)
    ensures r.Keys == Types(store) + {kind}
    ensures Messages(Some(r), kind) == Messages(store, kind) + [entry]
    ensures forall k :: k != kind ==> Messages(Some(r), k) == Messages(store, k)
  {
    var table :=
      if store.None? then map[kind := []]
      else if kind !in store.value then store.value[kind := []]
      else store.value;
    table[kind := table[kind] + [entry]]
  }

  /** flashes() on the table: returns and clears everything (no type), or the
      list of one type, removing only that type's entry. An unset store gives an
      empty answer and stays unset; a missing type gives an empty list and
      leaves the store as it was. */
  function Take(store: Store, kind: Option<string>): (r: (Flashed, Store))
    ensures kind.None? ==> r.0.AllTypes? && r.1 == None
    ensures kind.None? ==> r.0.table.Keys == Types(store)
    ensures kind.None? ==> forall k :: Messages(Some(r.0.table), k) == Messages(store, k)
    ensures kind.Some? ==> r.0 == OneType(Messages(store, kind.value))
    ensures kind.Some? ==> r.1.Some? == store.Some? && Types(r.1) == Types(store) - {kind.value}
    ensures kind.Some? ==> forall k :: k != kind.value ==> Messages(r.1, k) == Messages(store, k)
    ensures kind.Some? && kind.value !in Types(store) ==> r.1 == store
  {
    if store.None? then
      (if kind.None? then AllTypes(map[]) else OneType([]), None)
    else if kind.None? then
      (AllTypes(store.value), None)
    else if kind.value in store.value then
      (OneType(store.value[kind.value]), Some(store.value - {kind.value}))
    else
      (OneType([]), store)
  }

  /** A run of flash() calls, each a (type, rendered message) pair, applied in order. */
  function FlashAll(store: Store, trace: seq<(string, string)>): (r: Store)
    decreases |trace|
  {
    if trace == [] then store
    else FlashAll(Some(Flash(store, trace[0].0, trace[0].1)), trace[1..])
  }

  /** The messages of `kind` in a run of flashes, in the order they were flashed. */
  function EntriesOf(trace: seq<(string, string)>, kind: string): (r: seq<string>)
    decreases |trace|
  {
    if trace == [] then []
    else (if trace[0].0 == kind then [trace[0].1] else []) + EntriesOf(trace[1..], kind)
  }

  /** Flashing appends and never reorders: after any run of flashes, a type's list
      is what it held before followed by exactly the messages flashed to that
      type, in flash order; flashes of other types do not touch it. */
  lemma {:induction false} FlashAllMessages(store: Store, trace: seq<(string, string)>, kind: string)
    ensures Messages(FlashAll(store, trace), kind) == Messages(store, kind) + EntriesOf(trace, kind)
    decreases |trace|
  {
    if trace != [] {
      var next := Some(Flash(store, trace[0].0, trace[0].1));
      FlashAllMessages(next, trace[1..], kind);
      if trace[0].0 == kind {
        assert Messages(next, kind) == Messages(store, kind) + [trace[0].1];
        assert EntriesOf(trace, kind) == [trace[0].1] + EntriesOf(trace[1..], kind);
      } else {
        assert Messages(next, kind) == Messages(store, kind);
        assert EntriesOf(trace, kind) == EntriesOf(trace[1..], kind);
      }
    }
  }

  /** After any run of flashes the table is set, and it holds exactly the types it
      held before plus the types that were flashed. */
  lemma {:induction false} FlashAllTypes(store: Store, trace: seq<(string, string)>)
    requires trace != []
    ensures FlashAll(store, trace).Some?
    ensures Types(FlashAll(store, trace)) == Types(store) + set i | 0 <= i < |trace| :: trace[i].0
    decreases |trace|
  {
    var next := Some(Flash(store, trace[0].0, trace[0].1));
    if |trace| == 1 {
      assert (set i | 0 <= i < |trace| :: trace[i].0) == {trace[0].0};
    } else {
      FlashAllTypes(next, trace[1..]);
      var rest := set i | 0 <= i < |trace[1..]| :: trace[1..][i].0;
      var all := set i | 0 <= i < |trace| :: trace[i].0;
      assert all == {trace[0].0} + rest by {
        forall t | t in all ensures t in {trace[0].0} + rest {
          var i :| 0 <= i < |trace| && trace[i].0 == t;
          if i > 0 { assert trace[1..][i - 1].0 == t; }
        }
        forall t | t in rest ensures t in all {
          var i :| 0 <= i < |trace[1..]| && trace[1..][i].0 == t;
          assert trace[i + 1].0 == t;
        }
      }
    }
  }

  /** Reading one type right after flashing it gives its earlier messages with the
      new one last, and leaves every other type as it was. */
  lemma FlashThenTakeType(store: Store, kind: string, entry: string)
    ensures Take(Some(Flash(store, kind, entry)), Some(kind)).0 == OneType(Messages(store, kind) + [entry])
    ensures forall k :: k != kind ==> Messages(Take(Some(Flash(store, kind, entry)), Some(kind)).1, k) == Messages(store, k)
  {
  }

  /** flashes() with no type clears the store, so a second call finds nothing. */
  lemma TakeAllTwice(store: Store)
    ensures Take(Take(store, None).1, None) == (AllTypes(map[]), None)
  {
  }

  /** flashes(type) clears that type, so a second call for it finds nothing and
      changes nothing. */
  lemma TakeTypeTwice(store: Store, kind: string)
    ensures Take(Take(store, Some(kind)).1, Some(kind)) == (OneType([]), Take(store, Some(kind)).1)
  {
  }

  /** Flashes of two different types commute as key/value pairs (PHP `==`): each
      type gets the same list in either order. The PHP array would also list the
      types in first-flash order, which this table does not record. */
  lemma FlashOtherTypesCommute(store: Store, k1: string, e1: string, k2: string, e2: string)
    requires k1 != k2
    ensures Flash(Some(Flash(store, k1, e1)), k2, e2) == Flash(Some(Flash(store, k2, e2)), k1, e1)
  {
  }
}
