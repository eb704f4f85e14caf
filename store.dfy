/**
 * The user status store: a single table `users` keyed by the user id, with
 * three boolean columns that all default to false.
 *
 * The table is a map from user id to record. Each store operation is given
 * twice: as a value of `StoreOp` whose meaning is `Apply` (used to reason
 * about whole sequences of writes), and as a method of `UserStore` that
 * updates the table in place and is proved to do exactly what `Apply` says.
 */
module Store {

  /** One row of the table, without its key. */
  datatype Record = Record(subscribed: bool, verifJoined: bool, registered: bool)

  /** The row the table's column defaults give a freshly inserted user. */
  const NewRecord := Record(false, false, false)

  /** The table: at most one record per user id, since the id is the primary key. */
  type Table = map<int, Record>

  /** What reading a user's row yields: the stored record, or all-false when there is none. */
  function StatusOf(t: Table, id: int): Record
  {
    if id in t then t[id] else NewRecord
  }

  /**
   * The ids SQLite can bind as an INTEGER: signed 64-bit. Binding an id
   * outside this range raises before the statement runs.
   */
  predicate FitsSqliteInteger(id: int)
  {
    -0x8000_0000_0000_0000 <= id < 0x8000_0000_0000_0000
  }

  /** The writes the store supports. */
  datatype StoreOp =
    | Add(id: int)                          // INSERT OR IGNORE
    | SetSubscribed(id: int, value: bool)   // UPDATE ... SET subscribed
    | SetVerification(id: int, value: bool) // UPDATE ... SET verif_joined
    | SetRegistered(id: int)                // UPDATE ... SET registered = true

  /**
   * The table after one write. An insert adds a default row only for a new
   * key; an update matching no row writes nothing. No write ever removes a
   * row, touches a row other than its own, or clears `registered`.
   */
  function Apply(t: Table, op: StoreOp): (r: Table)
    ensures r.Keys == if op.Add? then t.Keys + {op.id} else t.Keys
    ensures forall k :: k in t && k != op.id ==> r[k] == t[k]
    ensures forall k :: k in t && t[k].registered ==> r[k].registered
  {
    match op
    case Add(id) => if id in t then t else t[id := NewRecord]
    case SetSubscribed(id, b) => if id in t then t[id := t[id].(subscribed := b)] else t
    case SetVerification(id, b) => if id in t then t[id := t[id].(verifJoined := b)] else t
    case SetRegistered(id) => if id in t then t[id := t[id].(registered := true)] else t
  }

  /** True when no write in `ops` names user `k`. */
  predicate Untouched(ops: seq<StoreOp>, k: int)
  {
    forall i :: 0 <= i < |ops| ==> ops[i].id != k
  }

  /**
   * The table after a sequence of writes, applied in order. Rows are never
   * removed, `registered` is never cleared, and a user no write names keeps
   * exactly the row (or the absence of a row) it had.
   */
  function ApplyAll(t: Table, ops: seq<StoreOp>): (r: Table)
    ensures t.Keys <= r.Keys
    ensures forall k :: k in t && t[k].registered ==> r[k].registered
    ensures forall k :: Untouched(ops, k) ==> (k in r <==> k in t) && (k in t ==> r[k] == t[k])
    decreases |ops|
  {
    if ops == [] then t
    else
      var r := ApplyAll(Apply(t, ops[0]), ops[1..]);
      assert forall k :: Untouched(ops, k) ==> Untouched(ops[1..], k) && ops[0].id != k by {
        forall k | Untouched(ops, k) ensures Untouched(ops[1..], k) && ops[0].id != k {
          assert ops[0].id != k;
          forall i | 0 <= i < |ops[1..]| ensures ops[1..][i].id != k {
            assert ops[1..][i] == ops[i + 1];
          }
        }
      }
      r
  }

  /** Writing `a` and then `b` is writing `a + b`. */
  lemma {:induction false} ApplyAllAppend(t: Table, a: seq<StoreOp>, b: seq<StoreOp>)
    ensures ApplyAll(t, a + b) == ApplyAll(ApplyAll(t, a), b)
    decreases |a|
  {
    if a == [] {
      assert a + b == b;
    } else {
      assert (a + b)[0] == a[0];
      assert (a + b)[1..] == a[1..] + b;
      ApplyAllAppend(Apply(t, a[0]), a[1..], b);
    }
  }

  /** A one-write sequence means that write. */
  lemma ApplyAllSingle(t: Table, op: StoreOp)
    ensures ApplyAll(t, [op]) == Apply(t, op)
  {
  }

  /** Appending one write to a sequence applies it last. */
  lemma ApplyAllSnoc(t: Table, ops: seq<StoreOp>, op: StoreOp)
    ensures ApplyAll(t, ops + [op]) == Apply(ApplyAll(t, ops), op)
  {
    ApplyAllAppend(t, ops, [op]);
    ApplyAllSingle(ApplyAll(t, ops), op);
  }

  /** Inserting a user twice leaves the table as one insert did. */
  lemma AddIdempotent(t: Table, id: int)
    ensures Apply(Apply(t, Add(id)), Add(id)) == Apply(t, Add(id))
  {
  }

  /** An update or `mark_registered` on a user with no row creates none and changes nothing. */
  lemma UpdateOfAbsentUserIsNoop(t: Table, op: StoreOp)
    requires !op.Add? && op.id !in t
    ensures Apply(t, op) == t
  {
  }

  /**
   * The store object. `users` is the whole table; every method is one
   * statement against it, atomic per call.
   */
  class UserStore {
    var users: Table

    /** `init_db`: the table starts empty. */
    constructor ()
      ensures users == map[]
    {
      users := map[];
    }

    /** `add_user`: insert a default row unless the user already has one. */
    method AddUser(id: int)
      modifies this
      ensures id in users
      ensures id in old(users) ==> users == old(users)
      ensures id !in old(users) ==> users[id] == NewRecord && users.Keys == old(users).Keys + {id}
      ensures forall k :: k in old(users) ==> k in users && users[k] == old(users)[k]
      ensures users == Apply(old(users), Add(id))
    {
      if id !in users {
        users := users[id := NewRecord];
      }
    }

    /** `update_subscription`: overwrite `subscribed` of an existing row. */
    method UpdateSubscription(id: int, status: bool)
      modifies this
      ensures users.Keys == old(users).Keys
      ensures id in users ==>
        users[id].subscribed == status &&
        users[id].verifJoined == old(users)[id].verifJoined &&
        users[id].registered == old(users)[id].registered
      ensures forall k :: k in users && k != id ==> users[k] == old(users)[k]
      ensures id !in old(users) ==> users == old(users)
      ensures users == Apply(old(users), SetSubscribed(id, status))
    {
      if id in users {
        users := users[id := users[id].(subscribed := status)];
      }
    }

    /** `update_verification`: overwrite `verif_joined` of an existing row. */
    method UpdateVerification(id: int, status: bool)
      modifies this
      ensures users.Keys == old(users).Keys
      ensures id in users ==>
        users[id].verifJoined == status &&
        users[id].subscribed == old(users)[id].subscribed &&
        users[id].registered == old(users)[id].registered
      ensures forall k :: k in users && k != id ==> users[k] == old(users)[k]
      ensures id !in old(users) ==> users == old(users)
      ensures users == Apply(old(users), SetVerification(id, status))
    {
      if id in users {
        users := users[id := users[id].(verifJoined := status)];
      }
    }

    /** `mark_registered`: set `registered` of an existing row to true. */
    method MarkRegistered(id: int)
      modifies this
      ensures users.Keys == old(users).Keys
      ensures id in users ==>
        users[id].registered &&
        users[id].subscribed == old(users)[id].subscribed &&
        users[id].verifJoined == old(users)[id].verifJoined
      ensures forall k :: k in users && k != id ==> users[k] == old(users)[k]
      ensures id !in old(users) ==> users == old(users)
      ensures users == Apply(old(users), SetRegistered(id))
    {
      if id in users {
        users := users[id := users[id].(registered := true)];
      }
    }

    /** `get_user_status`: the stored flags, or all-false for an unknown user; a missing row is not an error. */
    method GetUserStatus(id: int) returns (r: Record)
      ensures id in users ==> r == users[id]
      ensures id !in users ==> !r.subscribed && !r.verifJoined && !r.registered
      ensures r == StatusOf(users, id)
    {
      if id in users {
        r := users[id];
      } else {
        r := NewRecord;
      }
    }
  }
}
