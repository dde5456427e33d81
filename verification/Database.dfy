/**
  The table of registered agents and its simple stand-in. The table keeps hashes under signed ids;
  the stand-in keeps the passcodes themselves in a map. SHA-256 is some function, fixed per table.
*/
module Database {
  import opened Common

  type Hash = Passcode -> Bytes

  const I64_LIMIT: int := 0x8000_0000_0000_0000
  type i64 = x: int | -I64_LIMIT <= x < I64_LIMIT

  /** Public ids are unsigned, the column is signed: the cast keeps the bits. */
  function AsI64(id: u64): (r: i64)
    ensures (r - id) % U64_RANGE == 0
  {
    if id < I64_LIMIT then id else id - U64_RANGE
  }

  /** Two ids never share a row, and every row belongs to an id. */
  lemma CastIsBijection(a: u64, b: u64, pid: i64)
    ensures AsI64(a) == AsI64(b) <==> a == b
    ensures exists id: u64 :: AsI64(id) == pid
  {
    assert AsI64(if pid < 0 then pid + U64_RANGE else pid) == pid;
  }

  datatype Row = Row(publicId: i64, secureKey: Bytes, lastSeen: int)

  // ---------------------------------------------------------------------------------------------
  // Queries and updates
  // ---------------------------------------------------------------------------------------------

  /** `public_id BLOB NOT NULL UNIQUE` */
  ghost predicate Unique(rows: seq<Row>) {
    forall i, j :: 0 <= i < j < |rows| ==> rows[i].publicId != rows[j].publicId
  }

  function Where(rows: seq<Row>, pid: i64): seq<Row> {
    if rows == [] then []
    else (if rows[0].publicId == pid then [rows[0]] else []) + Where(rows[1..], pid)
  }

  function First(rows: seq<Row>): Option<Row> { if rows == [] then None else Some(rows[0]) }

  /** INSERT ... ON CONFLICT (public_id) DO UPDATE SET secure_key */
  function Upserted(rows: seq<Row>, row: Row): seq<Row> {
    if rows == [] then [row]
    else if rows[0].publicId == row.publicId then [rows[0].(secureKey := row.secureKey)] + rows[1..]
    else [rows[0]] + Upserted(rows[1..], row)
  }

  /** UPDATE ... SET last_seen WHERE public_id */
  function Touched(rows: seq<Row>, pid: i64, now: int): seq<Row> {
    if rows == [] then []
    else [if rows[0].publicId == pid then rows[0].(lastSeen := now) else rows[0]] + Touched(rows[1..], pid, now)
  }

  // ---------------------------------------------------------------------------------------------
  // What a table stands for
  // ---------------------------------------------------------------------------------------------

  function Find(rows: seq<Row>, pid: i64): Option<Row> {
    if rows == [] then None else if rows[0].publicId == pid then Some(rows[0]) else Find(rows[1..], pid)
  }

  function RowOf(rows: seq<Row>, id: u64): Option<Row> { Find(rows, AsI64(id)) }

  ghost function Credentials(rows: seq<Row>): imap<u64, Bytes> {
    imap id: u64 | RowOf(rows, id).Some? :: RowOf(rows, id).value.secureKey
  }

  ghost function LastSeen(rows: seq<Row>): imap<u64, int> {
    imap id: u64 | RowOf(rows, id).Some? :: RowOf(rows, id).value.lastSeen
  }

  lemma {:induction false} FindFails(rows: seq<Row>, pid: i64)
    ensures Find(rows, pid) == None <==> forall i :: 0 <= i < |rows| ==> rows[i].publicId != pid
  {
    if rows != [] {
      FindFails(rows[1..], pid);
      if Find(rows, pid) != None && rows[0].publicId != pid {
        var i :| 0 <= i < |rows| - 1 && rows[1..][i].publicId == pid;
        assert rows[i + 1].publicId == pid;
      }
    }
  }

  /** A query by id finds the one row there is, so its first row and its count say everything. */
  lemma {:induction false} WhereFindsTheRow(rows: seq<Row>, pid: i64)
    requires Unique(rows)
    ensures Where(rows, pid) == if Find(rows, pid).Some? then [Find(rows, pid).value] else []
  {
    if rows != [] {
      WhereFindsTheRow(rows[1..], pid);
      if rows[0].publicId == pid {
        FindFails(rows[1..], pid);
      }
    }
  }

  lemma {:induction false} FindUpserted(rows: seq<Row>, row: Row, pid: i64)
    ensures Find(Upserted(rows, row), pid) ==
      if pid != row.publicId then Find(rows, pid)
      else if Find(rows, pid).Some? then Some(Find(rows, pid).value.(secureKey := row.secureKey)) else Some(row)
  {
    if rows != [] {
      FindUpserted(rows[1..], row, pid);
    }
  }

  lemma {:induction false} UpsertedKeepsUnique(rows: seq<Row>, row: Row)
    requires Unique(rows)
    ensures Unique(Upserted(rows, row))
    ensures forall r :: r in Upserted(rows, row) ==>
      r.publicId == row.publicId || exists j :: 0 <= j < |rows| && rows[j].publicId == r.publicId
  {
    if rows != [] && rows[0].publicId != row.publicId {
      UpsertedKeepsUnique(rows[1..], row);
    }
  }

  /** An upsert sets one key; who was there before keeps the time it was last seen. */
  lemma UpsertedMeans(rows: seq<Row>, id: u64, key: Bytes, now: int)
    requires Unique(rows)
    ensures var after := Upserted(rows, Row(AsI64(id), key, now));
      && Unique(after) && Credentials(after) == Credentials(rows)[id := key]
      && LastSeen(after) == if id in LastSeen(rows) then LastSeen(rows) else LastSeen(rows)[id := now]
  {
    UpsertedKeepsUnique(rows, Row(AsI64(id), key, now));
    var after := Upserted(rows, Row(AsI64(id), key, now));
    forall k: u64 ensures RowOf(after, k) == RowAfter(rows, id, key, now, k) {
      FindUpserted(rows, Row(AsI64(id), key, now), AsI64(k));
      CastIsBijection(id, k, 0);
    }
    hide Unique, Upserted, RowOf, AsI64;
    SavedViews(rows, after, id, key, now);
  }

  ghost function RowAfter(rows: seq<Row>, id: u64, key: Bytes, now: int, k: u64): Option<Row> {
    var before := RowOf(rows, k);
    if k != id then before
    else if before.Some? then Some(before.value.(secureKey := key)) else Some(Row(AsI64(id), key, now))
  }

  lemma SavedViews(rows: seq<Row>, after: seq<Row>, id: u64, key: Bytes, now: int)
    requires forall k: u64 :: RowOf(after, k) == RowAfter(rows, id, key, now, k)
    ensures Credentials(after) == Credentials(rows)[id := key]
    ensures LastSeen(after) == if id in LastSeen(rows) then LastSeen(rows) else LastSeen(rows)[id := now]
  {
    hide RowOf, AsI64;
  }

  lemma {:induction false} FindTouched(rows: seq<Row>, pid: i64, now: int, other: i64)
    ensures Find(Touched(rows, pid, now), other) ==
      if other == pid && Find(rows, pid).Some? then Some(Find(rows, pid).value.(lastSeen := now)) else Find(rows, other)
  {
    if rows != [] {
      FindTouched(rows[1..], pid, now, other);
    }
  }

  lemma {:induction false} TouchedKeepsIds(rows: seq<Row>, pid: i64, now: int)
    ensures |Touched(rows, pid, now)| == |rows|
    ensures forall i :: 0 <= i < |rows| ==> Touched(rows, pid, now)[i].publicId == rows[i].publicId
  {
    if rows != [] {
      TouchedKeepsIds(rows[1..], pid, now);
    }
  }

  /** A visit sets one time, if the agent is known, and no key. */
  lemma TouchedMeans(rows: seq<Row>, id: u64, now: int)
    requires Unique(rows)
    ensures var after := Touched(rows, AsI64(id), now);
      && Unique(after) && Credentials(after) == Credentials(rows)
      && LastSeen(after) == if id in LastSeen(rows) then LastSeen(rows)[id := now] else LastSeen(rows)
  {
    TouchedKeepsIds(rows, AsI64(id), now);
    forall k: u64
      ensures RowOf(Touched(rows, AsI64(id), now), k) ==
        if k == id && RowOf(rows, k).Some? then Some(RowOf(rows, k).value.(lastSeen := now)) else RowOf(rows, k)
    {
      FindTouched(rows, AsI64(id), now, AsI64(k));
      CastIsBijection(id, k, 0);
    }
    hide Touched, RowOf;
  }

  // ---------------------------------------------------------------------------------------------
  // The two databases
  // ---------------------------------------------------------------------------------------------

  class AgentTable {
    const hash: Hash
    var rows: seq<Row>

    ghost predicate Valid()
      reads this
    {
      Unique(rows)
    }

    constructor (hash: Hash)
      ensures Valid() && this.hash == hash && Credentials(rows) == imap[]
    {
      this.hash := hash;
      rows := [];
    }

    method SaveEntry(id: u64, passcode: Passcode, now: int) returns (previous: Option<Bytes>)
      requires Valid()
      modifies this
      ensures Valid() && rows == Upserted(old(rows), Row(AsI64(id), hash(passcode), now))
      ensures Credentials(rows) == old(Credentials(rows))[id := hash(passcode)]
      ensures LastSeen(rows) ==
              if id in old(LastSeen(rows)) then old(LastSeen(rows)) else old(LastSeen(rows))[id := now]
      ensures previous == if id in old(Credentials(rows)) then Some(old(Credentials(rows))[id]) else None
    {
      WhereFindsTheRow(rows, AsI64(id));
      UpsertedMeans(rows, id, hash(passcode), now);
      var existing := First(Where(rows, AsI64(id)));
      rows := Upserted(rows, Row(AsI64(id), hash(passcode), now));
      previous := if existing.Some? then Some(existing.value.secureKey) else None;
    }

    method ValidateServer(id: u64, passcode: Passcode) returns (ok: bool)
      requires Valid()
      ensures ok <==> id in Credentials(rows) && Credentials(rows)[id] == hash(passcode)
    {
      WhereFindsTheRow(rows, AsI64(id));
      var users := Where(rows, AsI64(id));
      if users != [] {
        ok := hash(passcode) == users[0].secureKey;
      } else {
        ok := false;
      }
    }

    method ContainsEntry(id: u64) returns (found: bool)
      requires Valid()
      ensures found <==> id in Credentials(rows)
    {
      WhereFindsTheRow(rows, AsI64(id));
      found := |Where(rows, AsI64(id))| != 0;
    }

    method UpdateLastSeen(id: u64, now: int)
      requires Valid()
      modifies this
      ensures Valid() && rows == Touched(old(rows), AsI64(id), now)
      ensures Credentials(rows) == old(Credentials(rows))
      ensures LastSeen(rows) ==
              if id in old(LastSeen(rows)) then old(LastSeen(rows))[id := now] else old(LastSeen(rows))
    {
      TouchedMeans(rows, id, now);
      rows := Touched(rows, AsI64(id), now);
    }
  }

  class MockDb {
    var store: map<u64, Passcode>

    constructor ()
      ensures store == map[]
    {
      store := map[];
    }

    method SaveEntry(id: u64, passcode: Passcode) returns (previous: Option<Passcode>)
      modifies this
      ensures store == old(store)[id := passcode]
      ensures previous == if id in old(store) then Some(old(store)[id]) else None
    {
      previous := if id in store then Some(store[id]) else None;
      store := store[id := passcode];
    }

    method ValidateServer(id: u64, passcode: Passcode) returns (ok: bool)
      ensures ok <==> id in store && store[id] == passcode
    {
      ok := id in store && store[id] == passcode;
    }

    method ContainsEntry(id: u64) returns (found: bool)
      ensures found <==> id in store
    {
      found := id in store;
    }

    /** The stand-in keeps no times. */
    method UpdateLastSeen(id: u64) {}
  }

  // ---------------------------------------------------------------------------------------------
  // The table refines the map
  // ---------------------------------------------------------------------------------------------

  datatype Op = Save(id: u64, passcode: Passcode, now: int)
              | Validate(id: u64, passcode: Passcode)
              | Contains(id: u64)
              | Touch(id: u64, now: int)

  datatype Reply = Previous(key: Option<Bytes>) | Answer(yes: bool) | Nothing

  /** What each call of a run answers, as the contracts of the two classes say. */
  ghost function TableReply(hash: Hash, rows: seq<Row>, op: Op): Reply {
    match op
    case Save(id, _, _) => Previous(if id in Credentials(rows) then Some(Credentials(rows)[id]) else None)
    case Validate(id, passcode) => Answer(id in Credentials(rows) && Credentials(rows)[id] == hash(passcode))
    case Contains(id) => Answer(id in Credentials(rows))
    case Touch(_, _) => Nothing
  }

  ghost function TableAfter(hash: Hash, rows: seq<Row>, ops: seq<Op>): seq<Row> {
    if ops == [] then rows
    else var before := TableAfter(hash, rows, ops[..|ops| - 1]);
      match ops[|ops| - 1]
      case Save(id, passcode, now) => Upserted(before, Row(AsI64(id), hash(passcode), now))
      case Touch(id, now) => Touched(before, AsI64(id), now)
      case Validate(_, _) => before
      case Contains(_) => before
  }

  ghost function MockReply(store: map<u64, Passcode>, op: Op): Reply {
    match op
    case Save(id, _, _) => Previous(if id in store then Some(store[id]) else None)
    case Validate(id, passcode) => Answer(id in store && store[id] == passcode)
    case Contains(id) => Answer(id in store)
    case Touch(_, _) => Nothing
  }

  ghost function MockAfter(store: map<u64, Passcode>, ops: seq<Op>): map<u64, Passcode> {
    if ops == [] then store
    else var before := MockAfter(store, ops[..|ops| - 1]);
      match ops[|ops| - 1]
      case Save(id, passcode, _) => before[id := passcode]
      case _ => before
  }

  /** The table holds exactly the hashes of what the map holds. */
  ghost predicate Simulates(hash: Hash, rows: seq<Row>, store: map<u64, Passcode>) {
    && Unique(rows)
    && (forall id: u64 :: id in Credentials(rows) <==> id in store)
    && (forall id: u64 :: id in store ==> Credentials(rows)[id] == hash(store[id]))
  }

  lemma {:induction false} TableRefinesMock(hash: Hash, ops: seq<Op>)
    ensures Simulates(hash, TableAfter(hash, [], ops), MockAfter(map[], ops))
  {
    if ops != [] {
      TableRefinesMock(hash, ops[..|ops| - 1]);
      var rows := TableAfter(hash, [], ops[..|ops| - 1]);
      hide Credentials, Unique;
      match ops[|ops| - 1] {
        case Save(id, passcode, now) => UpsertedMeans(rows, id, hash(passcode), now);
        case Touch(id, now) => TouchedMeans(rows, id, now);
        case Validate(_, _) =>
        case Contains(_) =>
      }
    } else {
      assert Credentials([]) == imap[];
    }
  }

  /** The same answer: a key given back is the hash of the passcode the map gives back. */
  ghost predicate SameReply(hash: Hash, t: Reply, m: Reply) {
    if m.Previous? then t == Previous(if m.key.Some? then Some(hash(m.key.value)) else None) else t == m
  }

  /** Every call of every run answers alike, validation excepted: it accepts what the map accepts,
      and beyond that only what has the hash of the stored passcode. */
  lemma RepliesAgree(hash: Hash, ops: seq<Op>, op: Op)
    ensures var t := TableReply(hash, TableAfter(hash, [], ops), op);
      var m := MockReply(MockAfter(map[], ops), op);
      if op.Validate? then
        && (m.yes ==> t.yes)
        && (t.yes ==> op.id in MockAfter(map[], ops)
                      && (m.yes <==> MockAfter(map[], ops)[op.id] == op.passcode)
                      && hash(MockAfter(map[], ops)[op.id]) == hash(op.passcode))
      else SameReply(hash, t, m)
  {
    TableRefinesMock(hash, ops);
    hide Credentials, Unique, TableAfter, MockAfter;
  }

  ghost predicate InjectiveOn(hash: Hash, used: set<Passcode>) {
    forall p, q :: p in used && q in used && hash(p) == hash(q) ==> p == q
  }

  predicate UsesOnly(op: Op, used: set<Passcode>) { (op.Save? || op.Validate?) ==> op.passcode in used }

  ghost predicate AllUseOnly(ops: seq<Op>, used: set<Passcode>) { forall o :: o in ops ==> UsesOnly(o, used) }

  /** After the same calls, both give the same answer to the next. */
  ghost predicate Agree(hash: Hash, ops: seq<Op>, op: Op) {
    SameReply(hash, TableReply(hash, TableAfter(hash, [], ops), op), MockReply(MockAfter(map[], ops), op))
  }

  /** The two cannot be told apart ... */
  ghost predicate Indistinguishable(hash: Hash, used: set<Passcode>) {
    forall ops, op :: AllUseOnly(ops, used) && UsesOnly(op, used) ==> Agree(hash, ops, op)
  }

  /** ... by any run over a set of passcodes, if and only if the hash tells those passcodes apart. */
  lemma IndistinguishableIff(hash: Hash, used: set<Passcode>)
    ensures Indistinguishable(hash, used) <==> InjectiveOn(hash, used)
  {
    hide Agree, AllUseOnly, UsesOnly;
    if InjectiveOn(hash, used) {
      forall ops, op | AllUseOnly(ops, used) && UsesOnly(op, used) ensures Agree(hash, ops, op) {
        NoCollision(hash, used, ops, op);
      }
    } else {
      var p, q :| p in used && q in used && hash(p) == hash(q) && p != q;
      CollisionShows(hash, used, p, q);
    }
  }

  lemma NoCollision(hash: Hash, used: set<Passcode>, ops: seq<Op>, op: Op)
    requires InjectiveOn(hash, used) && UsesOnly(op, used) && AllUseOnly(ops, used)
    ensures Agree(hash, ops, op)
  {
    TableRefinesMock(hash, ops);
    StoresOnlyUsed(used, ops);
    hide Credentials, TableAfter, MockAfter;
  }

  lemma {:induction false} StoresOnlyUsed(used: set<Passcode>, ops: seq<Op>)
    requires AllUseOnly(ops, used)
    ensures forall id :: id in MockAfter(map[], ops) ==> MockAfter(map[], ops)[id] in used
  {
    if ops != [] {
      StoresOnlyUsed(used, ops[..|ops| - 1]);
      assert UsesOnly(ops[|ops| - 1], used);
    }
  }

  lemma CollisionShows(hash: Hash, used: set<Passcode>, p: Passcode, q: Passcode)
    requires p in used && q in used && hash(p) == hash(q) && p != q
    ensures !Indistinguishable(hash, used)
  {
    var ops, op := [Save(0, p, 0)], Validate(0, q);
    TableRefinesMock(hash, ops);
    assert ops[..0] == [];
    assert MockAfter(map[], ops) == map[0 := p];
    assert AllUseOnly(ops, used) && UsesOnly(op, used) && !Agree(hash, ops, op);
  }
}
