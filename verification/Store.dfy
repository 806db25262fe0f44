/**
 The replicated part of the SQLite store: the users and devices tables, the six
 mutation kinds, and the uniqueness rules of the schema. A table is a multiset of
 rows, because the logical dump a peer installs carries no row identity and no
 meaningful order; a row is the map from field name to its database form.
 */
module Store {

  /** The fields of both tables, under the names mutations use; `OtherField` is any other name. */
  datatype Field =
    | Nickname | Password | RegisterKey | RegisterKeyExp | Role | PasswordCycle | Email
    | RegisteredAt | LastPasswordChangedAt | CreatedAt | LastLogin | MFAKey | Was2FAVerified
    | DeviceName | PublicKey | IP | IsLighthouse | CosmosNode | IsRelay | IsLoadBalancer | IsExitNode
    | PublicHostname | Port | Blocked | Fingerprint | APIKey | Invisible | Tags
    | OtherField(name: string)

  type Row = map<Field, string>

  datatype Rows = Rows(users: multiset<Row>, devices: multiset<Row>)

  datatype Table = Users | Devices | OtherTable

  /** What a mutation does; `OtherOp` stands for an operation name the store does not know. */
  datatype Change =
    | Insert(docs: seq<Row>)
    | Update(where_: Row, fields: Row)
    | Delete(where_: Row)
    | OtherOp

  datatype Mutation = Mutation(table: Table, change: Change)

  /** `Rejected` is a uniqueness violation; `Fault` is every other error, which halts an apply loop. */
  datatype Outcome = Accepted(rows: Rows) | Rejected | Fault

  // ----- rows and columns

  predicate UserColumn(f: Field) {
    f in {Nickname, Password, RegisterKey, RegisterKeyExp, Role, PasswordCycle, Email, RegisteredAt,
          LastPasswordChangedAt, CreatedAt, LastLogin, MFAKey, Was2FAVerified}
  }

  predicate DeviceColumn(f: Field) {
    f in {Nickname, DeviceName, PublicKey, IP, IsLighthouse, CosmosNode, IsRelay, IsLoadBalancer,
          IsExitNode, PublicHostname, Port, Blocked, Fingerprint, APIKey, Invisible, Tags}
  }

  /** Every column is NOT NULL with a default, so an absent field reads as the default. */
  function Get(r: Row, field: Field): string {
    if field in r then r[field] else if IntegerColumn(field) then "0" else ""
  }

  predicate IntegerColumn(f: Field) {
    f in {Role, PasswordCycle, Was2FAVerified, IsLighthouse, CosmosNode, IsRelay, IsLoadBalancer, IsExitNode, Blocked, Invisible}
  }

  predicate Active(r: Row) {
    Get(r, Blocked) == "0"
  }

  predicate Matches(r: Row, filter: Row) {
    forall k | k in filter :: Get(r, k) == filter[k]
  }

  predicate KnownFields(t: Table, fields: set<Field>) {
    match t
    case Users => forall f | f in fields :: UserColumn(f)
    case Devices => forall f | f in fields :: DeviceColumn(f)
    case OtherTable => false
  }

  /** Two rows of one table that no unique index lets coexist. */
  predicate Conflict(t: Table, a: Row, b: Row) {
    match t
    case Users => Get(a, Nickname) == Get(b, Nickname)
    case Devices =>
      && Active(a) && Active(b)
      && (Get(a, DeviceName) == Get(b, DeviceName) || Get(a, IP) == Get(b, IP))
    case OtherTable => false
  }

  ghost predicate Unique(t: Table, m: multiset<Row>) {
    && (forall a, b | a in m && b in m && a != b :: !Conflict(t, a, b))
    && (forall a | a in m && Conflict(t, a, a) :: m[a] == 1)
  }

  ghost predicate Consistent(r: Rows) {
    Unique(Users, r.users) && Unique(Devices, r.devices)
  }

  function TableOf(r: Rows, t: Table): multiset<Row> {
    match t
    case Users => r.users
    case Devices => r.devices
    case OtherTable => multiset{}
  }

  function WithTable(r: Rows, t: Table, m: multiset<Row>): Rows {
    match t
    case Users => r.(users := m)
    case Devices => r.(devices := m)
    case OtherTable => r
  }

  predicate IsEmpty(r: Rows) {
    r.users == multiset{} && r.devices == multiset{}
  }

  // ----- the row-by-row effect on a table laid out in some physical order

  function UpdateRow(r: Row, filter: Row, fields: Row): Row {
    if Matches(r, filter) then r + fields else r
  }

  function UpdateAll(s: seq<Row>, filter: Row, fields: Row): (u: seq<Row>)
    ensures |u| == |s|
  {
    if s == [] then [] else [UpdateRow(s[0], filter, fields)] + UpdateAll(s[1..], filter, fields)
  }

  function DeleteAll(s: seq<Row>, filter: Row): seq<Row> {
    if s == [] then []
    else (if Matches(s[0], filter) then [] else [s[0]]) + DeleteAll(s[1..], filter)
  }

  /** The table a mutation leaves behind before any uniqueness check, for one physical order. */
  function Changed(s: seq<Row>, c: Change): seq<Row> {
    match c
    case Insert(docs) => s + docs
    case Update(w, f) => UpdateAll(s, w, f)
    case Delete(w) => DeleteAll(s, w)
    case OtherOp => s
  }

  /** Some physical order of a table. */
  ghost function Layout(m: multiset<Row>): (s: seq<Row>)
    ensures multiset(s) == m
  {
    if m == multiset{} then []
    else
      var r :| r in m;
      var rest := Layout(m - multiset{r});
      assert multiset([r] + rest) == multiset{r} + multiset(rest);
      [r] + rest
  }

  /** Whether the statement is malformed for its table, which is an error other than a rejection. */
  predicate Malformed(m: Mutation) {
    match m.change
    case Insert(_) => m.table == OtherTable
    case Update(w, f) =>
      // without fields nothing is run, but the devices a filter selects are read beforehand
      if f == map[] then m.table == Devices && !KnownFields(Devices, w.Keys)
      else !(KnownFields(m.table, f.Keys) && KnownFields(m.table, w.Keys))
    case Delete(w) => !KnownFields(m.table, w.Keys)
    case OtherOp => true
  }

  /** Whether a publisher can write the mutation down: unknown operations, tables and field names are
      refused before they reach the log. */
  predicate Encodes(m: Mutation) {
    match m.change
    case Insert(_) => m.table != OtherTable
    case Update(w, f) => KnownFields(m.table, f.Keys) && KnownFields(m.table, w.Keys)
    case Delete(w) => KnownFields(m.table, w.Keys)
    case OtherOp => false
  }

  /** One mutation against the store, as one transaction: all of it or none of it. */
  ghost function Apply(r: Rows, m: Mutation): Outcome {
    if Malformed(m) then Fault
    else if m.change.Update? && m.change.fields == map[] then Accepted(r)
    else
      var after := multiset(Changed(Layout(TableOf(r, m.table)), m.change));
      if Unique(m.table, after) then Accepted(WithTable(r, m.table, after)) else Rejected
  }

  /** So no published mutation ever halts a replica. */
  lemma EncodedNeverFaults(r: Rows, m: Mutation)
    requires Encodes(m)
    ensures !Apply(r, m).Fault?
  {
  }

  // ----- the physical order never shows

  /** An order of the same rows with one chosen row in front. */
  lemma BringToFront(s: seq<Row>, r: Row) returns (i: nat)
    requires r in multiset(s)
    ensures i < |s| && s[i] == r
    ensures multiset(s[..i] + s[i + 1..]) == multiset(s) - multiset{r}
  {
    i :| 0 <= i < |s| && s[i] == r;
    assert s == s[..i] + [s[i]] + s[i + 1..];
  }

  lemma {:induction false} UpdateAllAppend(a: seq<Row>, b: seq<Row>, filter: Row, fields: Row)
    ensures UpdateAll(a + b, filter, fields) == UpdateAll(a, filter, fields) + UpdateAll(b, filter, fields)
  {
    if a == [] {
      assert a + b == b;
    } else {
      assert (a + b)[1..] == a[1..] + b;
      UpdateAllAppend(a[1..], b, filter, fields);
    }
  }

  lemma {:induction false} DeleteAllAppend(a: seq<Row>, b: seq<Row>, filter: Row)
    ensures DeleteAll(a + b, filter) == DeleteAll(a, filter) + DeleteAll(b, filter)
  {
    if a == [] {
      assert a + b == b;
    } else {
      assert (a + b)[1..] == a[1..] + b;
      DeleteAllAppend(a[1..], b, filter);
    }
  }

  lemma MiddleOut<T>(a: seq<T>, x: seq<T>, b: seq<T>)
    ensures multiset(a + (x + b)) == multiset(a + b) + multiset(x)
  {
  }

  /** Changing one row and the rest of a table is changing all of it, for the two bulk statements. */
  lemma UpdateSplit(s: seq<Row>, i: nat, w: Row, f: Row)
    requires i < |s|
    ensures multiset(UpdateAll(s, w, f)) ==
            multiset(UpdateAll(s[..i] + s[i + 1..], w, f)) + multiset(UpdateAll([s[i]], w, f))
  {
    var a, x, b := s[..i], [s[i]], s[i + 1..];
    assert s == a + (x + b);
    UpdateAllAppend(a, x + b, w, f);
    UpdateAllAppend(x, b, w, f);
    UpdateAllAppend(a, b, w, f);
    MiddleOut(UpdateAll(a, w, f), UpdateAll(x, w, f), UpdateAll(b, w, f));
  }

  lemma DeleteSplit(s: seq<Row>, i: nat, w: Row)
    requires i < |s|
    ensures multiset(DeleteAll(s, w)) ==
            multiset(DeleteAll(s[..i] + s[i + 1..], w)) + multiset(DeleteAll([s[i]], w))
  {
    var a, x, b := s[..i], [s[i]], s[i + 1..];
    assert s == a + (x + b);
    DeleteAllAppend(a, x + b, w);
    DeleteAllAppend(x, b, w);
    DeleteAllAppend(a, b, w);
    MiddleOut(DeleteAll(a, w), DeleteAll(x, w), DeleteAll(b, w));
  }

  /** What one row contributes to the table a mutation leaves behind. */
  function Own(r: Row, c: Change): multiset<Row> {
    match c
    case Insert(_) => multiset{r}
    case Update(w, f) => multiset(UpdateAll([r], w, f))
    case Delete(w) => multiset(DeleteAll([r], w))
    case OtherOp => multiset{r}
  }

  lemma FirstOut(s: seq<Row>, rest: seq<Row>, c: Change)
    requires s != [] && rest == s[1..]
    ensures multiset(Changed(s, c)) == multiset(Changed(rest, c)) + Own(s[0], c)
  {
    assert s[..0] + s[1..] == rest;
    OneOut(s, 0, rest, c);
  }

  lemma OneOut(s: seq<Row>, i: nat, rest: seq<Row>, c: Change)
    requires i < |s| && rest == s[..i] + s[i + 1..]
    ensures multiset(Changed(s, c)) == multiset(Changed(rest, c)) + Own(s[i], c)
  {
    match c {
      case Insert(docs) => assert s == s[..i] + [s[i]] + s[i + 1..];
      case Update(w, f) => UpdateSplit(s, i, w, f);
      case Delete(w) => DeleteSplit(s, i, w);
      case OtherOp => assert s == s[..i] + [s[i]] + s[i + 1..];
    }
  }

  lemma {:induction false} ChangedIgnoresOrder(s: seq<Row>, t: seq<Row>, c: Change)
    requires multiset(s) == multiset(t)
    ensures multiset(Changed(s, c)) == multiset(Changed(t, c))
    decreases |s|
  {
    if s == [] {
      assert |multiset(t)| == 0;
      assert t == [];
    } else {
      var i, rest := TakeAway(s, t);
      ChangedIgnoresOrder(s[1..], rest, c);
      BothOut(s, s[1..], t, i, rest, c);
    }
  }

  lemma BothOut(s: seq<Row>, tail: seq<Row>, t: seq<Row>, i: nat, rest: seq<Row>, c: Change)
    requires s != [] && tail == s[1..] && i < |t| && rest == t[..i] + t[i + 1..] && t[i] == s[0]
    requires multiset(Changed(tail, c)) == multiset(Changed(rest, c))
    ensures multiset(Changed(s, c)) == multiset(Changed(t, c))
  {
    FirstOut(s, tail, c);
    OneOut(t, i, rest, c);
  }

  lemma TakeAway(s: seq<Row>, t: seq<Row>) returns (i: nat, rest: seq<Row>)
    requires s != [] && multiset(s) == multiset(t)
    ensures i < |t| && t[i] == s[0] && rest == t[..i] + t[i + 1..] && multiset(s[1..]) == multiset(rest)
  {
    assert s[0] in multiset(s);
    i := BringToFront(t, s[0]);
    rest := t[..i] + t[i + 1..];
    assert multiset(s[1..]) == multiset(s) - multiset{s[0]} by { assert s == [s[0]] + s[1..]; }
  }

  /** Two replicas that hold the same rows in different physical orders reach the same
      verdict and the same rows, whichever mutation they apply. */
  lemma ApplyIgnoresOrder(r: Rows, m: Mutation, s: seq<Row>)
    requires multiset(s) == TableOf(r, m.table)
    requires !Malformed(m) && !(m.change.Update? && m.change.fields == map[])
    ensures Apply(r, m).Rejected? <==> !Unique(m.table, multiset(Changed(s, m.change)))
    ensures Apply(r, m).Accepted? ==> Apply(r, m).rows == WithTable(r, m.table, multiset(Changed(s, m.change)))
  {
    ChangedIgnoresOrder(s, Layout(TableOf(r, m.table)), m.change);
  }

  /** Updates are judged on the table with every matching row changed. */
  lemma ApplyUpdate(r: Rows, t: Table, w: Row, f: Row)
    requires f != map[] && KnownFields(t, f.Keys) && KnownFields(t, w.Keys)
    ensures var after := multiset(UpdateAll(Layout(TableOf(r, t)), w, f));
            Apply(r, Mutation(t, Update(w, f))) == if Unique(t, after) then Accepted(WithTable(r, t, after)) else Rejected
  {
  }

  // ----- what the bulk statements do to a table

  lemma {:induction false} DeleteAllCounts(s: seq<Row>, w: Row, q: Row)
    ensures multiset(DeleteAll(s, w))[q] == if Matches(q, w) then 0 else multiset(s)[q]
  {
    if s != [] {
      DeleteAllCounts(s[1..], w, q);
      assert s == [s[0]] + s[1..];
    }
  }

  /** A delete takes out every matching row, however often it is there, and nothing else. */
  lemma DeleteExact(r: Rows, t: Table, w: Row, q: Row)
    requires Apply(r, Mutation(t, Delete(w))).Accepted?
    ensures var after := Apply(r, Mutation(t, Delete(w))).rows;
            && TableOf(after, t)[q] == (if forall k | k in w :: Get(q, k) == w[k] then 0 else TableOf(r, t)[q])
            && (forall u | u != t :: TableOf(after, u) == TableOf(r, u))
  {
    DeleteAllCounts(Layout(TableOf(r, t)), w, q);
  }

  /** This row is that one with some of its fields set. */
  ghost predicate IsUpdateOf(p: Row, q: Row, f: Row) {
    forall k :: (k in f ==> k in p && p[k] == f[k]) && (k !in f ==> (k in p <==> k in q) && (k in q ==> p[k] == q[k]))
  }

  lemma {:induction false} UpdateAllAt(s: seq<Row>, w: Row, f: Row, i: nat)
    requires i < |s|
    ensures var p := UpdateAll(s, w, f)[i]; if Matches(s[i], w) then IsUpdateOf(p, s[i], f) else p == s[i]
  {
    if i > 0 {
      UpdateAllAt(s[1..], w, f, i - 1);
    }
  }

  /** An update sets exactly the given fields of exactly the matching rows: row by row, for some
      pairing of the rows before with the rows after. */
  lemma UpdateExact(r: Rows, t: Table, w: Row, f: Row) returns (before: seq<Row>, after: seq<Row>)
    requires f != map[] && Apply(r, Mutation(t, Update(w, f))).Accepted?
    ensures |before| == |after| && multiset(before) == TableOf(r, t)
    ensures multiset(after) == TableOf(Apply(r, Mutation(t, Update(w, f))).rows, t)
    ensures forall i | 0 <= i < |before| ::
              if forall k | k in w :: Get(before[i], k) == w[k] then IsUpdateOf(after[i], before[i], f)
              else after[i] == before[i]
    ensures forall u | u != t :: TableOf(Apply(r, Mutation(t, Update(w, f))).rows, u) == TableOf(r, u)
  {
    UpdatedTables(r, t, w, f);
    before := Layout(TableOf(r, t));
    after := RowByRow(before, w, f);
  }

  lemma UpdatedTables(r: Rows, t: Table, w: Row, f: Row)
    requires f != map[] && Apply(r, Mutation(t, Update(w, f))).Accepted?
    ensures var rows := Apply(r, Mutation(t, Update(w, f))).rows;
            && TableOf(rows, t) == multiset(UpdateAll(Layout(TableOf(r, t)), w, f))
            && forall u | u != t :: TableOf(rows, u) == TableOf(r, u)
  {
    ApplyUpdate(r, t, w, f);
  }

  lemma RowByRow(before: seq<Row>, w: Row, f: Row) returns (after: seq<Row>)
    ensures after == UpdateAll(before, w, f)
    ensures forall i | 0 <= i < |before| ::
              if forall k | k in w :: Get(before[i], k) == w[k] then IsUpdateOf(after[i], before[i], f)
              else after[i] == before[i]
  {
    after := UpdateAll(before, w, f);
    forall i | 0 <= i < |before|
      ensures if forall k | k in w :: Get(before[i], k) == w[k] then IsUpdateOf(after[i], before[i], f)
              else after[i] == before[i]
    {
      UpdateAllAt(before, w, f, i);
      assert Matches(before[i], w) <==> forall k | k in w :: Get(before[i], k) == w[k];
    }
  }

  // ----- uniqueness

  lemma {:induction false} DeleteAllShrinks(s: seq<Row>, filter: Row)
    ensures multiset(DeleteAll(s, filter)) <= multiset(s)
  {
    if s != [] {
      DeleteAllShrinks(s[1..], filter);
      assert s == [s[0]] + s[1..];
    }
  }

  lemma SubtableUnique(t: Table, a: multiset<Row>, b: multiset<Row>)
    requires a <= b && Unique(t, b)
    ensures Unique(t, a)
  {
    forall r | r in a && Conflict(t, r, r) ensures a[r] == 1 {
      assert r in b && a[r] <= b[r];
    }
    forall r, q | r in a && q in a && r != q ensures !Conflict(t, r, q) {
      assert r in b && q in b;
    }
  }

  lemma DeleteKeepsUnique(t: Table, m: multiset<Row>, filter: Row)
    requires Unique(t, m)
    ensures Unique(t, multiset(DeleteAll(Layout(m), filter)))
  {
    DeleteAllShrinks(Layout(m), filter);
    SubtableUnique(t, multiset(DeleteAll(Layout(m), filter)), m);
  }

  /** A delete is never rejected by a consistent store. */
  lemma DeleteNeverRejected(r: Rows, t: Table, filter: Row)
    requires Consistent(r)
    ensures !Apply(r, Mutation(t, Delete(filter))).Rejected?
  {
    if t != OtherTable {
      DeleteKeepsUnique(t, TableOf(r, t), filter);
    }
  }

  lemma WithTableConsistent(r: Rows, t: Table, after: multiset<Row>)
    requires Consistent(r) && Unique(t, after)
    ensures Consistent(WithTable(r, t, after))
  {
  }

  /** Every accepted mutation keeps the schema's uniqueness rules. */
  lemma ApplyKeepsConsistent(r: Rows, m: Mutation)
    requires Consistent(r)
    ensures Apply(r, m).Accepted? ==> Consistent(Apply(r, m).rows)
  {
    if Apply(r, m).Accepted? && Apply(r, m).rows != r {
      WithTableConsistent(r, m.table, multiset(Changed(Layout(TableOf(r, m.table)), m.change)));
    }
  }

  /** A unique key of the devices or users table, and the row that claims it. */
  predicate Claims(t: Table, key: Row, r: Row) {
    Conflict(t, key, r)
  }

  ghost predicate Held(rows: Rows, t: Table, key: Row) {
    exists r :: r in TableOf(rows, t) && Claims(t, key, r)
  }

  lemma ConflictSymmetric(t: Table, a: Row, b: Row)
    ensures Conflict(t, a, b) <==> Conflict(t, b, a)
  {
  }

  lemma AddUnique(t: Table, before: multiset<Row>, doc: Row)
    requires Unique(t, before)
    requires forall r | r in before :: !Conflict(t, doc, r)
    ensures Unique(t, before + multiset{doc})
  {
    var after := before + multiset{doc};
    forall a, b | a in after && b in after && a != b ensures !Conflict(t, a, b) {
      ConflictSymmetric(t, a, b);
    }
  }

  lemma AddConflicting(t: Table, before: multiset<Row>, doc: Row, q: Row)
    requires q in before && Conflict(t, doc, q)
    ensures !Unique(t, before + multiset{doc})
  {
    var after := before + multiset{doc};
    assert q in after && doc in after;
  }

  /** Inserts are judged on the table with the new rows added. */
  lemma ApplyInsert(r: Rows, t: Table, docs: seq<Row>)
    requires t != OtherTable
    ensures var after := TableOf(r, t) + multiset(docs);
            Apply(r, Mutation(t, Insert(docs))) ==
            if Unique(t, after) then Accepted(WithTable(r, t, after)) else Rejected
  {
    assert multiset(Layout(TableOf(r, t)) + docs) == TableOf(r, t) + multiset(docs);
  }

  /** A single-row insert is rejected exactly when a unique key of the row is already held,
      and an accepted one holds it from then on. */
  lemma InsertVerdict(r: Rows, t: Table, doc: Row)
    requires Consistent(r) && t != OtherTable
    ensures var out := Apply(r, Mutation(t, Insert([doc])));
            && (out.Rejected? <==> Held(r, t, doc))
            && (out.Accepted? <==> !Held(r, t, doc))
            && (out.Accepted? && Conflict(t, doc, doc) ==> Held(out.rows, t, doc))
  {
    var before := TableOf(r, t);
    ApplyInsert(r, t, [doc]);
    assert multiset([doc]) == multiset{doc};
    if Held(r, t, doc) {
      var q :| q in before && Claims(t, doc, q);
      AddConflicting(t, before, doc, q);
    } else {
      forall q | q in before ensures !Conflict(t, doc, q) {
        assert !Claims(t, doc, q);
      }
      AddUnique(t, before, doc);
      assert doc in TableOf(WithTable(r, t, before + multiset{doc}), t);
      assert Claims(t, doc, doc) <==> Conflict(t, doc, doc);
    }
  }

  // ----- the unique keys, column by column

  /** The column of a row, under its default where the row says nothing. */
  lemma GetMeans(r: Row, f: Field)
    ensures f in r ==> Get(r, f) == r[f]
    ensures f !in r && (f == Blocked || f == CosmosNode || f == Role) ==> Get(r, f) == "0"
    ensures f !in r && (f == DeviceName || f == IP || f == Nickname) ==> Get(r, f) == ""
  {
  }

  /** A device row is refused exactly when it is in service and some device in service has its name or
      its address. */
  lemma DeviceInsertVerdict(r: Rows, doc: Row)
    requires Consistent(r)
    ensures var out := Apply(r, Mutation(Devices, Insert([doc])));
            && (out.Rejected? <==>
                  && Get(doc, Blocked) == "0"
                  && exists q :: q in r.devices && Get(q, Blocked) == "0" &&
                                 (Get(q, DeviceName) == Get(doc, DeviceName) || Get(q, IP) == Get(doc, IP)))
            && (!out.Rejected? ==> out == Accepted(Rows(r.users, r.devices + multiset{doc})))
  {
    InsertVerdict(r, Devices, doc);
    ApplyInsert(r, Devices, [doc]);
    assert multiset([doc]) == multiset{doc};
    assert Held(r, Devices, doc) <==>
           Get(doc, Blocked) == "0" &&
           exists q :: q in r.devices && Get(q, Blocked) == "0" &&
                       (Get(q, DeviceName) == Get(doc, DeviceName) || Get(q, IP) == Get(doc, IP)) by {
      DeviceHeld(r, doc);
    }
  }

  lemma DeviceHeld(r: Rows, doc: Row)
    ensures Held(r, Devices, doc) <==>
            Get(doc, Blocked) == "0" &&
            exists q :: q in r.devices && Get(q, Blocked) == "0" &&
                        (Get(q, DeviceName) == Get(doc, DeviceName) || Get(q, IP) == Get(doc, IP))
  {
    if Held(r, Devices, doc) {
      var q :| q in r.devices && Claims(Devices, doc, q);
      assert Get(q, Blocked) == "0";
    }
    if q :| q in r.devices && Get(doc, Blocked) == "0" && Get(q, Blocked) == "0" &&
            (Get(q, DeviceName) == Get(doc, DeviceName) || Get(q, IP) == Get(doc, IP)) {
      assert Claims(Devices, doc, q);
    }
  }

  /** A user row is refused exactly when some user has its nickname. */
  lemma UserInsertVerdict(r: Rows, doc: Row)
    requires Consistent(r)
    ensures var out := Apply(r, Mutation(Users, Insert([doc])));
            && (out.Rejected? <==> exists q :: q in r.users && Get(q, Nickname) == Get(doc, Nickname))
            && (!out.Rejected? ==> out == Accepted(Rows(r.users + multiset{doc}, r.devices)))
  {
    InsertVerdict(r, Users, doc);
    ApplyInsert(r, Users, [doc]);
    assert multiset([doc]) == multiset{doc};
    UserHeld(r, doc);
  }

  lemma UserHeld(r: Rows, doc: Row)
    ensures Held(r, Users, doc) <==> exists q :: q in r.users && Get(q, Nickname) == Get(doc, Nickname)
  {
    if Held(r, Users, doc) {
      var q :| q in r.users && Claims(Users, doc, q);
      assert Get(q, Nickname) == Get(doc, Nickname);
    }
    if q :| q in r.users && Get(q, Nickname) == Get(doc, Nickname) {
      assert Claims(Users, doc, q);
    }
  }

  /** No two users have one nickname; no two devices in service have one name or one address. */
  ghost predicate KeysApart(r: Rows) {
    && (forall a, b | a in r.users && b in r.users && a != b :: Get(a, Nickname) != Get(b, Nickname))
    && (forall a | a in r.users :: r.users[a] == 1)
    && (forall a, b | a in r.devices && b in r.devices && a != b && Get(a, Blocked) == "0" && Get(b, Blocked) == "0" ::
          Get(a, DeviceName) != Get(b, DeviceName) && Get(a, IP) != Get(b, IP))
    && (forall a | a in r.devices && Get(a, Blocked) == "0" :: r.devices[a] == 1)
  }

  lemma ConsistentMeansKeysApart(r: Rows)
    ensures Consistent(r) <==> KeysApart(r)
  {
    UsersApart(r.users);
    DevicesApart(r.devices);
  }

  lemma UsersApart(m: multiset<Row>)
    ensures Unique(Users, m) <==>
            && (forall a, b | a in m && b in m && a != b :: Get(a, Nickname) != Get(b, Nickname))
            && (forall a | a in m :: m[a] == 1)
  {
    forall a, b ensures Conflict(Users, a, b) <==> Get(a, Nickname) == Get(b, Nickname) {
    }
  }

  lemma DevicesApart(m: multiset<Row>)
    ensures Unique(Devices, m) <==>
            && (forall a, b | a in m && b in m && a != b && Get(a, Blocked) == "0" && Get(b, Blocked) == "0" ::
                  Get(a, DeviceName) != Get(b, DeviceName) && Get(a, IP) != Get(b, IP))
            && (forall a | a in m && Get(a, Blocked) == "0" :: m[a] == 1)
  {
    forall a, b ensures Conflict(Devices, a, b) <==>
                        Get(a, Blocked) == "0" && Get(b, Blocked) == "0" &&
                        (Get(a, DeviceName) == Get(b, DeviceName) || Get(a, IP) == Get(b, IP)) {
    }
  }

  /** Any other mutation of a consistent store is judged by the same keys: it is rejected exactly when
      the table it would leave has two users of one nickname, or two devices in service of one name
      or one address. */
  lemma RejectedExactly(r: Rows, m: Mutation, after: Rows)
    requires Consistent(r) && !Malformed(m) && !(m.change.Update? && m.change.fields == map[])
    requires after == WithTable(r, m.table, multiset(Changed(Layout(TableOf(r, m.table)), m.change)))
    ensures Apply(r, m) == if KeysApart(after) then Accepted(after) else Rejected
  {
    ConsistentMeansKeysApart(after);
    ConsistentMeansKeysApart(r);
  }

  /** A statement is an error, and halts a replica, exactly when it names a table, a column or an
      operation the store does not have. */
  lemma FaultExactly(r: Rows, m: Mutation)
    ensures Apply(r, m).Fault? <==>
            match m.change
            case Insert(_) => m.table == OtherTable
            case OtherOp => true
            case Delete(w) => !HasColumns(m.table, w.Keys)
            case Update(w, u) =>
              if u == map[] then m.table == Devices && !HasColumns(Devices, w.Keys)
              else !HasColumns(m.table, w.Keys) || !HasColumns(m.table, u.Keys)
  {
    forall fields ensures KnownFields(m.table, fields) <==> HasColumns(m.table, fields) {
      KnownExactly(m.table, fields);
    }
  }

  /** A publisher refuses exactly those that name a table, a column or an operation the store does not
      have, among them a few the store would have let pass: updates that set nothing. */
  lemma EncodesExactly(m: Mutation)
    ensures Encodes(m) <==>
            match m.change
            case Insert(_) => m.table != OtherTable
            case OtherOp => false
            case Delete(w) => HasColumns(m.table, w.Keys)
            case Update(w, u) => HasColumns(m.table, w.Keys) && HasColumns(m.table, u.Keys)
  {
    forall fields ensures KnownFields(m.table, fields) <==> HasColumns(m.table, fields) {
      KnownExactly(m.table, fields);
    }
  }

  predicate HasColumns(t: Table, fields: set<Field>) {
    t != OtherTable && forall f | f in fields :: HasColumn(t, f)
  }

  lemma KnownExactly(t: Table, fields: set<Field>)
    ensures KnownFields(t, fields) <==> HasColumns(t, fields)
  {
    forall f ensures (UserColumn(f) <==> HasColumn(Users, f)) && (DeviceColumn(f) <==> HasColumn(Devices, f)) {
      SameColumns(f);
    }
  }

  lemma SameColumns(f: Field)
    ensures UserColumn(f) <==> HasColumn(Users, f)
    ensures DeviceColumn(f) <==> HasColumn(Devices, f)
  {
  }

  /** The columns of the two tables. */
  predicate HasColumn(t: Table, f: Field) {
    match t
    case Users =>
      || f.Nickname? || f.Password? || f.RegisterKey? || f.RegisterKeyExp? || f.Role? || f.PasswordCycle? || f.Email?
      || f.RegisteredAt? || f.LastPasswordChangedAt? || f.CreatedAt? || f.LastLogin? || f.MFAKey? || f.Was2FAVerified?
    case Devices =>
      || f.Nickname? || f.DeviceName? || f.PublicKey? || f.IP? || f.IsLighthouse? || f.CosmosNode? || f.IsRelay?
      || f.IsLoadBalancer? || f.IsExitNode? || f.PublicHostname? || f.Port? || f.Blocked? || f.Fingerprint?
      || f.APIKey? || f.Invisible? || f.Tags?
    case OtherTable => false
  }

  /** An accepted insert of several rows puts every one of them in, and found each one's keys free. */
  lemma InsertManyVerdict(r: Rows, t: Table, docs: seq<Row>, doc: Row)
    requires t != OtherTable && doc in docs && Apply(r, Mutation(t, Insert(docs))).Accepted?
    ensures !Held(r, t, doc)
    ensures doc in TableOf(Apply(r, Mutation(t, Insert(docs))).rows, t)
  {
    var before := TableOf(r, t);
    ApplyInsert(r, t, docs);
    assert doc in multiset(docs);
    forall q | q in before ensures !Claims(t, doc, q) {
      var after := before + multiset(docs);
      assert q in after && doc in after && (q == doc ==> after[q] >= 2);
    }
  }

  // ----- running a mutation over rows in whatever order the engine keeps them

  /** No two rows of a table laid out in some order conflict. */
  predicate NoConflicts(t: Table, s: seq<Row>) {
    forall i, j | 0 <= i < j < |s| :: !Conflict(t, s[i], s[j])
  }

  lemma PairIsConflict(t: Table, s: seq<Row>, i: nat, j: nat)
    requires i < j < |s| && Conflict(t, s[i], s[j])
    ensures !Unique(t, multiset(s))
  {
    assert s[i] in multiset(s) && s[j] in multiset(s);
    if s[i] == s[j] {
      assert s == s[..j] + [s[j]] + s[j + 1..];
      assert s[i] in s[..j];
      assert multiset(s)[s[i]] >= 2;
    }
  }

  lemma OccursOnce(t: Table, s: seq<Row>, a: Row)
    requires NoConflicts(t, s) && a in multiset(s) && Conflict(t, a, a)
    ensures multiset(s)[a] == 1
  {
    var i :| 0 <= i < |s| && s[i] == a;
    assert s == s[..i] + [a] + s[i + 1..];
    assert a !in s[..i] && a !in s[i + 1..];
    assert multiset(s) == multiset(s[..i]) + multiset{a} + multiset(s[i + 1..]);
  }

  /** The pairwise check on the layout is the uniqueness of the table. */
  lemma NoConflictsIsUnique(t: Table, s: seq<Row>)
    ensures NoConflicts(t, s) <==> Unique(t, multiset(s))
  {
    if NoConflicts(t, s) {
      forall a, b | a in multiset(s) && b in multiset(s) && a != b ensures !Conflict(t, a, b) {
        var i :| 0 <= i < |s| && s[i] == a;
        var j :| 0 <= j < |s| && s[j] == b;
        ConflictSymmetric(t, a, b);
      }
      forall a | a in multiset(s) && Conflict(t, a, a) ensures multiset(s)[a] == 1 {
        OccursOnce(t, s, a);
      }
    } else {
      var i, j :| 0 <= i < j < |s| && Conflict(t, s[i], s[j]);
      PairIsConflict(t, s, i, j);
    }
  }

  /** The rows of a table, in an order nobody controls. */
  method Scan(m: multiset<Row>) returns (s: seq<Row>)
    ensures multiset(s) == m
  {
    s := [];
    var rest := m;
    while rest != multiset{}
      invariant multiset(s) + rest == m
      decreases |rest|
    {
      var r :| r in rest;
      s, rest := s + [r], rest - multiset{r};
    }
  }

  /** One mutation run as one transaction over the rows in scan order: whatever that order is, the
      verdict and the rows are those of `Apply`. */
  method ApplyTx(r: Rows, m: Mutation) returns (out: Outcome)
    ensures out == Apply(r, m)
  {
    if Malformed(m) {
      return Fault;
    }
    if m.change.Update? && m.change.fields == map[] {
      return Accepted(r);
    }
    var before := Scan(TableOf(r, m.table));
    var after := Changed(before, m.change);
    ApplyIgnoresOrder(r, m, before);
    NoConflictsIsUnique(m.table, after);
    out := if NoConflicts(m.table, after) then Accepted(WithTable(r, m.table, multiset(after))) else Rejected;
  }
}
