/**
 What a force-reform does to the device rows: every listed manager but the survivor
 ends up blocked, by writes the store never rejects.
 */
module Blocking {
  import opened Store
  import opened Node

  /** The managers a reform blocks, in order. */
  function Others(managers: seq<string>, self: string): seq<string>
    decreases |managers|
  {
    if managers == [] then []
    else (if managers[0] != "" && managers[0] != self then [managers[0]] else []) + Others(managers[1..], self)
  }

  lemma OthersNext(managers: seq<string>, i: nat, self: string, done: seq<string>)
    requires i < |managers| && done + Others(managers[i..], self) == Others(managers, self)
    ensures var m := managers[i];
            (if m != "" && m != self then done + [m] else done) + Others(managers[i + 1..], self) == Others(managers, self)
  {
    assert managers[i..][0] == managers[i] && managers[i..][1..] == managers[i + 1..];
    var rest := Others(managers[i + 1..], self);
    assert (done + [managers[i]]) + rest == done + ([managers[i]] + rest);
    assert [] + rest == rest;
  }

  predicate ActiveManager(r: Row) {
    Active(r) && Get(r, CosmosNode) == "2"
  }

  /** The names of the active managers among these rows, in their order. */
  function ManagerNames(s: seq<Row>): seq<string> {
    if s == [] then []
    else ManagerNames(s[..|s| - 1]) + if ActiveManager(s[|s| - 1]) then [Get(s[|s| - 1], DeviceName)] else []
  }

  lemma {:induction false} ManagerIsNamed(s: seq<Row>, r: Row)
    requires r in s && ActiveManager(r)
    ensures Get(r, DeviceName) in ManagerNames(s)
    decreases |s|
  {
    var n := |s| - 1;
    if r != s[n] {
      assert r in s[..n];
      ManagerIsNamed(s[..n], r);
    }
  }

  lemma {:induction false} OthersHas(managers: seq<string>, self: string, name: string)
    requires name in managers && name != "" && name != self
    ensures name in Others(managers, self)
    decreases |managers|
  {
    if name != managers[0] {
      assert name in managers[1..];
      OthersHas(managers[1..], self, name);
    }
  }

  /** Every active manager is this one, or has no name. */
  ghost predicate SoleManager(rows: Rows, self: string) {
    forall r | r in rows.devices && ActiveManager(r) :: Get(r, DeviceName) == "" || Get(r, DeviceName) == self
  }

  /** What is left when a reform has blocked these names: they are those of active managers, none of them
      this one's; and no row is in service of an active manager but this one's, or a nameless one. */
  ghost predicate ReformBlocks(before: Rows, after: Rows, blocked: seq<string>, self: string) {
    && (forall name | name in blocked :: name != "" && name != self && WasManager(before, name))
    && (forall r | r in after.devices && Get(r, Blocked) == "0" && Get(r, CosmosNode) == "2" ::
          Get(r, DeviceName) == "" || Get(r, DeviceName) == self)
    && (forall r | r in before.devices && Get(r, DeviceName) !in blocked :: r in after.devices)
    && (forall r | r in after.devices && Get(r, Blocked) == "0" :: r in before.devices && Get(r, DeviceName) !in blocked)
  }

  ghost predicate WasManager(rows: Rows, name: string) {
    exists r :: r in rows.devices && Get(r, Blocked) == "0" && Get(r, CosmosNode) == "2" && Get(r, DeviceName) == name
  }

  lemma {:induction false} NamedIsManager(s: seq<Row>, name: string) returns (r: Row)
    requires name in ManagerNames(s)
    ensures r in s && Get(r, Blocked) == "0" && Get(r, CosmosNode) == "2" && Get(r, DeviceName) == name
    decreases |s|
  {
    var n := |s| - 1;
    if name in ManagerNames(s[..n]) {
      r := NamedIsManager(s[..n], name);
    } else {
      r := s[n];
    }
  }

  lemma {:induction false} OthersAre(managers: seq<string>, self: string, name: string)
    requires name in Others(managers, self)
    ensures name in managers && name != "" && name != self
    decreases |managers|
  {
    if managers != [] && name in Others(managers[1..], self) {
      OthersAre(managers[1..], self, name);
    }
  }

  lemma BlockedAreManagers(before: Rows, after: Rows, s: seq<Row>, self: string)
    requires multiset(s) == before.devices && BlocksAll(before, after, Others(ManagerNames(s), self))
    ensures ReformBlocks(before, after, Others(ManagerNames(s), self), self)
  {
    var blocked := Others(ManagerNames(s), self);
    forall name | name in blocked ensures name != "" && name != self && WasManager(before, name) {
      OthersAre(ManagerNames(s), self, name);
      var r := NamedIsManager(s, name);
      assert r in multiset(s);
    }
    BlockedLeavesOne(before, after, s, self);
    assert forall name | name in blocked :: NoneActive(after.devices, name);
    assert forall r | r in after.devices && Get(r, Blocked) == "0" :: Active(r);
  }

  /** With every other listed manager blocked, this one is the only one left. */
  lemma BlockedLeavesOne(before: Rows, after: Rows, s: seq<Row>, self: string)
    requires multiset(s) == before.devices && BlocksAll(before, after, Others(ManagerNames(s), self))
    ensures SoleManager(after, self)
  {
    forall r | r in after.devices && ActiveManager(r)
      ensures Get(r, DeviceName) == "" || Get(r, DeviceName) == self
    {
      assert r in multiset(s);
      ManagerIsNamed(s, r);
      if Get(r, DeviceName) != "" && Get(r, DeviceName) != self {
        OthersHas(ManagerNames(s), self, Get(r, DeviceName));
      }
    }
  }

  /** No active device carries this name. */
  ghost predicate NoneActive(m: multiset<Row>, name: string) {
    forall r | r in m :: !(Active(r) && Get(r, DeviceName) == name)
  }

  function BlockRow(r: Row, name: string): Row {
    UpdateRow(r, map[DeviceName := name, Blocked := "0"], map[Blocked := "1"])
  }

  function BlockRows(s: seq<Row>, name: string): (t: seq<Row>)
    ensures |t| == |s|
  {
    UpdateAll(s, map[DeviceName := name, Blocked := "0"], map[Blocked := "1"])
  }

  /** A blocked row is inactive; any other row is as it was. */
  lemma BlockRowShape(r: Row, name: string)
    ensures Active(r) && Get(r, DeviceName) == name ==> !Active(BlockRow(r, name))
    ensures !(Active(r) && Get(r, DeviceName) == name) ==> BlockRow(r, name) == r
  {
    var filter: Row := map[DeviceName := name, Blocked := "0"];
    assert Matches(r, filter) <==> Get(r, DeviceName) == name && Get(r, Blocked) == "0" by {
      assert DeviceName in filter && Blocked in filter;
    }
    assert "1"[0] != "0"[0];
  }

  lemma {:induction false} BlockRowsAt(s: seq<Row>, name: string, i: nat)
    requires i < |s|
    ensures BlockRows(s, name)[i] == BlockRow(s[i], name)
    decreases |s|
  {
    if i > 0 {
      BlockRowsAt(s[1..], name, i - 1);
    }
  }

  lemma BlockedRowIsInactiveOrSame(s: seq<Row>, name: string, i: nat)
    requires i < |s|
    ensures Active(BlockRows(s, name)[i]) ==> BlockRows(s, name)[i] == s[i] && Get(s[i], DeviceName) != name
  {
    BlockRowsAt(s, name, i);
    BlockRowShape(s[i], name);
  }

  lemma BlockingKeepsUnique(s: seq<Row>, name: string)
    requires NoConflicts(Devices, s)
    ensures NoConflicts(Devices, BlockRows(s, name))
  {
    var t := BlockRows(s, name);
    forall i, j | 0 <= i < j < |t| ensures !Conflict(Devices, t[i], t[j]) {
      BlockedRowIsInactiveOrSame(s, name, i);
      BlockedRowIsInactiveOrSame(s, name, j);
      assert !Conflict(Devices, s[i], s[j]);
    }
  }

  lemma BlockApplies(rows: Rows, name: string)
    ensures var after := multiset(BlockRows(Layout(rows.devices), name));
            Apply(rows, BlockMutation(name)) == if Unique(Devices, after) then Accepted(rows.(devices := after)) else Rejected
  {
    var w: Row, f: Row := map[DeviceName := name, Blocked := "0"], map[Blocked := "1"];
    assert Blocked in f;
    ApplyUpdate(rows, Devices, w, f);
  }

  lemma BlockedUnique(m: multiset<Row>, name: string)
    requires Unique(Devices, m)
    ensures Unique(Devices, multiset(BlockRows(Layout(m), name)))
  {
    var s := Layout(m);
    NoConflictsIsUnique(Devices, s);
    BlockingKeepsUnique(s, name);
    NoConflictsIsUnique(Devices, BlockRows(s, name));
  }

  /** The store always accepts the blocking of a device. */
  lemma BlockAccepted(rows: Rows, name: string)
    requires Consistent(rows)
    ensures Apply(rows, BlockMutation(name)) == Accepted(rows.(devices := multiset(BlockRows(Layout(rows.devices), name))))
    ensures Wrote(rows, BlockMutation(name)) == rows.(devices := multiset(BlockRows(Layout(rows.devices), name)))
    ensures Consistent(Wrote(rows, BlockMutation(name)))
  {
    BlockedUnique(rows.devices, name);
    BlockApplies(rows, name);
  }

  /** One blocking takes the name out of service and brings no other back. */
  lemma BlockSilences(rows: Rows, name: string, other: string)
    requires Consistent(rows)
    ensures NoneActive(Wrote(rows, BlockMutation(name)).devices, name)
    ensures forall r | r in Wrote(rows, BlockMutation(name)).devices && Active(r) :: r in rows.devices
    ensures NoneActive(rows.devices, other) ==> NoneActive(Wrote(rows, BlockMutation(name)).devices, other)
  {
    BlockAccepted(rows, name);
    var s := Layout(rows.devices);
    var t := BlockRows(s, name);
    forall r | r in multiset(t) && Active(r) ensures Get(r, DeviceName) != name && r in rows.devices {
      var i :| 0 <= i < |t| && t[i] == r;
      BlockedRowIsInactiveOrSame(s, name, i);
      assert s[i] in multiset(s);
    }
  }

  /** And leaves every row of another name in place. */
  lemma BlockSpares(rows: Rows, name: string, r: Row)
    requires Consistent(rows) && r in rows.devices && Get(r, DeviceName) != name
    ensures r in Wrote(rows, BlockMutation(name)).devices
  {
    BlockAccepted(rows, name);
    var s := Layout(rows.devices);
    assert r in multiset(s);
    var i :| 0 <= i < |s| && s[i] == r;
    BlockRowsAt(s, name, i);
    BlockRowShape(r, name);
    assert BlockRows(s, name)[i] in multiset(BlockRows(s, name));
  }

  /** What the blocking of one device makes of the store. */
  ghost predicate BlocksOne(before: Rows, after: Rows, name: string) {
    && Consistent(after) && after.users == before.users
    && NoneActive(after.devices, name)
    && (forall other | NoneActive(before.devices, other) :: NoneActive(after.devices, other))
    && (forall r | r in after.devices && Active(r) :: r in before.devices)
    && (forall r | r in before.devices && Get(r, DeviceName) != name :: r in after.devices)
  }

  lemma BlockingBlocks(rows: Rows, name: string)
    requires Consistent(rows)
    ensures Apply(rows, BlockMutation(name)).Accepted?
    ensures BlocksOne(rows, Wrote(rows, BlockMutation(name)), name)
  {
    BlockAccepted(rows, name);
    BlockSilences(rows, name, name);
    forall other | NoneActive(rows.devices, other) ensures NoneActive(Wrote(rows, BlockMutation(name)).devices, other) {
      BlockSilences(rows, name, other);
    }
    forall r | r in rows.devices && Get(r, DeviceName) != name ensures r in Wrote(rows, BlockMutation(name)).devices {
      BlockSpares(rows, name, r);
    }
  }

  /** What the blocking of a list of devices makes of the store: none of them is in service, no other
      has come into service, no row of any other name is lost, and the users are untouched. */
  ghost predicate BlocksAll(before: Rows, after: Rows, names: seq<string>) {
    && Consistent(after) && after.users == before.users
    && (forall name | name in names :: NoneActive(after.devices, name))
    && (forall r | r in after.devices && Active(r) :: r in before.devices)
    && (forall r | r in before.devices && Get(r, DeviceName) !in names :: r in after.devices)
  }

  lemma BlocksOneMore(before: Rows, middle: Rows, after: Rows, names: seq<string>, name: string)
    requires BlocksAll(before, middle, names) && BlocksOne(middle, after, name)
    ensures BlocksAll(before, after, names + [name])
  {
  }
}
