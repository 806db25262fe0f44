/**
 The publish fence: an entry's subject names its epoch, and an epoch's stream listens on
 that epoch's subjects alone, so a publish at an epoch without a stream reaches none.
 */
module Subjects {
  import opened Text

  datatype Target = TableTarget(name: string) | DomainTarget(name: string)

  function StreamName(epoch: nat): string {
    "cosmos-oplog-e" + Decimal(epoch)
  }

  function SubjectPrefix(epoch: nat): string {
    "cosmos._global_.oplog.e" + Decimal(epoch) + "."
  }

  function SubjectWildcard(epoch: nat): string {
    SubjectPrefix(epoch) + ">"
  }

  /** The characters a subject token cannot carry become underscores. */
  function Sanitized(c: char): char {
    if c == '.' || c == ' ' || c == '*' || c == '>' || c == ':' then '_' else c
  }

  function SanitizedAll(s: string): (r: string)
    ensures |r| == |s|
  {
    if s == [] then [] else [Sanitized(s[0])] + SanitizedAll(s[1..])
  }

  function SanitizeSubjectToken(s: string): string {
    if s == [] then "_" else SanitizedAll(s)
  }

  /** A name is kept but for the characters with a meaning in subjects; an empty one is an underscore. */
  lemma {:induction false} SanitizedAt(s: string, i: nat)
    requires i < |s|
    ensures SanitizeSubjectToken("") == "_" && |SanitizeSubjectToken(s)| == |s|
    ensures SanitizeSubjectToken(s)[i] == if s[i] in [' ', '.', ':', '*', '>'] then '_' else s[i]
    decreases |s|
  {
    if i > 0 {
      SanitizedAt(s[1..], i - 1);
    }
  }

  function Subject(epoch: nat, t: Target): string {
    SubjectPrefix(epoch) + (if t.DomainTarget? then "domain" else "db") + "." + SanitizeSubjectToken(t.name)
  }

  // ----- what a wildcard listens on

  /** Subject matching, token by token: a star stands for one token, a final > for one or more. */
  predicate MatchTokens(subject: seq<string>, pattern: seq<string>)
    decreases |pattern|
  {
    if pattern == [] then subject == []
    else if pattern == [">"] then subject != []
    else subject != [] && (pattern[0] == "*" || pattern[0] == subject[0]) && MatchTokens(subject[1..], pattern[1..])
  }

  predicate Listens(subject: string, pattern: string) {
    MatchTokens(Split(subject, '.'), Split(pattern, '.'))
  }

  function EpochToken(epoch: nat): string {
    "e" + Decimal(epoch)
  }

  lemma NoDot(epoch: nat)
    ensures '.' !in EpochToken(epoch)
  {
    DecimalDigits(epoch);
  }

  lemma FourTokens(a: string, b: string, c: string, d: string, rest: string)
    requires '.' !in a && '.' !in b && '.' !in c && '.' !in d
    ensures Split(a + "." + (b + "." + (c + "." + (d + "." + rest))), '.') == [a, b, c, d] + Split(rest, '.')
  {
    SplitFirst(d, '.', rest);
    SplitFirst(c, '.', d + "." + rest);
    SplitFirst(b, '.', c + "." + (d + "." + rest));
    SplitFirst(a, '.', b + "." + (c + "." + (d + "." + rest)));
  }

  lemma PrefixText(epoch: nat, rest: string)
    ensures SubjectPrefix(epoch) + rest == "cosmos" + "." + ("_global_" + "." + ("oplog" + "." + (EpochToken(epoch) + "." + rest)))
  {
    assert "cosmos._global_.oplog.e" == "cosmos" + "." + "_global_" + "." + "oplog" + "." + "e";
  }

  /** The four tokens every subject of an epoch starts with. */
  lemma PrefixTokens(epoch: nat, rest: string)
    ensures Split(SubjectPrefix(epoch) + rest, '.') == ["cosmos", "_global_", "oplog", EpochToken(epoch)] + Split(rest, '.')
  {
    NoDot(epoch);
    PrefixText(epoch, rest);
    FourTokens("cosmos", "_global_", "oplog", EpochToken(epoch), rest);
  }

  lemma {:induction false} SanitizedHasNoDot(s: string)
    ensures '.' !in SanitizedAll(s)
  {
    if s != [] {
      SanitizedHasNoDot(s[1..]);
    }
  }

  lemma TokenHasNoDot(s: string)
    ensures '.' !in SanitizeSubjectToken(s) && SanitizeSubjectToken(s) != []
  {
    SanitizedHasNoDot(s);
  }

  lemma SubjectTokens(epoch: nat, t: Target)
    ensures Split(Subject(epoch, t), '.') ==
            ["cosmos", "_global_", "oplog", EpochToken(epoch)] +
            [if t.DomainTarget? then "domain" else "db", SanitizeSubjectToken(t.name)]
  {
    var kind := if t.DomainTarget? then "domain" else "db";
    var token := SanitizeSubjectToken(t.name);
    TokenHasNoDot(t.name);
    assert '.' !in kind;
    SplitPlain(token, '.');
    SplitFirst(kind, '.', token);
    PrefixTokens(epoch, kind + "." + token);
    assert Subject(epoch, t) == SubjectPrefix(epoch) + (kind + "." + token);
  }

  lemma WildcardTokens(epoch: nat)
    ensures Split(SubjectWildcard(epoch), '.') == ["cosmos", "_global_", "oplog", EpochToken(epoch)] + [">"]
  {
    PrefixTokens(epoch, ">");
    SplitPlain(">", '.');
  }

  /** A literal token in front only matches itself. */
  lemma MatchHead(x: string, s: seq<string>, y: string, p: seq<string>)
    requires y != "*" && p != []
    ensures MatchTokens([x] + s, [y] + p) <==> x == y && MatchTokens(s, p)
  {
    assert ([x] + s)[1..] == s && ([y] + p)[1..] == p;
    assert |[y] + p| >= 2;
  }

  /** An entry's subject matches an epoch's stream exactly when it names that epoch, whatever table or
      domain it is about. */
  lemma EpochIsTheFence(epoch: nat, t: Target, listening: nat)
    ensures Listens(Subject(epoch, t), SubjectWildcard(listening)) <==> epoch == listening
  {
    SubjectTokens(epoch, t);
    WildcardTokens(listening);
    var tail := [if t.DomainTarget? then "domain" else "db", SanitizeSubjectToken(t.name)];
    var x, y := EpochToken(epoch), EpochToken(listening);
    assert ["cosmos", "_global_", "oplog", x] + tail == ["cosmos"] + (["_global_"] + (["oplog"] + ([x] + tail)));
    assert ["cosmos", "_global_", "oplog", y] + [">"] == ["cosmos"] + (["_global_"] + (["oplog"] + ([y] + [">"])));
    MatchHead("cosmos", ["_global_"] + (["oplog"] + ([x] + tail)), "cosmos", ["_global_"] + (["oplog"] + ([y] + [">"])));
    MatchHead("_global_", ["oplog"] + ([x] + tail), "_global_", ["oplog"] + ([y] + [">"]));
    MatchHead("oplog", [x] + tail, "oplog", [y] + [">"]);
    assert y[0] == 'e';
    MatchHead(x, tail, y, [">"]);
    assert MatchTokens(tail, [">"]);
    if x == y {
      assert Decimal(epoch) == x[1..] && Decimal(listening) == y[1..];
      DecimalInjective(epoch, listening);
    }
  }

  /** Two epochs never share a stream name. */
  lemma StreamNamesDiffer(a: nat, b: nat)
    requires StreamName(a) == StreamName(b)
    ensures a == b
  {
    var p := "cosmos-oplog-e";
    assert Decimal(a) == StreamName(a)[|p|..] && Decimal(b) == StreamName(b)[|p|..];
    DecimalInjective(a, b);
  }
}
