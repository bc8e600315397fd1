/**
 * The task value type of the tracker (src/models.rs), the closed status enum
 * the command layer uses, and the identifier a task is looked up by.
 */
module Models {
  import opened Wrappers

  newtype byte = x: int | 0 <= x < 256

  /** A UUID: sixteen bytes. */
  type Uuid = s: seq<byte> | |s| == 16 witness seq(16, _ => 0)

  /** The lifecycle states a task can be in. */
  datatype TaskStatus = Todo | InProgress | Blocked | Done

  /** A persisted work item: exactly an id, a status and a free-text description. */
  datatype Task = Task(id: Uuid, status: TaskStatus, description: string)

  // ---------------------------------------------------------------------------
  // The string form of an id (`Uuid::to_string`): lower-case hexadecimal in
  // 8-4-4-4-12 groups separated by hyphens. Removal and update look tasks up
  // by this string, so what matters about it is that it is injective.
  // ---------------------------------------------------------------------------

  function HexValue(c: char): (r: Option<nat>)
    ensures r.Some? ==> r.value < 16
  {
    if '0' <= c <= '9' then Some(c as int - '0' as int)
    else if 'a' <= c <= 'f' then Some(c as int - 'a' as int + 10)
    else None
  }

  /** The lower-case hexadecimal digit of a nibble; HexValue reads it back. */
  function HexDigit(n: nat): (c: char)
    requires n < 16
    ensures HexValue(c) == Some(n)
  {
    if n < 10 then ('0' as int + n) as char else ('a' as int + n - 10) as char
  }

  /** Two hexadecimal digits per byte, high nibble first. */
  function Hex(bs: seq<byte>): (s: string)
    ensures |s| == 2 * |bs|
  {
    if bs == [] then []
    else [HexDigit(bs[0] as int / 16), HexDigit(bs[0] as int % 16)] + Hex(bs[1..])
  }

  /** Reads back what Hex writes; None on an odd length or a non-digit. */
  function ParseHex(s: string): (r: Option<seq<byte>>)
    ensures r.Some? ==> 2 * |r.value| == |s|
    decreases |s|
  {
    if |s| == 0 then Some([])
    else if |s| == 1 then None
    else match (HexValue(s[0]), HexValue(s[1]), ParseHex(s[2..]))
      case (Some(hi), Some(lo), Some(rest)) => Some([(hi * 16 + lo) as byte] + rest)
      case _ => None
  }

  lemma {:induction false} ParseHexOfHex(bs: seq<byte>)
    ensures ParseHex(Hex(bs)) == Some(bs)
  {
    if bs != [] {
      var s := Hex(bs);
      assert s[2..] == Hex(bs[1..]);
      ParseHexOfHex(bs[1..]);
      assert bs == [bs[0]] + bs[1..];
    }
  }

  /** Groups of bytes in hexadecimal, joined by hyphens. */
  function Hyphenated(groups: seq<seq<byte>>): string
  {
    if groups == [] then []
    else if |groups| == 1 then Hex(groups[0])
    else Hex(groups[0]) + "-" + Hyphenated(groups[1..])
  }

  /** The five groups of an id's bytes: 4, 2, 2, 2 and 6 bytes long. */
  function Groups(u: Uuid): seq<seq<byte>>
  {
    [u[..4], u[4..6], u[6..8], u[8..10], u[10..]]
  }

  /** The hyphenated form written out group by group. */
  lemma HyphenatedGroups(u: Uuid)
    ensures Hyphenated(Groups(u)) ==
      Hex(u[..4]) + "-" + (Hex(u[4..6]) + "-" + (Hex(u[6..8]) + "-" + (Hex(u[8..10]) + "-" + Hex(u[10..]))))
  {
    var g := Groups(u);
    assert g[4..] == [u[10..]];
    assert Hyphenated(g[4..]) == Hex(u[10..]);
    assert g[3..][0] == u[8..10] && g[3..][1..] == g[4..];
    assert Hyphenated(g[3..]) == Hex(u[8..10]) + "-" + Hyphenated(g[4..]);
    assert g[2..][0] == u[6..8] && g[2..][1..] == g[3..];
    assert Hyphenated(g[2..]) == Hex(u[6..8]) + "-" + Hyphenated(g[3..]);
    assert g[1..][0] == u[4..6] && g[1..][1..] == g[2..];
    assert Hyphenated(g[1..]) == Hex(u[4..6]) + "-" + Hyphenated(g[2..]);
  }

  /** The hyphenated string form of an id (`Uuid`'s `Display`). */
  function IdString(u: Uuid): string
  {
    Hyphenated(Groups(u))
  }

  /** Where the five groups and the four hyphens sit in the hyphenated form. */
  lemma SplitHyphenated(g1: string, g2: string, g3: string, g4: string, g5: string)
    requires |g1| == 8 && |g2| == 4 && |g3| == 4 && |g4| == 4 && |g5| == 12
    ensures var s := g1 + "-" + (g2 + "-" + (g3 + "-" + (g4 + "-" + g5)));
      && |s| == 36 && s[8] == s[13] == s[18] == s[23] == '-'
      && s[..8] == g1 && s[9..13] == g2 && s[14..18] == g3 && s[19..23] == g4 && s[24..] == g5
  {
    var r3 := g4 + "-" + g5;
    assert r3[..4] == g4 && r3[5..] == g5;
    var r2 := g3 + "-" + r3;
    assert r2[..4] == g3 && r2[5..] == r3;
    var r1 := g2 + "-" + r2;
    assert r1[..4] == g2 && r1[5..] == r2;
    var s := g1 + "-" + r1;
    assert s[..8] == g1 && s[9..] == r1;
    assert s[9..13] == g2 && s[14..] == r2;
    assert s[14..18] == g3 && s[19..] == r3;
  }

  /** The string form of an id is 36 characters with hyphens at 8, 13, 18 and 23. */
  lemma IdStringShape(u: Uuid)
    ensures var s := IdString(u);
      |s| == 36 && s[8] == s[13] == s[18] == s[23] == '-'
  {
    HyphenatedGroups(u);
    SplitHyphenated(Hex(u[..4]), Hex(u[4..6]), Hex(u[6..8]), Hex(u[8..10]), Hex(u[10..]));
  }

  /** Parses the hyphenated form back into an id; the inverse of IdString. */
  function ParseId(s: string): (r: Option<Uuid>)
  {
    if |s| != 36 || s[8] != '-' || s[13] != '-' || s[18] != '-' || s[23] != '-' then None
    else
      match (ParseHex(s[..8]), ParseHex(s[9..13]), ParseHex(s[14..18]), ParseHex(s[19..23]), ParseHex(s[24..]))
      case (Some(a), Some(b), Some(c), Some(d), Some(e)) => Some(a + b + c + d + e)
      case _ => None
  }

  /** Parsing the hyphenated form parses each of its five groups. */
  lemma ParseIdOfGroups(g1: string, g2: string, g3: string, g4: string, g5: string, u: Uuid)
    requires |g1| == 8 && |g2| == 4 && |g3| == 4 && |g4| == 4 && |g5| == 12
    requires ParseHex(g1) == Some(u[..4]) && ParseHex(g2) == Some(u[4..6]) && ParseHex(g3) == Some(u[6..8])
    requires ParseHex(g4) == Some(u[8..10]) && ParseHex(g5) == Some(u[10..])
    ensures ParseId(g1 + "-" + (g2 + "-" + (g3 + "-" + (g4 + "-" + g5)))) == Some(u)
  {
    SplitHyphenated(g1, g2, g3, g4, g5);
    var s := g1 + "-" + (g2 + "-" + (g3 + "-" + (g4 + "-" + g5)));
    var parts := (ParseHex(s[..8]), ParseHex(s[9..13]), ParseHex(s[14..18]), ParseHex(s[19..23]), ParseHex(s[24..]));
    assert parts == (Some(u[..4]), Some(u[4..6]), Some(u[6..8]), Some(u[8..10]), Some(u[10..]));
    UuidOfGroups(u);
  }

  /** An id is the concatenation of its five groups of bytes. */
  lemma UuidOfGroups(u: Uuid)
    ensures u == u[..4] + u[4..6] + u[6..8] + u[8..10] + u[10..]
  {
    assert u == u[..4] + u[4..];
    assert u[4..] == u[4..6] + u[6..];
    assert u[6..] == u[6..8] + u[8..];
    assert u[8..] == u[8..10] + u[10..];
  }

  lemma IdStringRoundTrip(u: Uuid)
    ensures ParseId(IdString(u)) == Some(u)
  {
    HyphenatedGroups(u);
    ParseHexOfHex(u[..4]);
    ParseHexOfHex(u[4..6]);
    ParseHexOfHex(u[6..8]);
    ParseHexOfHex(u[8..10]);
    ParseHexOfHex(u[10..]);
    ParseIdOfGroups(Hex(u[..4]), Hex(u[4..6]), Hex(u[6..8]), Hex(u[8..10]), Hex(u[10..]), u);
  }

  /** Two ids with the same string form are the same id. */
  lemma IdStringInjective(u: Uuid, v: Uuid)
    ensures IdString(u) == IdString(v) <==> u == v
  {
    IdStringRoundTrip(u);
    IdStringRoundTrip(v);
  }

  /** No two tasks of the collection share an id. */
  predicate UniqueIds(ts: seq<Task>)
  {
    forall i, j :: 0 <= i < j < |ts| ==> ts[i].id != ts[j].id
  }

  // ---------------------------------------------------------------------------
  // Construction
  // ---------------------------------------------------------------------------

  /**
   * The identifier source behind `generate_uuid`: `draw(n)` is the value its
   * n-th call returns. The generator is opaque; nothing is assumed about it.
   */
  class UuidGenerator {
    const draw: nat -> Uuid
    var calls: nat

    constructor (draw: nat -> Uuid)
      ensures this.draw == draw && calls == 0
    {
      this.draw := draw;
      calls := 0;
    }

    method Generate() returns (u: Uuid)
      modifies this
      ensures u == draw(old(calls))
      ensures calls == old(calls) + 1
    {
      u := draw(calls);
      calls := calls + 1;
    }
  }

  /**
   * `Task::new`: the status and description are taken as given (an empty
   * description included); the id is the generator's next value.
   */
  method NewTask(gen: UuidGenerator, status: TaskStatus, description: string) returns (t: Task)
    modifies gen
    ensures t.status == status && t.description == description
    ensures t.id == gen.draw(old(gen.calls))
    ensures gen.calls == old(gen.calls) + 1
  {
    var id := gen.Generate();
    t := Task(id, status, description);
  }
}
