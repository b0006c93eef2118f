/** The byte format of the durable alias map: a 32-bit little-endian count, then for
    each alias its length and bytes and its target's length and bytes. */
module AliasCodec {
  import opened Store

  type byte = x: int | 0 <= x < 256
  type Bytes = seq<byte>
  type Aliases = map<Bytes, Bytes>

  const U32_LIMIT: nat := 0x1_0000_0000

  // ---------- the format ----------

  /** `uint32(n)`, least significant byte first. */
  function U32(n: nat): (r: Bytes)
    ensures |r| == 4
  {
    [n % 256, n / 256 % 256, n / 256 / 256 % 256, n / 256 / 256 / 256 % 256]
  }

  function U32Value(b: Bytes): (n: nat)
    requires |b| == 4
    ensures n < U32_LIMIT
  {
    var d: seq<int> := b;
    d[0] + 256 * (d[1] + 256 * (d[2] + 256 * d[3]))
  }

  lemma U32RoundTrip(n: nat)
    requires n < U32_LIMIT
    ensures U32Value(U32(n)) == n
  {
    var a := n / 256;
    var b := a / 256;
    var c := b / 256;
    assert c < 256;
  }

  /** Least significant byte first. */
  lemma U32Bytes(n: nat)
    requires n < U32_LIMIT
    ensures var b: seq<int> := U32(n); n == b[0] + 0x100 * b[1] + 0x1_0000 * b[2] + 0x100_0000 * b[3]
  {
    U32RoundTrip(n);
  }

  function Field(s: Bytes): (r: Bytes) { U32(|s|) + s }

  function Entries(list: seq<(Bytes, Bytes)>): (r: Bytes)
  {
    if list == [] then [] else Field(list[0].0) + Field(list[0].1) + Entries(list[1..])
  }

  function Encoded(list: seq<(Bytes, Bytes)>): (r: Bytes) { U32(|list|) + Entries(list) }

  /** The layout, on one entry: the count, then the alias, then its target. */
  lemma OneEntry(alias: Bytes, target: Bytes)
    ensures Encoded([(alias, target)]) == U32(1) + (U32(|alias|) + alias) + (U32(|target|) + target)
  {
    assert Entries([(alias, target)][1..]) == [];
  }

  function Extend(m: Aliases, list: seq<(Bytes, Bytes)>): (r: Aliases)
    decreases list
  {
    if list == [] then m else Extend(m[list[0].0 := list[0].1], list[1..])
  }

  /** `list` enumerates `m`: the order a map is walked in is arbitrary. */
  ghost predicate Enumerates(list: seq<(Bytes, Bytes)>, m: Aliases)
  {
    && (forall i :: 0 <= i < |list| ==> list[i].0 in m && m[list[i].0] == list[i].1)
    && (forall i, j :: 0 <= i < j < |list| ==> list[i].0 != list[j].0)
    && (forall k :: k in m ==> exists i :: 0 <= i < |list| && list[i].0 == k)
  }

  /** Lengths the format can hold. */
  ghost predicate Fits(list: seq<(Bytes, Bytes)>)
  {
    |list| < U32_LIMIT && forall i :: 0 <= i < |list| ==> |list[i].0| < U32_LIMIT && |list[i].1| < U32_LIMIT
  }

  // ---------- reading ----------

  function ReadField(b: Bytes): (r: Option<(Bytes, Bytes)>)
    ensures r.Some? ==> |r.value.1| < |b|
  {
    if |b| < 4 then None
    else
      var n := U32Value(b[..4]);
      if 4 + n > |b| then None else Some((b[4..4 + n], b[4 + n..]))
  }

  /** Reads `n` entries into `m`. */
  function ReadEntries(b: Bytes, n: nat, m: Aliases): (r: Option<Aliases>)
    decreases n
  {
    if n == 0 then Some(m)
    else match ReadField(b)
      case None => None
      case Some((k, rest)) =>
        match ReadField(rest)
        case None => None
        case Some((v, rest')) => ReadEntries(rest', n - 1, m[k := v])
  }

  function Decoded(b: Bytes): (r: Option<Aliases>)
  {
    if |b| < 4 then None else ReadEntries(b[4..], U32Value(b[..4]), map[])
  }

  lemma ReadOwnField(s: Bytes, rest: Bytes)
    requires |s| < U32_LIMIT
    ensures ReadField(Field(s) + rest) == Some((s, rest))
  {
    hide U32, U32Value;
    U32RoundTrip(|s|);
    var b := Field(s) + rest;
    assert b[..4] == U32(|s|);
    assert b[4..4 + |s|] == s && b[4 + |s|..] == rest;
  }

  /** A field cut short is refused; one that is whole reads the same. */
  lemma ReadCutField(s: Bytes, rest: Bytes, i: nat)
    requires |s| < U32_LIMIT && i <= |Field(s) + rest|
    ensures i < |Field(s)| ==> ReadField((Field(s) + rest)[..i]) == None
    ensures i >= |Field(s)| ==> ReadField((Field(s) + rest)[..i]) == Some((s, rest[..i - |Field(s)|]))
  {
    hide U32, U32Value;
    U32RoundTrip(|s|);
    var whole := Field(s) + rest;
    var b := whole[..i];
    if i >= 4 {
      assert b[..4] == U32(|s|);
      }
    if i >= |Field(s)| {
      assert b == Field(s) + rest[..i - |Field(s)|];
      ReadOwnField(s, rest[..i - |Field(s)|]);
    }
  }

  lemma {:induction false} ReadOwnEntries(list: seq<(Bytes, Bytes)>, m: Aliases)
    requires forall i :: 0 <= i < |list| ==> |list[i].0| < U32_LIMIT && |list[i].1| < U32_LIMIT
    ensures ReadEntries(Entries(list), |list|, m) == Some(Extend(m, list))
  {
    if list != [] {
      var (k, v) := list[0];
      var rest := Entries(list[1..]);
      assert Entries(list) == Field(k) + (Field(v) + rest);
      ReadOwnField(k, Field(v) + rest);
      ReadOwnField(v, rest);
      ReadOwnEntries(list[1..], m[k := v]);
    }
  }

  lemma {:induction false} ReadCutEntries(list: seq<(Bytes, Bytes)>, m: Aliases, i: nat)
    requires forall i :: 0 <= i < |list| ==> |list[i].0| < U32_LIMIT && |list[i].1| < U32_LIMIT
    requires i < |Entries(list)|
    ensures ReadEntries(Entries(list)[..i], |list|, m) == None
  {
    var (k, v) := list[0];
    var rest := Entries(list[1..]);
    assert Entries(list) == Field(k) + (Field(v) + rest);
    ReadCutField(k, Field(v) + rest, i);
    if i >= |Field(k)| {
      var j := i - |Field(k)|;
      ReadCutField(v, rest, j);
      if j >= |Field(v)| { ReadCutEntries(list[1..], m[k := v], j - |Field(v)|); }
    }
  }

  lemma {:induction false} ExtendEnumerated(list: seq<(Bytes, Bytes)>, m: Aliases, full: Aliases)
    requires m.Keys <= full.Keys && forall k :: k in m ==> full[k] == m[k]
    requires forall i :: 0 <= i < |list| ==> list[i].0 in full && full[list[i].0] == list[i].1
    requires forall k :: k in full ==> k in m || exists i :: 0 <= i < |list| && list[i].0 == k
    ensures Extend(m, list) == full
  {
    if list != [] {
      var m' := m[list[0].0 := list[0].1];
      forall k | k in full && k !in m' ensures exists i :: 0 <= i < |list[1..]| && list[1..][i].0 == k {
        var i :| 0 <= i < |list| && list[i].0 == k;
        assert list[1..][i - 1].0 == k;
      }
      ExtendEnumerated(list[1..], m', full);
    } else {
      assert m.Keys == full.Keys;
    }
  }

  /** Decoding an encoding gives the map back, whatever order it was walked in. */
  lemma RoundTrip(m: Aliases, list: seq<(Bytes, Bytes)>)
    requires Enumerates(list, m) && Fits(list)
    ensures Decoded(Encoded(list)) == Some(m)
  {
    var b := Encoded(list);
    hide U32, U32Value, Entries, ReadEntries;
    U32RoundTrip(|list|);
    assert b[..4] == U32(|list|) && b[4..] == Entries(list);
    ReadOwnEntries(list, map[]);
    ExtendEnumerated(list, map[], m);
  }

  /** No strict prefix of an encoding is accepted. */
  lemma PrefixRefused(list: seq<(Bytes, Bytes)>, i: nat)
    requires Fits(list) && i < |Encoded(list)|
    ensures Decoded(Encoded(list)[..i]) == None
  {
    var b := Encoded(list);
    hide U32, U32Value, Entries, ReadEntries;
    U32RoundTrip(|list|);
    if i >= 4 {
      assert b[..i][..4] == U32(|list|) && b[..i][4..] == Entries(list)[..i - 4];
      ReadCutEntries(list, map[], i - 4);
    }
  }

  // ---------- the decoder ----------

  /** `decodeAliasMap`: every read is inside the buffer, on any bytes. */
  method DecodeAliasMap(b: Bytes) returns (r: Option<Aliases>)
    ensures r == Decoded(b)
  {
    hide U32Value;
    if |b| < 4 { return None; }
    var n := U32Value(b[0..4]);
    assert b[0..4] == b[..4];
    var off := 4;
    var m: Aliases := map[];
    for i := 0 to n
      invariant 4 <= off <= |b|
      invariant Decoded(b) == ReadEntries(b[off..], n - i, m)
    {
      if off + 4 > |b| { return None; }
      var kl := U32Value(b[off..off + 4]);
      FieldAt(b, off);
      off := off + 4;
      if off + kl > |b| { return None; }
      var k := b[off..off + kl];
      off := off + kl;
      if off + 4 > |b| { return None; }
      var vl := U32Value(b[off..off + 4]);
      FieldAt(b, off);
      off := off + 4;
      if off + vl > |b| { return None; }
      var v := b[off..off + vl];
      off := off + vl;
      m := m[k := v];
    }
    r := Some(m);
  }

  /** A field read at an offset of a buffer. */
  lemma FieldAt(b: Bytes, off: nat)
    requires off + 4 <= |b|
    ensures var n := U32Value(b[off..off + 4]);
      ReadField(b[off..]) == if off + 4 + n > |b| then None else Some((b[off + 4..off + 4 + n], b[off + 4 + n..]))
  {
    hide U32Value;
    var rest := b[off..];
    assert rest[..4] == b[off..off + 4];
    var n := U32Value(rest[..4]);
    if 4 + n <= |rest| {
      assert rest[4..4 + n] == b[off + 4..off + 4 + n] && rest[4 + n..] == b[off + 4 + n..];
    }
  }

  // ---------- the encoder ----------

  /** Bytes the entries of a map take. */
  ghost function Room(m: Aliases): (n: nat)
    decreases |m|
  {
    if m == map[] then 0
    else
      var k :| k in m;
      8 + |k| + |m[k]| + Room(m - {k})
  }

  lemma {:induction false} RoomWithout(m: Aliases, k: Bytes)
    requires k in m
    ensures Room(m) == 8 + |k| + |m[k]| + Room(m - {k})
    decreases |m|
  {
    var first :| first in m && Room(m) == 8 + |first| + |m[first]| + Room(m - {first});
    if first != k {
      RoomWithout(m - {first}, k);
      RoomWithout(m - {k}, first);
      assert m - {first} - {k} == m - {k} - {first};
    }
  }

  method Put32(b: array<byte>, off: nat, n: nat)
    requires off + 4 <= b.Length
    modifies b
    ensures b[..off + 4] == old(b[..off]) + U32(n)
  {
    b[off], b[off + 1], b[off + 2], b[off + 3] := n % 256, n / 256 % 256, n / 256 / 256 % 256, n / 256 / 256 / 256 % 256;
  }

  method CopyAt(b: array<byte>, off: nat, s: Bytes)
    requires off + |s| <= b.Length
    modifies b
    ensures b[..off + |s|] == old(b[..off]) + s
  {
    for i := 0 to |s|
      invariant b[..off + i] == old(b[..off]) + s[..i]
    {
      b[off + i] := s[i];
    }
    assert s[..|s|] == s;
  }

  method PutField(b: array<byte>, off: nat, s: Bytes)
    requires off + 4 + |s| <= b.Length
    modifies b
    ensures b[..off + 4 + |s|] == old(b[..off]) + Field(s)
  {
    Put32(b, off, |s|);
    CopyAt(b, off + 4, s);
  }

  lemma {:induction false} EntriesSnoc(list: seq<(Bytes, Bytes)>, e: (Bytes, Bytes))
    ensures Entries(list + [e]) == Entries(list) + Field(e.0) + Field(e.1)
  {
    if list == [] {
      assert [e][1..] == [] && list + [e] == [e];
    } else {
      assert (list + [e])[1..] == list[1..] + [e];
      EntriesSnoc(list[1..], e);
    }
  }

  /** Writes one entry behind those already there. */
  method PutEntry(b: array<byte>, off: nat, k: Bytes, v: Bytes, ghost head: Bytes, ghost list: seq<(Bytes, Bytes)>)
    requires off + 8 + |k| + |v| <= b.Length && b[..off] == head + Entries(list)
    modifies b
    ensures b[..off + 8 + |k| + |v|] == head + Entries(list + [(k, v)])
  {
    hide Field, Entries;
    EntriesSnoc(list, (k, v));
    PutField(b, off, k);
    PutField(b, off + 4 + |k|, v);
  }

  method EncodedSize(m: Aliases) returns (size: nat)
    ensures size == 4 + Room(m)
  {
    size := 4;
    var left := m;
    while left != map[]
      invariant size + Room(left) == 4 + Room(m)
      invariant forall k :: k in left ==> k in m && left[k] == m[k]
      decreases |left|
    {
      var k :| k in left;
      RoomWithout(left, k);
      size := size + 8 + |k| + |left[k]|;
      left := left - {k};
    }
  }

  /** `encodeAliasMap`: writes every entry once, in some order, and fills the buffer
      exactly. */
  method EncodeAliasMap(m: Aliases) returns (b: array<byte>, ghost list: seq<(Bytes, Bytes)>)
    ensures fresh(b)
    ensures Enumerates(list, m) && |list| == |m|
    ensures b[..] == Encoded(list)
  {
    hide U32, Room, Field, Entries, Written;
    var size := EncodedSize(m);
    b := new byte[size];
    Put32(b, 0, |m|);
    var off: nat, left := 4, m;
    list := [];
    StartWriting(m);
    assert b[..4] == U32(|m|);
    while left != map[]
      invariant off + Room(left) == size == b.Length
      invariant b[..off] == U32(|m|) + Entries(list)
      invariant |list| + |left| == |m|
      invariant Written(list, left, m)
      decreases |left|
    {
      var k :| k in left;
      var v := left[k];
      RoomWithout(left, k);
      PutEntry(b, off, k, v, U32(|m|), list);
      off := off + 8 + |k| + |v|;
      WrittenMore(list, left, m, k);
      list := list + [(k, v)];
      left := left - {k};
    }
    StartWriting(map[]);
    DoneWriting(list, m);
    assert b[..off] == b[..];
  }

  lemma StartWriting(m: Aliases)
    ensures Room(map[]) == 0 && Entries([]) == [] && Written([], m, m)
  {}

  lemma DoneWriting(list: seq<(Bytes, Bytes)>, m: Aliases)
    requires Written(list, map[], m)
    ensures Enumerates(list, m)
  {}

  /** The entries written and those left make up the map. */
  ghost predicate Written(list: seq<(Bytes, Bytes)>, left: Aliases, m: Aliases)
  {
    && (forall k :: k in left ==> k in m && left[k] == m[k])
    && (forall i :: 0 <= i < |list| ==> list[i].0 in m && m[list[i].0] == list[i].1 && list[i].0 !in left)
    && (forall i, j :: 0 <= i < j < |list| ==> list[i].0 != list[j].0)
    && (forall k :: k in m && k !in left ==> exists i :: 0 <= i < |list| && list[i].0 == k)
  }

  lemma WrittenMore(list: seq<(Bytes, Bytes)>, left: Aliases, m: Aliases, k: Bytes)
    requires Written(list, left, m) && k in left
    ensures Written(list + [(k, left[k])], left - {k}, m)
  {
    var list' := list + [(k, left[k])];
    forall x | x in m && x !in left - {k} ensures exists i :: 0 <= i < |list'| && list'[i].0 == x {
      if x == k {
        assert list'[|list|].0 == x;
      } else {
        var i :| 0 <= i < |list| && list[i].0 == x;
        assert list'[i].0 == x;
      }
    }
  }
}
