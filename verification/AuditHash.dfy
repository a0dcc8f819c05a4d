/** The canonical record encoding and the digest link of the audit chain. */
module AuditHash {
  import opened Basics
  import opened Bytes
  import Sorting

  type Detail = m: map<GoString, GoString> | |m| < TWO_63

  /** A persisted record. `time` is the instant's UnixNano value. */
  datatype Record = Record(
    seqNo: uint64,
    time: int64,
    agentID: GoString,
    actor: GoString,
    action: GoString,
    resource: GoString,
    detail: Detail,
    prevHash: GoString,
    hash: GoString)

  /** The digest followed by its hex form; nothing about it is assumed. */
  type DigestFn = Bytes -> GoString

  function Ascii(s: string): Bytes {
    seq(|s|, i requires 0 <= i < |s| => (s[i] as int) % 256)
  }

  function GenesisInput(): Bytes {
    Ascii("phantomtraffic.audit.genesis.v1")
  }

  function Field(b: Bytes): Bytes {
    BigEndian(|b|, 8) + b
  }

  function Pairs(keys: seq<GoString>, m: Detail): Bytes
    requires forall k | k in keys :: k in m
  {
    if keys == [] then []
    else Field(keys[0]) + (Field(m[keys[0]]) + Pairs(keys[1..], m))
  }

  /** `keys` lists `ks` once each, in byte order. */
  ghost predicate IsSortedListing(keys: seq<GoString>, ks: set<GoString>) {
    && (forall i, j | 0 <= i < j < |keys| :: Before(keys[i], keys[j]))
    && (forall k :: k in keys <==> k in ks)
  }

  /** Byte for byte what the record's digest is computed over, given its sorted keys. */
  function EncodeWith(r: Record, keys: seq<GoString>): Bytes
    requires forall k | k in keys :: k in r.detail
  {
    Field(BigEndian(r.seqNo, 8))
    + (Field(BigEndian(ToUint64(r.time), 8))
    + (Field(r.agentID)
    + (Field(r.actor)
    + (Field(r.action)
    + (Field(r.resource)
    + (Field(BigEndian(|r.detail|, 8))
    + (Pairs(keys, r.detail)
    + Field(r.prevHash))))))))
  }

  // ---------- the listing of a map's keys ----------

  lemma SortedListingsAgree(s: seq<GoString>, t: seq<GoString>, ks: set<GoString>)
    requires IsSortedListing(s, ks) && IsSortedListing(t, ks)
    ensures s == t
  {
    if s != [] || t != [] {
      assert s != [] ==> s[0] in t;
      assert t != [] ==> t[0] in s;
      BeforeTotal(s[0], t[0]);
      if s[0] != t[0] {
        HeadIsLeast(s, t[0]);
        HeadIsLeast(t, s[0]);
        BeforeAsymmetric(s[0], t[0]);
      }
      TailListing(s, ks);
      TailListing(t, ks);
      SortedListingsAgree(s[1..], t[1..], ks - {s[0]});
      assert s == [s[0]] + s[1..] && t == [t[0]] + t[1..];
    }
  }

  lemma HeadIsLeast(s: seq<GoString>, k: GoString)
    requires forall i, j | 0 <= i < j < |s| :: Before(s[i], s[j])
    requires k in s && k != s[0]
    ensures Before(s[0], k)
  {
    var i :| 0 <= i < |s| && s[i] == k;
  }

  lemma TailListing(s: seq<GoString>, ks: set<GoString>)
    requires IsSortedListing(s, ks) && s != []
    ensures IsSortedListing(s[1..], ks - {s[0]})
  {
    forall k
      ensures k in s[1..] <==> k in ks - {s[0]}
    {
      if k in s[1..] {
        var i :| 1 <= i < |s| && s[i] == k;
        BeforeAsymmetric(s[0], k);
      }
      if k in ks - {s[0]} {
        var i :| 0 <= i < |s| && s[i] == k;
        assert s[1..][i - 1] == k;
      }
    }
  }

  function ByteOrder(): (GoString, GoString) -> bool {
    (x: GoString, y: GoString) => AtMost(x, y)
  }

  lemma ByteOrderPreorder(keys: seq<GoString>)
    ensures Sorting.PreorderOn(ByteOrder(), keys)
  {
    forall i, j | 0 <= i < |keys| && 0 <= j < |keys|
      ensures AtMost(keys[i], keys[j]) || AtMost(keys[j], keys[i])
    {
      BeforeTotal(keys[i], keys[j]);
    }
    forall i, j, k | 0 <= i < |keys| && 0 <= j < |keys| && 0 <= k < |keys|
                     && AtMost(keys[i], keys[j]) && AtMost(keys[j], keys[k])
      ensures AtMost(keys[i], keys[k])
    {
      if keys[i] != keys[j] && keys[j] != keys[k] {
        BeforeTransitive(keys[i], keys[j], keys[k]);
      }
    }
  }

  lemma SortKeepsDistinct(keys: seq<GoString>, i: nat, j: nat)
    requires forall i, j | 0 <= i < j < |keys| :: keys[i] != keys[j]
    requires i < j < |keys|
    ensures Sorting.StableSorted(ByteOrder(), keys)[i] != Sorting.StableSorted(ByteOrder(), keys)[j]
  {
    var s := Sorting.StableSorted(ByteOrder(), keys);
    if s[i] == s[j] {
      CountTwice(s, i, j);
      Sorting.SortedElements(ByteOrder(), keys);
      DistinctCount(keys);
      assert false;
    }
  }

  /** Sorting any listing without repetitions gives the sorted listing. */
  lemma SortGivesListing(keys: seq<GoString>, ks: set<GoString>)
    requires forall k :: k in keys <==> k in ks
    requires forall i, j | 0 <= i < j < |keys| :: keys[i] != keys[j]
    ensures IsSortedListing(Sorting.StableSorted(ByteOrder(), keys), ks)
  {
    var s := Sorting.StableSorted(ByteOrder(), keys);
    forall k
      ensures k in s <==> k in ks
    {
      Sorting.SortedMember(ByteOrder(), keys, k);
    }
    forall i, j | 0 <= i < j < |s|
      ensures Before(s[i], s[j])
    {
      SortKeepsDistinct(keys, i, j);
      SortOrders(keys, i, j);
    }
  }

  lemma SortOrders(keys: seq<GoString>, i: nat, j: nat)
    requires i < j < |keys|
    ensures AtMost(Sorting.StableSorted(ByteOrder(), keys)[i], Sorting.StableSorted(ByteOrder(), keys)[j])
  {
    ByteOrderPreorder(keys);
    Sorting.SortedOrdered(ByteOrder(), keys);
  }

  lemma {:induction false} DistinctCount(s: seq<GoString>)
    requires forall i, j | 0 <= i < j < |s| :: s[i] != s[j]
    ensures forall x :: multiset(s)[x] <= 1
  {
    if s != [] {
      var n := |s| - 1;
      DistinctCount(s[..n]);
      assert s == s[..n] + [s[n]];
      assert s[n] !in s[..n];
      assert multiset(s) == multiset(s[..n]) + multiset{s[n]};
      assert multiset(s[..n])[s[n]] == 0;
    }
  }

  lemma CountTwice(s: seq<GoString>, i: nat, j: nat)
    requires i < j < |s| && s[i] == s[j]
    ensures multiset(s)[s[i]] >= 2
  {
    assert s == s[..j] + ([s[j]] + s[j + 1..]);
    assert multiset(s) == multiset(s[..j]) + multiset([s[j]] + s[j + 1..]);
    assert s[i] in s[..j];
    assert s[j] in [s[j]] + s[j + 1..];
    assert multiset(s[..j])[s[i]] >= 1;
    assert multiset([s[j]] + s[j + 1..])[s[i]] >= 1;
  }

  lemma {:induction false} ListingExists(ks: set<GoString>)
    ensures exists keys :: IsSortedListing(keys, ks)
  {
    var keys := AnyListing(ks);
    SortGivesListing(keys, ks);
  }

  lemma {:induction false} AnyListing(ks: set<GoString>) returns (keys: seq<GoString>)
    ensures forall k :: k in keys <==> k in ks
    ensures forall i, j | 0 <= i < j < |keys| :: keys[i] != keys[j]
  {
    keys := [];
    if ks != {} {
      var k :| k in ks;
      var rest := AnyListing(ks - {k});
      keys := [k] + rest;
    }
  }

  /** The byte string the record's digest is taken of. */
  ghost function Encode(r: Record): Bytes {
    ListingExists(r.detail.Keys);
    var keys :| IsSortedListing(keys, r.detail.Keys);
    EncodeWith(r, keys)
  }

  // ---------- the encoding is injective ----------

  lemma FieldSplit(a: GoString, x: Bytes, b: GoString, y: Bytes)
    requires Field(a) + x == Field(b) + y
    ensures a == b && x == y
  {
    var s, t := Field(a) + x, Field(b) + y;
    assert s[..8] == BigEndian(|a|, 8) && t[..8] == BigEndian(|b|, 8);
    Uint64RoundTrip(|a|);
    Uint64RoundTrip(|b|);
    assert a == s[8..8 + |a|] && b == t[8..8 + |b|];
    assert x == s[8 + |a|..] && y == t[8 + |b|..];
  }

  lemma {:induction false} PairsSplit(k: seq<GoString>, m: Detail, x: Bytes, l: seq<GoString>, n: Detail, y: Bytes)
    requires |k| == |l|
    requires forall i | i in k :: i in m
    requires forall i | i in l :: i in n
    requires Pairs(k, m) + x == Pairs(l, n) + y
    ensures k == l && x == y
    ensures forall i | i in k :: m[i] == n[i]
  {
    if k == [] {
      assert x == [] + x && y == [] + y;
    } else {
      PairsHead(k, m, x);
      PairsHead(l, n, y);
      FieldSplit(k[0], Field(m[k[0]]) + (Pairs(k[1..], m) + x), l[0], Field(n[l[0]]) + (Pairs(l[1..], n) + y));
      FieldSplit(m[k[0]], Pairs(k[1..], m) + x, n[l[0]], Pairs(l[1..], n) + y);
      PairsSplit(k[1..], m, x, l[1..], n, y);
      assert k == [k[0]] + k[1..] && l == [l[0]] + l[1..];
    }
  }

  lemma PairsHead(k: seq<GoString>, m: Detail, x: Bytes)
    requires k != [] && forall i | i in k :: i in m
    ensures Pairs(k, m) + x == Field(k[0]) + (Field(m[k[0]]) + (Pairs(k[1..], m) + x))
  {
    var a, b, c := Field(k[0]), Field(m[k[0]]), Pairs(k[1..], m);
    assert a + (b + c) + x == a + (b + (c + x));
  }

  lemma ListingLength(keys: seq<GoString>, ks: set<GoString>)
    requires IsSortedListing(keys, ks)
    ensures |keys| == |ks|
  {
    if keys != [] {
      TailListing(keys, ks);
      ListingLength(keys[1..], ks - {keys[0]});
    } else {
      assert ks == {};
    }
  }

  /** Two records that agree on every field the digest covers. */
  ghost predicate SameHashed(r: Record, s: Record) {
    r.(hash := s.hash) == s
  }

  lemma HeadersSplit(r: Record, k: seq<GoString>, s: Record, l: seq<GoString>)
    requires forall i | i in k :: i in r.detail
    requires forall i | i in l :: i in s.detail
    requires EncodeWith(r, k) == EncodeWith(s, l)
    ensures r.seqNo == s.seqNo && r.time == s.time && r.agentID == s.agentID && r.actor == s.actor
    ensures r.action == s.action && r.resource == s.resource && |r.detail| == |s.detail|
    ensures Pairs(k, r.detail) + Field(r.prevHash) == Pairs(l, s.detail) + Field(s.prevHash)
  {
    var r7, s7 := Pairs(k, r.detail) + Field(r.prevHash), Pairs(l, s.detail) + Field(s.prevHash);
    var r6, s6 := Field(BigEndian(|r.detail|, 8)) + r7, Field(BigEndian(|s.detail|, 8)) + s7;
    var r5, s5 := Field(r.resource) + r6, Field(s.resource) + s6;
    var r4, s4 := Field(r.action) + r5, Field(s.action) + s5;
    var r3, s3 := Field(r.actor) + r4, Field(s.actor) + s4;
    var r2, s2 := Field(r.agentID) + r3, Field(s.agentID) + s3;
    var r1, s1 := Field(BigEndian(ToUint64(r.time), 8)) + r2, Field(BigEndian(ToUint64(s.time), 8)) + s2;
    FieldSplit(BigEndian(r.seqNo, 8), r1, BigEndian(s.seqNo, 8), s1);
    FieldSplit(BigEndian(ToUint64(r.time), 8), r2, BigEndian(ToUint64(s.time), 8), s2);
    FieldSplit(r.agentID, r3, s.agentID, s3);
    FieldSplit(r.actor, r4, s.actor, s4);
    FieldSplit(r.action, r5, s.action, s5);
    FieldSplit(r.resource, r6, s.resource, s6);
    FieldSplit(BigEndian(|r.detail|, 8), r7, BigEndian(|s.detail|, 8), s7);
    Uint64RoundTrip(r.seqNo);
    Uint64RoundTrip(s.seqNo);
    Uint64RoundTrip(ToUint64(r.time));
    Uint64RoundTrip(ToUint64(s.time));
    Uint64RoundTrip(|r.detail|);
    Uint64RoundTrip(|s.detail|);
  }

  lemma EncodeKeys(r: Record) returns (keys: seq<GoString>)
    ensures IsSortedListing(keys, r.detail.Keys) && Encode(r) == EncodeWith(r, keys)
  {
    ListingExists(r.detail.Keys);
    keys :| IsSortedListing(keys, r.detail.Keys) && Encode(r) == EncodeWith(r, keys);
  }

  /** The digested byte string determines every hashed field of the record. */
  lemma EncodeInjective(r: Record, s: Record)
    requires Encode(r) == Encode(s)
    ensures SameHashed(r, s)
  {
    hide BigEndian;
    var k := EncodeKeys(r);
    var l := EncodeKeys(s);
    hide Encode, EncodeWith, Field, Pairs;
    HeadersSplit(r, k, s, l);
    ListingLength(k, r.detail.Keys);
    ListingLength(l, s.detail.Keys);
    assert |r.detail| == |r.detail.Keys| && |s.detail| == |s.detail.Keys|;
    PairsSplit(k, r.detail, Field(r.prevHash), l, s.detail, Field(s.prevHash));
    assert Field(r.prevHash) + [] == Field(r.prevHash) && Field(s.prevHash) + [] == Field(s.prevHash);
    FieldSplit(r.prevHash, [], s.prevHash, []);
    assert r.detail == s.detail;
  }

  /** The genesis string is not the encoding of any record: it does not start with
      a length prefix. */
  lemma GenesisIsNoRecord(r: Record)
    ensures Encode(r) != GenesisInput()
  {
    ListingExists(r.detail.Keys);
    var k :| IsSortedListing(k, r.detail.Keys) && Encode(r) == EncodeWith(r, k);
    EncodingStartsWithZero(r, k);
    assert GenesisInput()[0] == 112;
  }

  lemma EncodingStartsWithZero(r: Record, keys: seq<GoString>)
    requires forall k | k in keys :: k in r.detail
    ensures EncodeWith(r, keys)[0] == 0
  {
    var b := BigEndian(r.seqNo, 8);
    LeadingZero(8, 8);
    assert Field(b)[0] == 0;
    var rest :| EncodeWith(r, keys) == Field(b) + rest;
  }

  lemma {:induction false} LeadingZero(n: nat, k: nat)
    requires k > 1 && n < 256
    ensures BigEndian(n, k)[0] == 0
  {
    if k > 2 {
      LeadingZero(0, k - 1);
    } else {
      assert BigEndian(n, 2) == BigEndian(0, 1) + [n];
    }
  }

  // ---------- the layout, read back ----------

  /** Reads length-prefixed fields until none is left: eight bytes of length, then that many. */
  function ReadFields(b: Bytes): seq<Bytes>
    decreases |b|
  {
    if |b| < 8 then []
    else
      var n := FromBigEndian(b[..8]);
      if n > |b| - 8 then [] else [b[8..8 + n]] + ReadFields(b[8 + n..])
  }

  lemma ReadField(a: GoString, rest: Bytes)
    ensures ReadFields(Field(a) + rest) == [a] + ReadFields(rest)
  {
    hide BigEndian;
    var b := Field(a) + rest;
    Uint64RoundTrip(|a|);
    assert b[..8] == BigEndian(|a|, 8) && b[8..8 + |a|] == a && b[8 + |a|..] == rest;
  }

  function Alternating(keys: seq<GoString>, m: Detail): seq<Bytes>
    requires forall k | k in keys :: k in m
  {
    if keys == [] then [] else [keys[0], m[keys[0]]] + Alternating(keys[1..], m)
  }

  lemma {:induction false} AlternatingAt(keys: seq<GoString>, m: Detail)
    requires forall k | k in keys :: k in m
    ensures |Alternating(keys, m)| == 2 * |keys|
    ensures forall i | 0 <= i < |keys| ::
              Alternating(keys, m)[2 * i] == keys[i] && Alternating(keys, m)[2 * i + 1] == m[keys[i]]
  {
    if keys != [] {
      AlternatingAt(keys[1..], m);
      forall i | 0 <= i < |keys|
        ensures Alternating(keys, m)[2 * i] == keys[i] && Alternating(keys, m)[2 * i + 1] == m[keys[i]]
      {
        if i > 0 {
          assert Alternating(keys[1..], m)[2 * (i - 1)] == keys[1..][i - 1];
        }
      }
    }
  }

  lemma TwoMore(a: Bytes, b: Bytes, c: seq<Bytes>, d: seq<Bytes>)
    ensures [a] + ([b] + (c + d)) == [a, b] + c + d
  {
  }

  lemma {:induction false} ReadPairs(keys: seq<GoString>, m: Detail, rest: Bytes)
    requires forall k | k in keys :: k in m
    ensures ReadFields(Pairs(keys, m) + rest) == Alternating(keys, m) + ReadFields(rest)
  {
    if keys == [] {
      assert Pairs(keys, m) + rest == rest;
    } else {
      hide Field, ReadFields, Pairs;
      PairsHead(keys, m, rest);
      var after := Pairs(keys[1..], m) + rest;
      ReadField(keys[0], Field(m[keys[0]]) + after);
      ReadField(m[keys[0]], after);
      ReadPairs(keys[1..], m, rest);
      TwoMore(keys[0], m[keys[0]], Alternating(keys[1..], m), ReadFields(rest));
    }
  }

  lemma ReadEncoding(r: Record, keys: seq<GoString>)
    requires forall k | k in keys :: k in r.detail
    ensures ReadFields(EncodeWith(r, keys))
            == [BigEndian(r.seqNo, 8), BigEndian(ToUint64(r.time), 8), r.agentID, r.actor, r.action, r.resource,
                BigEndian(|r.detail|, 8)] + Alternating(keys, r.detail) + [r.prevHash]
  {
    hide BigEndian, Field, ReadFields, Pairs;
    var last := Field(r.prevHash);
    var pairs := Pairs(keys, r.detail) + last;
    var r6 := Field(BigEndian(|r.detail|, 8)) + pairs;
    var r5 := Field(r.resource) + r6;
    var r4 := Field(r.action) + r5;
    var r3 := Field(r.actor) + r4;
    var r2 := Field(r.agentID) + r3;
    var r1 := Field(BigEndian(ToUint64(r.time), 8)) + r2;
    ReadField(BigEndian(r.seqNo, 8), r1);
    ReadField(BigEndian(ToUint64(r.time), 8), r2);
    ReadField(r.agentID, r3);
    ReadField(r.actor, r4);
    ReadField(r.action, r5);
    ReadField(r.resource, r6);
    ReadField(BigEndian(|r.detail|, 8), pairs);
    ReadPairs(keys, r.detail, last);
    ReadField(r.prevHash, []);
    assert last + [] == last && ReadFields([]) == [] by {
      ReadNothing();
    }
  }

  lemma ReadNothing()
    ensures ReadFields([]) == []
  {
  }

  /** The digested bytes, read back field by field: number, time, agent, actor, action, resource,
      number of details, each detail's key and value with the keys in byte order, previous hash. */
  lemma EncodeLayout(r: Record)
    ensures var fields, n := ReadFields(Encode(r)), |r.detail|;
            && |fields| == 8 + 2 * n
            && fields[0] == BigEndian(r.seqNo, 8)
            && fields[1] == BigEndian(if r.time < 0 then r.time + TWO_64 else r.time, 8)
            && fields[2] == r.agentID && fields[3] == r.actor && fields[4] == r.action && fields[5] == r.resource
            && fields[6] == BigEndian(n, 8) && fields[7 + 2 * n] == r.prevHash
            && exists keys: seq<GoString> :: IsSortedListing(keys, r.detail.Keys) && |keys| == n
                 && forall i | 0 <= i < n :: fields[7 + 2 * i] == keys[i] && fields[8 + 2 * i] == r.detail[keys[i]]
  {
    hide BigEndian, ReadFields;
    var keys := EncodeKeys(r);
    hide Encode, EncodeWith;
    ListingLength(keys, r.detail.Keys);
    assert |r.detail| == |r.detail.Keys|;
    ReadEncoding(r, keys);
    AlternatingAt(keys, r.detail);
    var fields, n := ReadFields(Encode(r)), |r.detail|;
    var head := [BigEndian(r.seqNo, 8), BigEndian(ToUint64(r.time), 8), r.agentID, r.actor, r.action, r.resource,
                 BigEndian(n, 8)];
    assert fields == head + Alternating(keys, r.detail) + [r.prevHash];
    forall i | 0 <= i < n
      ensures fields[7 + 2 * i] == keys[i] && fields[8 + 2 * i] == r.detail[keys[i]]
    {
      assert Alternating(keys, r.detail)[2 * i] == keys[i];
    }
  }

  // ---------- the code: a running hash fed field by field ----------

  class RunningHash {
    var written: Bytes

    constructor ()
      ensures written == []
    {
      written := [];
    }

    method Write(b: Bytes)
      modifies this
      ensures written == old(written) + b
    {
      written := written + b;
    }

    method WriteField(b: GoString)
      modifies this
      ensures written == old(written) + Field(b)
    {
      Write(BigEndian(|b|, 8));
      Write(b);
    }

    function Sum(digest: DigestFn): GoString
      reads this
    {
      digest(written)
    }
  }

  /** Go's `range` over a map: every key once, in an order nobody controls. */
  method KeysInAnyOrder(m: Detail) returns (keys: seq<GoString>)
    ensures forall k :: k in keys <==> k in m
    ensures forall i, j | 0 <= i < j < |keys| :: keys[i] != keys[j]
  {
    keys := [];
    var rest := m.Keys;
    while rest != {}
      invariant rest <= m.Keys
      invariant forall k :: k in keys <==> k in m.Keys - rest
      invariant forall i, j | 0 <= i < j < |keys| :: keys[i] != keys[j]
      decreases rest
    {
      var k :| k in rest;
      assert forall i | 0 <= i < |keys| :: keys[i] in keys;
      assert k !in keys;
      keys := keys + [k];
      rest := rest - {k};
    }
  }

  method SortedKeys(m: Detail) returns (keys: seq<GoString>)
    ensures IsSortedListing(keys, m.Keys)
  {
    var any := KeysInAnyOrder(m);
    var a := new GoString[|any|](i requires 0 <= i < |any| => any[i]);
    assert a[..] == any;
    Sorting.SortInPlace(a, ByteOrder());
    SortGivesListing(any, m.Keys);
    keys := a[..];
  }

  /** The fields in front of the detail pairs. */
  function Header(r: Record): Bytes {
    Field(BigEndian(r.seqNo, 8)) + Field(BigEndian(ToUint64(r.time), 8)) + Field(r.agentID) + Field(r.actor)
    + Field(r.action) + Field(r.resource) + Field(BigEndian(|r.detail|, 8))
  }

  lemma EncodeFromHeader(r: Record, keys: seq<GoString>)
    requires forall k | k in keys :: k in r.detail
    ensures EncodeWith(r, keys) == Header(r) + Pairs(keys, r.detail) + Field(r.prevHash)
  {
    var a, b := Field(BigEndian(r.seqNo, 8)), Field(BigEndian(ToUint64(r.time), 8));
    var c, d := Field(r.agentID), Field(r.actor);
    var e, f, g := Field(r.action), Field(r.resource), Field(BigEndian(|r.detail|, 8));
    var p, q := Pairs(keys, r.detail), Field(r.prevHash);
    Regroup(a, b, c, d, e + (f + (g + (p + q))));
    Regroup(a + b + c + d, e, f, g, p + q);
  }

  lemma Regroup(a: Bytes, b: Bytes, c: Bytes, d: Bytes, e: Bytes)
    ensures a + (b + (c + (d + e))) == (a + b + c + d) + e
    ensures (a + b + c + d) + e == a + b + c + d + e
  {
  }

  lemma Regroup3(a: Bytes, b: Bytes, c: Bytes, d: Bytes)
    ensures a + (b + (c + d)) == a + b + c + d
  {
  }

  method WritePairs(h: RunningHash, keys: seq<GoString>, m: Detail)
    requires forall k | k in keys :: k in m
    modifies h
    ensures h.written == old(h.written) + Pairs(keys, m)
  {
    hide Field;
    for i := 0 to |keys|
      invariant h.written + Pairs(keys[i..], m) == old(h.written) + Pairs(keys, m)
    {
      assert keys[i..][0] == keys[i] && keys[i..][1..] == keys[i + 1..];
      ghost var was := h.written;
      assert Pairs(keys[i..], m) == Field(keys[i]) + (Field(m[keys[i]]) + Pairs(keys[i + 1..], m));
      h.WriteField(keys[i]);
      h.WriteField(m[keys[i]]);
      Regroup3(was, Field(keys[i]), Field(m[keys[i]]), Pairs(keys[i + 1..], m));
    }
    assert keys[|keys|..] == [];
  }

  method WriteHeader(h: RunningHash, r: Record)
    modifies h
    ensures h.written == old(h.written) + Header(r)
  {
    hide BigEndian;
    ghost var was := h.written;
    h.WriteField(BigEndian(r.seqNo, 8));
    h.WriteField(BigEndian(ToUint64(r.time), 8));
    h.WriteField(r.agentID);
    h.WriteField(r.actor);
    h.WriteField(r.action);
    h.WriteField(r.resource);
    h.WriteField(BigEndian(|r.detail|, 8));
    assert h.written == was + Header(r);
  }

  /** The digest of a record: whatever order the map hands its keys out in, the bytes
      digested are the canonical encoding. */
  method RecordHash(digest: DigestFn, r: Record) returns (d: GoString)
    ensures d == digest(Encode(r))
  {
    hide Encode, EncodeWith, Header, Field, Pairs;
    var h := new RunningHash();
    WriteHeader(h, r);
    var keys := SortedKeys(r.detail);
    WritePairs(h, keys, r.detail);
    h.WriteField(r.prevHash);
    EncodeFromHeader(r, keys);
    EncodeAnyListing(r, keys);
    assert [] + Header(r) == Header(r);
    d := h.Sum(digest);
  }

  /** The encoding does not depend on which sorted listing is used: there is only one. */
  lemma EncodeAnyListing(r: Record, keys: seq<GoString>)
    requires IsSortedListing(keys, r.detail.Keys)
    ensures Encode(r) == EncodeWith(r, keys)
  {
    ListingExists(r.detail.Keys);
    var k :| IsSortedListing(k, r.detail.Keys) && Encode(r) == EncodeWith(r, k);
    SortedListingsAgree(k, keys, r.detail.Keys);
  }
}
