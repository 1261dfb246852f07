/** Canonical JSON: NFC text, keys in the order of their UTF-8 bytes, integers only, a depth
    limit. Its values are exactly the fixed points of canonicalisation, and its bytes and its
    values determine each other. NFC itself is a parameter. */
module CanonicalJson {
  import opened Wrappers
  import opened Utf8
  import opened Json

  const MAX_DEPTH := 32

  /** The one property of NFC everything rests on: normal text stays as it is. */
  ghost predicate Normalizer(nfc: Text -> Text) {
    forall t {:trigger nfc(nfc(t))} :: nfc(nfc(t)) == nfc(t)
  }

  // ---------------------------------------------------------------- sorting by key

  predicate Before(a: Member, b: Member) {
    Below(Encode(a.key), Encode(b.key))
  }

  predicate Sorted(ms: seq<Member>) {
    forall i, j | 0 <= i < j < |ms| :: Before(ms[i], ms[j])
  }

  function Insert(m: Member, ms: seq<Member>): seq<Member> {
    if ms == [] then [m]
    else if Before(m, ms[0]) then [m] + ms
    else [ms[0]] + Insert(m, ms[1..])
  }

  function Sort(ms: seq<Member>): seq<Member> {
    if ms == [] then [] else Insert(ms[0], Sort(ms[1..]))
  }

  predicate ScalarKeys(ms: seq<Member>) {
    forall i | 0 <= i < |ms| :: Scalar(ms[i].key)
  }

  lemma {:induction false} InsertKeeps(m: Member, ms: seq<Member>)
    ensures multiset(Insert(m, ms)) == multiset(ms) + multiset{m}
    ensures |Insert(m, ms)| == |ms| + 1
  {
    if ms != [] {
      InsertKeeps(m, ms[1..]);
      assert ms == [ms[0]] + ms[1..];
    }
  }

  lemma {:induction false} SortKeeps(ms: seq<Member>)
    ensures multiset(Sort(ms)) == multiset(ms)
    ensures forall m :: m in Sort(ms) <==> m in ms
  {
    if ms != [] {
      SortKeeps(ms[1..]);
      InsertKeeps(ms[0], Sort(ms[1..]));
      assert ms == [ms[0]] + ms[1..];
    }
    SameMembers(Sort(ms), ms);
  }

  lemma SameMembers(a: seq<Member>, b: seq<Member>)
    requires multiset(a) == multiset(b)
    ensures forall m :: m in a <==> m in b
  {
    forall m ensures m in a <==> m in b {
      assert m in a <==> m in multiset(a);
      assert m in b <==> m in multiset(b);
    }
  }

  lemma {:induction false} InsertSorts(m: Member, ms: seq<Member>)
    requires Sorted(ms) && ScalarKeys(ms) && Scalar(m.key)
    requires forall i | 0 <= i < |ms| :: ms[i].key != m.key
    ensures Sorted(Insert(m, ms))
  {
    hide Below;
    if ms != [] {
      if Before(m, ms[0]) {
        forall i | 1 <= i < |ms| ensures Before(m, ms[i]) {
          BelowTransitive(Encode(m.key), Encode(ms[0].key), Encode(ms[i].key));
        }
      } else {
        InsertSorts(m, ms[1..]);
        InsertKeeps(m, ms[1..]);
        DistinctOrder(m, ms[0]);
        var r := Insert(m, ms[1..]);
        forall j | 0 <= j < |r| ensures Before(ms[0], r[j]) {
          assert r[j] in multiset(r);
          if r[j] != m {
            assert r[j] in multiset(ms[1..]);
          }
        }
      }
    }
  }

  lemma DistinctOrder(a: Member, b: Member)
    requires Scalar(a.key) && Scalar(b.key) && a.key != b.key
    ensures Before(a, b) || Before(b, a)
  {
    BelowTotal(Encode(a.key), Encode(b.key));
    if Encode(a.key) == Encode(b.key) {
      EncodeInjective(a.key, b.key);
    }
  }

  lemma {:induction false} SortSorts(ms: seq<Member>)
    requires DistinctKeys(ms) && ScalarKeys(ms)
    ensures Sorted(Sort(ms)) && ScalarKeys(Sort(ms))
  {
    if ms != [] {
      SortSorts(ms[1..]);
      SortKeeps(ms[1..]);
      forall i | 0 <= i < |Sort(ms[1..])| ensures Sort(ms[1..])[i].key != ms[0].key {
        assert Sort(ms[1..])[i] in ms[1..];
      }
      InsertSorts(ms[0], Sort(ms[1..]));
    }
    SortKeeps(ms);
    forall i | 0 <= i < |Sort(ms)| ensures Scalar(Sort(ms)[i].key) {
      assert Sort(ms)[i] in ms;
    }
  }

  /** Sorting keeps keys distinct, whatever the keys are. */
  lemma SortKeepsDistinct(ms: seq<Member>)
    requires DistinctKeys(ms)
    ensures DistinctKeys(Sort(ms))
  {
    hide Sort;
    var r := Sort(ms);
    SortKeeps(ms);
    forall i, j | 0 <= i < j < |r| ensures r[i].key != r[j].key {
      assert r[i] in ms && r[j] in ms;
      if r[i] == r[j] {
        OnceEach(ms, r[i]);
        TwiceThere(r, i, j);
      }
    }
  }

  lemma TwiceThere(ms: seq<Member>, i: nat, j: nat)
    requires i < j < |ms| && ms[i] == ms[j]
    ensures multiset(ms)[ms[i]] >= 2
  {
    var front, back := ms[..j], ms[j..];
    assert ms == front + back;
    assert front[i] == ms[i] && back[0] == ms[i];
    assert ms[i] in multiset(front) && ms[i] in multiset(back);
  }

  lemma {:induction false} OnceEach(ms: seq<Member>, m: Member)
    requires DistinctKeys(ms)
    ensures multiset(ms)[m] <= 1
  {
    if ms != [] {
      assert ms == [ms[0]] + ms[1..];
      OnceEach(ms[1..], m);
      if ms[0] == m {
        assert m !in ms[1..];
      }
    }
  }

  lemma SortedIsDistinct(ms: seq<Member>)
    requires Sorted(ms)
    ensures DistinctKeys(ms)
  {
    forall i, j | 0 <= i < j < |ms| ensures ms[i].key != ms[j].key {
      BelowTotal(Encode(ms[i].key), Encode(ms[j].key));
    }
  }

  /** Two sorted sequences of the same members are the same sequence. */
  lemma {:induction false} SortedUnique(a: seq<Member>, b: seq<Member>)
    requires Sorted(a) && Sorted(b)
    requires forall m :: m in a <==> m in b
    ensures a == b
  {
    hide Below;
    assert b != [] ==> b[0] in b;
    if a != [] {
      assert a[0] in b;
      assert b[0] in a;
      FirstIsLeast(a, b[0]);
      FirstIsLeast(b, a[0]);
      BelowTotal(Encode(a[0].key), Encode(b[0].key));
      assert a[0] == b[0];
      TailMembers(a, b);
      SortedUnique(a[1..], b[1..]);
      assert a == [a[0]] + a[1..] && b == [b[0]] + b[1..];
    }
  }

  lemma FirstIsLeast(ms: seq<Member>, m: Member)
    requires Sorted(ms) && m in ms
    ensures ms[0] == m || Before(ms[0], m)
  {
  }

  lemma TailMembers(a: seq<Member>, b: seq<Member>)
    requires Sorted(a) && Sorted(b) && a != [] && b != [] && a[0] == b[0]
    requires forall m :: m in a <==> m in b
    ensures forall m :: m in a[1..] <==> m in b[1..]
  {
    SortedIsDistinct(a);
    SortedIsDistinct(b);
    forall m ensures m in a[1..] <==> m in b[1..] {
      assert m in a <==> m in a[1..] || m == a[0];
      assert m in b <==> m in b[1..] || m == b[0];
    }
  }

  // ---------------------------------------------------------------- canonicalisation

  function CanonicalText(nfc: Text -> Text, t: Text): Option<Text> {
    if Scalar(nfc(t)) then Some(nfc(t)) else None
  }

  /** `_canonical_value` with `room` levels left below this one. */
  function Canonical(nfc: Text -> Text, v: Value, room: int): (r: Option<Value>)
    ensures r.Some? ==> Plain(r.value)
    decreases v
  {
    if room < 0 then None
    else
      match v
      case Null => Some(v)
      case Bool(_) => Some(v)
      case Int(_) => Some(v)
      case Str(t) => (
        match CanonicalText(nfc, t)
        case None => None
        case Some(n) => Some(Str(n)))
      case List(items) => (
        match CanonicalItems(nfc, items, room - 1)
        case None => None
        case Some(ns) => Some(List(ns)))
      case Tuple(items) => (
        match CanonicalItems(nfc, items, room - 1)
        case None => None
        case Some(ns) => Some(List(ns)))
      case Dict(ms) => (
        match CanonicalMembers(nfc, ms, room - 1)
        case None => None
        case Some(ns) =>
          if DistinctKeys(ns) then
            SortKeepsDistinct(ns);
            SortKeeps(ns);
            assert forall i | 0 <= i < |Sort(ns)| :: Sort(ns)[i] in ns;
            Some(Dict(Sort(ns)))
          else None)
      case Opaque => None
  }

  function CanonicalItems(nfc: Text -> Text, items: seq<Value>, room: int): (r: Option<seq<Value>>)
    ensures r.Some? ==> forall i | 0 <= i < |r.value| :: Plain(r.value[i])
    decreases items
  {
    if items == [] then Some([])
    else
      match CanonicalItems(nfc, items[..|items| - 1], room)
      case None => None
      case Some(ns) =>
        match Canonical(nfc, items[|items| - 1], room)
        case None => None
        case Some(n) => Some(ns + [n])
  }

  function CanonicalMember(nfc: Text -> Text, m: Member, room: int): (r: Option<Member>)
    ensures r.Some? ==> Plain(r.value.value)
    decreases m
  {
    if room < 0 then None
    else
      match CanonicalText(nfc, m.key)
      case None => None
      case Some(key) =>
        match Canonical(nfc, m.value, room)
        case None => None
        case Some(n) => Some(Member(key, n))
  }

  function CanonicalMembers(nfc: Text -> Text, ms: seq<Member>, room: int): (r: Option<seq<Member>>)
    ensures r.Some? ==> forall i | 0 <= i < |r.value| :: Plain(r.value[i].value)
    decreases ms
  {
    if ms == [] then Some([])
    else
      match CanonicalMembers(nfc, ms[..|ms| - 1], room)
      case None => None
      case Some(ns) =>
        match CanonicalMember(nfc, ms[|ms| - 1], room)
        case None => None
        case Some(n) => Some(ns + [n])
  }

  /** A canonical list is canonical item by item. */
  lemma {:induction false} ItemsAt(nfc: Text -> Text, items: seq<Value>, room: int)
    ensures CanonicalItems(nfc, items, room).Some? <==>
            forall i | 0 <= i < |items| :: Canonical(nfc, items[i], room).Some?
    ensures CanonicalItems(nfc, items, room).Some? ==>
              && |CanonicalItems(nfc, items, room).value| == |items|
              && forall i | 0 <= i < |items| :: Canonical(nfc, items[i], room) == Some(CanonicalItems(nfc, items, room).value[i])
  {
    hide Canonical;
    if items != [] {
      var init := items[..|items| - 1];
      ItemsAt(nfc, init, room);
      assert forall i | 0 <= i < |items| - 1 :: items[i] == init[i];
    }
  }

  lemma {:induction false} MembersAt(nfc: Text -> Text, ms: seq<Member>, room: int)
    ensures CanonicalMembers(nfc, ms, room).Some? <==>
            forall i | 0 <= i < |ms| :: CanonicalMember(nfc, ms[i], room).Some?
    ensures CanonicalMembers(nfc, ms, room).Some? ==>
              && |CanonicalMembers(nfc, ms, room).value| == |ms|
              && forall i | 0 <= i < |ms| :: CanonicalMember(nfc, ms[i], room) == Some(CanonicalMembers(nfc, ms, room).value[i])
  {
    hide CanonicalMember;
    if ms != [] {
      var init := ms[..|ms| - 1];
      MembersAt(nfc, init, room);
      assert forall i | 0 <= i < |ms| - 1 :: ms[i] == init[i];
    }
  }

  lemma ItemsFrom(nfc: Text -> Text, items: seq<Value>, room: int, ns: seq<Value>)
    requires |ns| == |items| && forall i | 0 <= i < |items| :: Canonical(nfc, items[i], room) == Some(ns[i])
    ensures CanonicalItems(nfc, items, room) == Some(ns)
  {
    hide Canonical;
    ItemsAt(nfc, items, room);
    assert CanonicalItems(nfc, items, room).value == ns;
  }

  lemma MembersFrom(nfc: Text -> Text, ms: seq<Member>, room: int, ns: seq<Member>)
    requires |ns| == |ms| && forall i | 0 <= i < |ms| :: CanonicalMember(nfc, ms[i], room) == Some(ns[i])
    ensures CanonicalMembers(nfc, ms, room) == Some(ns)
  {
    hide CanonicalMember;
    MembersAt(nfc, ms, room);
    assert CanonicalMembers(nfc, ms, room).value == ns;
  }

  // ---------------------------------------------------------------- the loops of the source

  /** `_canonical_value`: recursive over values, with a loop over items and over entries. */
  method CanonicalValue(nfc: Text -> Text, v: Value, depth: nat, maxDepth: nat) returns (r: Option<Value>)
    ensures r == Canonical(nfc, v, maxDepth - depth)
    decreases v
  {
    if depth > maxDepth {
      return None;
    }
    match v
    case Null => return Some(v);
    case Bool(_) => return Some(v);
    case Int(_) => return Some(v);
    case Str(t) =>
      var n := nfc(t);
      return if Scalar(n) then Some(Str(n)) else None;
    case List(items) =>
      var ns := CanonicalEach(nfc, items, depth + 1, maxDepth);
      return if ns.Some? then Some(List(ns.value)) else None;
    case Tuple(items) =>
      var ns := CanonicalEach(nfc, items, depth + 1, maxDepth);
      return if ns.Some? then Some(List(ns.value)) else None;
    case Dict(ms) =>
      var ns := CanonicalEntries(nfc, ms, depth + 1, maxDepth);
      return if ns.Some? then Some(Dict(Sort(ns.value))) else None;
    case Opaque => return None;
  }

  /** The loop over the entries of a mapping, which stops at the first repeated key. */
  method CanonicalEntries(nfc: Text -> Text, ms: seq<Member>, depth: nat, maxDepth: nat) returns (r: Option<seq<Member>>)
    ensures var all := CanonicalMembers(nfc, ms, maxDepth - depth);
            r == if all.Some? && DistinctKeys(all.value) then all else None
    decreases ms
  {
    hide Canonical;
    var result: seq<Member> := [];
    var i := 0;
    while i < |ms|
      invariant i <= |ms| && DistinctKeys(result)
      invariant CanonicalMembers(nfc, ms[..i], maxDepth - depth) == Some(result)
    {
      assert ms[..i + 1][..i] == ms[..i];
      MembersPrefix(nfc, ms, i + 1, maxDepth - depth);
      if depth > maxDepth {
        return None;
      }
      var key := nfc(ms[i].key);
      if !Scalar(key) {
        return None;
      }
      if exists k | 0 <= k < |result| :: result[k].key == key {
        RepeatedKey(nfc, ms, i, maxDepth - depth);
        return None;
      }
      var item := CanonicalValue(nfc, ms[i].value, depth, maxDepth);
      if item.None? {
        return None;
      }
      result := result + [Member(key, item.value)];
      i := i + 1;
    }
    assert ms[..i] == ms;
    return Some(result);
  }

  method CanonicalEach(nfc: Text -> Text, items: seq<Value>, depth: nat, maxDepth: nat) returns (r: Option<seq<Value>>)
    ensures r == CanonicalItems(nfc, items, maxDepth - depth)
    decreases items
  {
    var ns: seq<Value> := [];
    for i := 0 to |items|
      invariant CanonicalItems(nfc, items[..i], maxDepth - depth) == Some(ns)
    {
      assert items[..i + 1][..i] == items[..i];
      ItemsPrefix(nfc, items, i + 1, maxDepth - depth);
      var n := CanonicalValue(nfc, items[i], depth, maxDepth);
      if n.None? {
        return None;
      }
      ns := ns + [n.value];
    }
    assert items[..|items|] == items;
    return Some(ns);
  }

  lemma ItemsPrefix(nfc: Text -> Text, items: seq<Value>, k: nat, room: int)
    requires k <= |items|
    ensures CanonicalItems(nfc, items, room).Some? ==> CanonicalItems(nfc, items[..k], room).Some?
  {
    hide Canonical;
    ItemsAt(nfc, items, room);
    ItemsAt(nfc, items[..k], room);
  }

  /** What a prefix of the entries loses, or repeats, the whole does too. */
  lemma MembersPrefix(nfc: Text -> Text, ms: seq<Member>, k: nat, room: int)
    requires k <= |ms|
    ensures CanonicalMembers(nfc, ms, room).Some? ==>
              && CanonicalMembers(nfc, ms[..k], room).Some?
              && CanonicalMembers(nfc, ms[..k], room).value <= CanonicalMembers(nfc, ms, room).value
  {
    hide CanonicalMember;
    MembersAt(nfc, ms, room);
    MembersAt(nfc, ms[..k], room);
  }

  /** A key that repeats an earlier one after normalisation makes the whole mapping fail. */
  lemma RepeatedKey(nfc: Text -> Text, ms: seq<Member>, i: nat, room: int)
    requires i < |ms| && CanonicalMembers(nfc, ms[..i], room).Some?
    requires exists k | 0 <= k < |CanonicalMembers(nfc, ms[..i], room).value| ::
               CanonicalMembers(nfc, ms[..i], room).value[k].key == nfc(ms[i].key)
    ensures CanonicalMembers(nfc, ms, room).Some? ==> !DistinctKeys(CanonicalMembers(nfc, ms, room).value)
  {
    if CanonicalMembers(nfc, ms, room).Some? {
      var ns := CanonicalMembers(nfc, ms, room).value;
      MembersPrefix(nfc, ms, i, room);
      MembersAt(nfc, ms, room);
      MembersAt(nfc, ms[..i], room);
      var k :| 0 <= k < |CanonicalMembers(nfc, ms[..i], room).value|
               && CanonicalMembers(nfc, ms[..i], room).value[k].key == nfc(ms[i].key);
      assert CanonicalMember(nfc, ms[i], room) == Some(ns[i]);
      assert ns[k].key == ns[i].key;
    }
  }

  // ---------------------------------------------------------------- fixed points

  predicate NormalText(nfc: Text -> Text, t: Text) {
    nfc(t) == t && Scalar(t)
  }

  /** The normal forms, described without canonicalising anything. */
  predicate Normal(nfc: Text -> Text, v: Value, room: int)
    decreases v
  {
    room >= 0 &&
    match v
    case Null => true
    case Bool(_) => true
    case Int(_) => true
    case Str(t) => NormalText(nfc, t)
    case List(items) => forall i | 0 <= i < |items| :: Normal(nfc, items[i], room - 1)
    case Tuple(_) => false
    case Dict(ms) =>
      && Sorted(ms)
      && (forall i | 0 <= i < |ms| :: NormalText(nfc, ms[i].key) && Normal(nfc, ms[i].value, room - 1))
    case Opaque => false
  }

  lemma {:induction false} CanonicalIsNormal(nfc: Text -> Text, v: Value, room: int)
    requires Normalizer(nfc) && Canonical(nfc, v, room).Some?
    ensures Normal(nfc, Canonical(nfc, v, room).value, room)
    decreases v
  {
    hide Sorted, Sort, CanonicalItems, CanonicalMembers;
    match v
    case List(items) => CanonicalItemsNormal(nfc, items, room - 1);
    case Tuple(items) => CanonicalItemsNormal(nfc, items, room - 1);
    case Dict(ms) =>
      var ns := CanonicalMembers(nfc, ms, room - 1).value;
      MembersAt(nfc, ms, room - 1);
      forall i | 0 <= i < |ns| ensures NormalText(nfc, ns[i].key) && Normal(nfc, ns[i].value, room - 1) {
        assert CanonicalMember(nfc, ms[i], room - 1).Some?;
        CanonicalIsNormal(nfc, ms[i].value, room - 1);
      }
      SortSorts(ns);
      SortKeeps(ns);
      forall i | 0 <= i < |Sort(ns)| ensures Sort(ns)[i] in ns {
      }
    case _ =>
  }

  lemma {:induction false} CanonicalItemsNormal(nfc: Text -> Text, items: seq<Value>, room: int)
    requires Normalizer(nfc) && CanonicalItems(nfc, items, room).Some?
    ensures forall i | 0 <= i < |CanonicalItems(nfc, items, room).value| ::
              Normal(nfc, CanonicalItems(nfc, items, room).value[i], room)
    decreases items
  {
    hide CanonicalItems, Canonical;
    ItemsAt(nfc, items, room);
    forall i | 0 <= i < |items| ensures Normal(nfc, CanonicalItems(nfc, items, room).value[i], room) {
      CanonicalIsNormal(nfc, items[i], room);
    }
  }

  lemma {:induction false} NormalIsFixed(nfc: Text -> Text, v: Value, room: int)
    requires Normal(nfc, v, room)
    ensures Canonical(nfc, v, room) == Some(v)
    decreases v
  {
    hide Sort, CanonicalItems, CanonicalMembers;
    match v
    case List(items) =>
      forall i | 0 <= i < |items| ensures Canonical(nfc, items[i], room - 1) == Some(items[i]) {
        NormalIsFixed(nfc, items[i], room - 1);
      }
      ItemsFrom(nfc, items, room - 1, items);
    case Dict(ms) =>
      forall i | 0 <= i < |ms| ensures CanonicalMember(nfc, ms[i], room - 1) == Some(ms[i]) {
        NormalIsFixed(nfc, ms[i].value, room - 1);
        NormalHasRoom(nfc, ms[i].value, room - 1);
      }
      MembersFrom(nfc, ms, room - 1, ms);
      SortedIsDistinct(ms);
      SortSorts(ms);
      SortKeeps(ms);
      SortedUnique(Sort(ms), ms);
    case _ =>
  }

  lemma NormalHasRoom(nfc: Text -> Text, v: Value, room: int)
    requires Normal(nfc, v, room)
    ensures room >= 0
  {
  }

  /** The normal forms are exactly the fixed points of canonicalisation. */
  lemma NormalIffFixed(nfc: Text -> Text, v: Value, room: int)
    requires Normalizer(nfc)
    ensures Normal(nfc, v, room) <==> Canonical(nfc, v, room) == Some(v)
  {
    hide Canonical, Normal;
    if Normal(nfc, v, room) {
      NormalIsFixed(nfc, v, room);
    } else if Canonical(nfc, v, room) == Some(v) {
      CanonicalIsNormal(nfc, v, room);
    }
  }

  /** Canonicalising twice is canonicalising once. */
  lemma CanonicalIdempotent(nfc: Text -> Text, v: Value, room: int)
    requires Normalizer(nfc) && Canonical(nfc, v, room).Some?
    ensures Canonical(nfc, Canonical(nfc, v, room).value, room) == Canonical(nfc, v, room)
  {
    hide Canonical, Normal;
    CanonicalIsNormal(nfc, v, room);
    NormalIsFixed(nfc, Canonical(nfc, v, room).value, room);
  }

  /** More room never changes the outcome: what is canonical deep inside is so at the top. */
  lemma {:induction false} MoreRoom(nfc: Text -> Text, v: Value, room: int, more: int)
    requires Canonical(nfc, v, room).Some? && room <= more
    ensures Canonical(nfc, v, more) == Canonical(nfc, v, room)
    decreases v
  {
    hide Sort, CanonicalItems, CanonicalMembers;
    match v
    case List(items) => MoreRoomItems(nfc, items, room - 1, more - 1);
    case Tuple(items) => MoreRoomItems(nfc, items, room - 1, more - 1);
    case Dict(ms) =>
      MembersAt(nfc, ms, room - 1);
      var ns := CanonicalMembers(nfc, ms, room - 1).value;
      forall i | 0 <= i < |ms| ensures CanonicalMember(nfc, ms[i], more - 1) == Some(ns[i]) {
        assert CanonicalMember(nfc, ms[i], room - 1) == Some(ns[i]);
        MoreRoom(nfc, ms[i].value, room - 1, more - 1);
      }
      MembersFrom(nfc, ms, more - 1, ns);
    case _ =>
  }

  lemma {:induction false} MoreRoomItems(nfc: Text -> Text, items: seq<Value>, room: int, more: int)
    requires CanonicalItems(nfc, items, room).Some? && room <= more
    ensures CanonicalItems(nfc, items, more) == CanonicalItems(nfc, items, room)
    decreases items
  {
    hide CanonicalItems, Canonical;
    ItemsAt(nfc, items, room);
    var ns := CanonicalItems(nfc, items, room).value;
    forall i | 0 <= i < |items| ensures Canonical(nfc, items[i], more) == Some(ns[i]) {
      MoreRoom(nfc, items[i], room, more);
    }
    ItemsFrom(nfc, items, more, ns);
  }

  // ---------------------------------------------------------------- decoded values up to key order

  /** The position of a key. */
  predicate HasKey(ms: seq<Member>, key: Text) {
    exists i | 0 <= i < |ms| :: ms[i].key == key
  }

  function Lookup(ms: seq<Member>, key: Text): (v: Value)
    requires HasKey(ms, key)
    ensures Member(key, v) in ms
  {
    if ms[0].key == key then
      assert ms[0] == Member(key, ms[0].value);
      ms[0].value
    else
      assert HasKey(ms[1..], key) by { HasKeyLater(ms, key); }
      assert ms == [ms[0]] + ms[1..];
      Lookup(ms[1..], key)
  }

  lemma HasKeyLater(ms: seq<Member>, key: Text)
    requires HasKey(ms, key) && ms[0].key != key
    ensures HasKey(ms[1..], key)
  {
    var i :| 0 <= i < |ms| && ms[i].key == key;
    assert ms[1..][i - 1].key == key;
  }

  /** `_same_decoded_json`: the same types all the way down, the same items in the same order,
      the same keys in any order, and equal scalars with no folding of text. */
  predicate SameDecoded(a: Value, b: Value)
    decreases a
  {
    match a
    case List(items) =>
      && b.List? && |items| == |b.items|
      && (forall i | 0 <= i < |items| :: SameDecoded(items[i], b.items[i]))
    case Tuple(items) => b == a
    case Dict(ms) =>
      && b.Dict?
      && (forall i | 0 <= i < |b.members| :: HasKey(ms, b.members[i].key))
      && (forall i | 0 <= i < |ms| ::
            HasKey(b.members, ms[i].key) && SameDecoded(ms[i].value, Lookup(b.members, ms[i].key)))
    case _ => b == a
  }

  lemma LookupAt(ms: seq<Member>, j: nat)
    requires DistinctKeys(ms) && j < |ms|
    ensures HasKey(ms, ms[j].key) && Lookup(ms, ms[j].key) == ms[j].value
  {
    var v := Lookup(ms, ms[j].key);
    assert Member(ms[j].key, v) in ms;
  }

  lemma {:induction false} SameDecodedReflexive(v: Value)
    requires Plain(v)
    ensures SameDecoded(v, v)
    decreases v
  {
    hide Lookup;
    match v
    case List(items) =>
      forall i | 0 <= i < |items| ensures SameDecoded(items[i], items[i]) {
        SameDecodedReflexive(items[i]);
      }
    case Dict(ms) =>
      forall i | 0 <= i < |ms| ensures HasKey(ms, ms[i].key) && SameDecoded(ms[i].value, Lookup(ms, ms[i].key)) {
        LookupAt(ms, i);
        SameDecodedReflexive(ms[i].value);
      }
    case _ =>
  }

  /** Every entry of `b` has a partner in `a`: the same key, a value that canonicalises alike. */
  ghost predicate Partnered(nfc: Text -> Text, a: seq<Member>, b: seq<Member>, room: int) {
    forall j | 0 <= j < |b| :: HasPartner(nfc, a, b[j], room)
  }

  ghost predicate HasPartner(nfc: Text -> Text, a: seq<Member>, m: Member, room: int) {
    exists i | 0 <= i < |a| :: a[i].key == m.key && Canonical(nfc, a[i].value, room) == Canonical(nfc, m.value, room)
  }

  lemma PartnersCanonical(nfc: Text -> Text, a: seq<Member>, b: seq<Member>, room: int)
    requires Partnered(nfc, a, b, room) && CanonicalMembers(nfc, a, room).Some?
    ensures CanonicalMembers(nfc, b, room).Some?
    ensures forall m :: m in CanonicalMembers(nfc, b, room).value ==> m in CanonicalMembers(nfc, a, room).value
    ensures DistinctKeys(b) && DistinctKeys(CanonicalMembers(nfc, a, room).value) ==>
              DistinctKeys(CanonicalMembers(nfc, b, room).value)
  {
    hide Canonical, CanonicalMembers;
    MembersAt(nfc, a, room);
    MembersAt(nfc, b, room);
    var na := CanonicalMembers(nfc, a, room).value;
    forall j | 0 <= j < |b|
      ensures CanonicalMember(nfc, b[j], room).Some?
      ensures exists i | 0 <= i < |a| :: a[i].key == b[j].key && CanonicalMember(nfc, b[j], room) == Some(na[i])
    {
      assert HasPartner(nfc, a, b[j], room);
      var i :| 0 <= i < |a| && a[i].key == b[j].key && Canonical(nfc, a[i].value, room) == Canonical(nfc, b[j].value, room);
      assert CanonicalMember(nfc, a[i], room) == Some(na[i]);
    }
    var nb := CanonicalMembers(nfc, b, room).value;
    if DistinctKeys(b) && DistinctKeys(na) {
      forall j, k | 0 <= j < k < |nb| ensures nb[j].key != nb[k].key {
        var i :| 0 <= i < |a| && a[i].key == b[j].key && CanonicalMember(nfc, b[j], room) == Some(na[i]);
        var l :| 0 <= l < |a| && a[l].key == b[k].key && CanonicalMember(nfc, b[k], room) == Some(na[l]);
        assert i != l;
      }
    }
  }

  /** Two mappings that are partnered both ways have one canonical form. */
  lemma PartnersAgree(nfc: Text -> Text, a: seq<Member>, b: seq<Member>, room: int)
    requires DistinctKeys(a) && DistinctKeys(b)
    requires Partnered(nfc, a, b, room) && Partnered(nfc, b, a, room)
    ensures Canonical(nfc, Dict(a), room + 1) == Canonical(nfc, Dict(b), room + 1)
  {
    hide CanonicalMembers, Partnered, Sort;
    if CanonicalMembers(nfc, a, room).Some? || CanonicalMembers(nfc, b, room).Some? {
      if CanonicalMembers(nfc, a, room).Some? {
        PartnersCanonical(nfc, a, b, room);
      }
      PartnersCanonical(nfc, b, a, room);
      PartnersCanonical(nfc, a, b, room);
      var na, nb := CanonicalMembers(nfc, a, room).value, CanonicalMembers(nfc, b, room).value;
      assert forall m :: m in na <==> m in nb;
      if DistinctKeys(na) {
        CanonicalKeysScalar(nfc, a, room);
        CanonicalKeysScalar(nfc, b, room);
        SortSorts(na);
        SortSorts(nb);
        SortKeeps(na);
        SortKeeps(nb);
        SortedUnique(Sort(na), Sort(nb));
      }
    }
  }

  lemma CanonicalKeysScalar(nfc: Text -> Text, ms: seq<Member>, room: int)
    requires CanonicalMembers(nfc, ms, room).Some?
    ensures ScalarKeys(CanonicalMembers(nfc, ms, room).value)
  {
    hide Canonical, CanonicalMembers;
    MembersAt(nfc, ms, room);
    var ns := CanonicalMembers(nfc, ms, room).value;
    forall i | 0 <= i < |ns| ensures Scalar(ns[i].key) {
      assert CanonicalMember(nfc, ms[i], room) == Some(ns[i]);
    }
  }

  /** The order of keys, at any depth, never shows in the canonical form. */
  lemma {:induction false} SameDecodedAgree(nfc: Text -> Text, a: Value, b: Value, room: int)
    requires Plain(a) && Plain(b) && SameDecoded(a, b)
    ensures Canonical(nfc, a, room) == Canonical(nfc, b, room)
    decreases a
  {
    hide CanonicalItems, CanonicalMembers, Lookup, Sort;
    match a
    case List(items) =>
      forall i | 0 <= i < |items| ensures Canonical(nfc, items[i], room - 1) == Canonical(nfc, b.items[i], room - 1) {
        SameDecodedAgree(nfc, items[i], b.items[i], room - 1);
      }
      ItemsAgree(nfc, items, b.items, room - 1);
    case Dict(ms) =>
      var ns := b.members;
      forall i | 0 <= i < |ms|
        ensures HasKey(ns, ms[i].key)
        ensures Canonical(nfc, ms[i].value, room - 1) == Canonical(nfc, Lookup(ns, ms[i].key), room - 1)
      {
        LookupIsPlain(ns, ms[i].key);
        SameDecodedAgree(nfc, ms[i].value, Lookup(ns, ms[i].key), room - 1);
      }
      EntriesAgree(nfc, ms, ns, room - 1);
    case _ =>
  }

  /** Two mappings with the same keys, and values that canonicalise alike key by key. */
  lemma EntriesAgree(nfc: Text -> Text, ms: seq<Member>, ns: seq<Member>, room: int)
    requires DistinctKeys(ms) && DistinctKeys(ns)
    requires forall j | 0 <= j < |ns| :: HasKey(ms, ns[j].key)
    requires forall i | 0 <= i < |ms| ::
               HasKey(ns, ms[i].key) && Canonical(nfc, ms[i].value, room) == Canonical(nfc, Lookup(ns, ms[i].key), room)
    ensures Canonical(nfc, Dict(ms), room + 1) == Canonical(nfc, Dict(ns), room + 1)
  {
    hide Canonical, Lookup;
    forall i | 0 <= i < |ms| ensures HasPartner(nfc, ns, ms[i], room) {
      var j :| 0 <= j < |ns| && ns[j] == Member(ms[i].key, Lookup(ns, ms[i].key));
    }
    forall j | 0 <= j < |ns| ensures HasPartner(nfc, ms, ns[j], room) {
      var i :| 0 <= i < |ms| && ms[i].key == ns[j].key;
      LookupAt(ns, j);
    }
    PartnersAgree(nfc, ms, ns, room);
  }

  lemma LookupIsPlain(ms: seq<Member>, key: Text)
    requires HasKey(ms, key) && forall i | 0 <= i < |ms| :: Plain(ms[i].value)
    ensures Plain(Lookup(ms, key))
  {
    var i :| 0 <= i < |ms| && ms[i] == Member(key, Lookup(ms, key));
  }

  lemma ItemsAgree(nfc: Text -> Text, a: seq<Value>, b: seq<Value>, room: int)
    requires |a| == |b| && forall i | 0 <= i < |a| :: Canonical(nfc, a[i], room) == Canonical(nfc, b[i], room)
    ensures CanonicalItems(nfc, a, room) == CanonicalItems(nfc, b, room)
  {
    hide Canonical;
    ItemsAt(nfc, a, room);
    ItemsAt(nfc, b, room);
    if CanonicalItems(nfc, a, room).Some? {
      ItemsFrom(nfc, b, room, CanonicalItems(nfc, a, room).value);
    }
  }

  /** Comparing canonical forms would miss what the comparison of decoded values sees: text
      that only normalises to the original, and a tuple in place of a list. */
  lemma ReencodingIsNotEnough(nfc: Text -> Text, t: Text, items: seq<Value>, room: nat)
    requires Normalizer(nfc) && Scalar(nfc(t)) && nfc(t) != t
    ensures Canonical(nfc, Str(t), room) == Canonical(nfc, Str(nfc(t)), room)
    ensures !SameDecoded(Str(nfc(t)), Str(t))
    ensures Canonical(nfc, Tuple(items), room) == Canonical(nfc, List(items), room)
    ensures !SameDecoded(List(items), Tuple(items))
  {
    assert nfc(nfc(t)) == nfc(t);
  }

  // ---------------------------------------------------------------- bytes

  /** `canonical_json`. */
  function CanonicalBytes(nfc: Text -> Text, v: Value, maxDepth: int): Option<Bytes> {
    if !(0 <= maxDepth <= MAX_DEPTH) then None
    else
      match Canonical(nfc, v, maxDepth)
      case None => None
      case Some(n) => Some(Encode(Print(n)))
  }

  /** Strict reading: UTF-8, one JSON value, no key twice, integers only. */
  function Read(wire: Bytes): Option<Value> {
    match Decode(wire)
    case None => None
    case Some(text) => Loads(text)
  }

  /** The wires a decoder takes: readable, and canonical byte for byte. */
  predicate Accepts(nfc: Text -> Text, wire: Bytes, maxDepth: int) {
    Read(wire).Some? && CanonicalBytes(nfc, Read(wire).value, maxDepth) == Some(wire)
  }

  lemma ScalarJoin(a: Text, b: Text)
    requires Scalar(a) && Scalar(b)
    ensures Scalar(a + b)
  {
  }

  lemma {:induction false} EscapeIsScalar(t: Text)
    requires Scalar(t)
    ensures Scalar(Escape(t)) && Scalar(Quoted(t))
  {
    if t != [] {
      EscapeIsScalar(t[1..]);
      ScalarJoin(EscapeCode(t[0]), Escape(t[1..]));
    }
    ScalarJoin([QUOTE], Escape(t));
    ScalarJoin([QUOTE] + Escape(t), [QUOTE]);
  }

  lemma {:induction false} DigitsAreScalar(n: nat)
    ensures Scalar(Digits(n))
  {
    DigitsAreDigits(n);
  }

  lemma {:induction false} PrintIsScalar(nfc: Text -> Text, v: Value, room: int)
    requires Normal(nfc, v, room) && Plain(v)
    ensures Scalar(Print(v))
    decreases v, 0
  {
    hide PrintItems, PrintMembers, Sorted, Quoted, Digits;
    match v
    case Int(n) => DigitsAreScalar(if n < 0 then -n else n);
    case Str(t) => EscapeIsScalar(t);
    case List(items) => PrintItemsScalar(nfc, items, room - 1);
    case Dict(ms) => PrintMembersScalar(nfc, ms, room - 1);
    case _ =>
  }

  lemma {:induction false} PrintItemsScalar(nfc: Text -> Text, items: seq<Value>, room: int)
    requires forall i | 0 <= i < |items| :: Normal(nfc, items[i], room) && Plain(items[i])
    ensures Scalar(PrintItems(items))
    decreases items, 1
  {
    hide Print;
    if items != [] {
      PrintIsScalar(nfc, items[0], room);
      PrintItemsScalar(nfc, items[1..], room);
      ScalarJoin(Print(items[0]), [COMMA]);
      ScalarJoin(Print(items[0]) + [COMMA], PrintItems(items[1..]));
    }
  }

  lemma {:induction false} PrintMembersScalar(nfc: Text -> Text, ms: seq<Member>, room: int)
    requires forall i | 0 <= i < |ms| ::
               NormalText(nfc, ms[i].key) && Normal(nfc, ms[i].value, room) && Plain(ms[i].value)
    ensures Scalar(PrintMembers(ms))
    decreases ms, 1
  {
    hide Print, Quoted;
    if ms != [] {
      EscapeIsScalar(ms[0].key);
      PrintIsScalar(nfc, ms[0].value, room);
      PrintMembersScalar(nfc, ms[1..], room);
      ScalarJoin(Quoted(ms[0].key), [COLON]);
      ScalarJoin(Quoted(ms[0].key) + [COLON], Print(ms[0].value));
      ScalarJoin(PrintMember(ms[0]), [COMMA]);
      ScalarJoin(PrintMember(ms[0]) + [COMMA], PrintMembers(ms[1..]));
    }
  }

  /** Reading the canonical bytes of a value gives its normal form, and those bytes are accepted. */
  lemma ReadOfCanonical(nfc: Text -> Text, v: Value, maxDepth: int)
    requires Normalizer(nfc) && CanonicalBytes(nfc, v, maxDepth).Some?
    ensures var wire := CanonicalBytes(nfc, v, maxDepth).value;
            Read(wire) == Canonical(nfc, v, maxDepth) && Accepts(nfc, wire, maxDepth)
  {
    hide Canonical, Normal, Print, Encode, Decode, Loads;
    var n := Canonical(nfc, v, maxDepth).value;
    CanonicalIsNormal(nfc, v, maxDepth);
    PrintIsScalar(nfc, n, maxDepth);
    DecodeOfEncode(Print(n));
    LoadsOfPrint(n);
    CanonicalIdempotent(nfc, v, maxDepth);
  }

  /** Every accepted wire decodes to a normal form: a fixed point of canonicalisation. */
  lemma AcceptedIsNormal(nfc: Text -> Text, wire: Bytes, maxDepth: int)
    requires Normalizer(nfc) && Accepts(nfc, wire, maxDepth)
    ensures Normal(nfc, Read(wire).value, maxDepth)
    ensures Canonical(nfc, Read(wire).value, maxDepth) == Read(wire)
  {
    hide Canonical, Normal, Read;
    var v := Read(wire).value;
    ReadOfCanonical(nfc, v, maxDepth);
    CanonicalIsNormal(nfc, v, maxDepth);
  }

  /** Decoding is a bijection between the accepted wires and the normal forms. */
  lemma AcceptedWiresAreTheNormalForms(nfc: Text -> Text, v: Value, maxDepth: nat)
    requires Normalizer(nfc) && maxDepth <= MAX_DEPTH
    ensures Normal(nfc, v, maxDepth) <==>
            exists wire :: Accepts(nfc, wire, maxDepth) && Read(wire) == Some(v)
    ensures forall w1, w2 | Accepts(nfc, w1, maxDepth) && Accepts(nfc, w2, maxDepth) && Read(w1) == Read(w2) :: w1 == w2
  {
    hide Canonical, Normal, Read;
    if Normal(nfc, v, maxDepth) {
      NormalIsFixed(nfc, v, maxDepth);
      ReadOfCanonical(nfc, v, maxDepth);
      var wire := CanonicalBytes(nfc, v, maxDepth).value;
      assert Accepts(nfc, wire, maxDepth) && Read(wire) == Some(v);
    }
    forall wire | Accepts(nfc, wire, maxDepth) && Read(wire) == Some(v) ensures Normal(nfc, v, maxDepth) {
      AcceptedIsNormal(nfc, wire, maxDepth);
    }
  }

  /** Two values have the same canonical bytes exactly when they have the same normal form. */
  lemma CanonicalBytesInjective(nfc: Text -> Text, a: Value, b: Value, maxDepth: int)
    requires Normalizer(nfc)
    requires CanonicalBytes(nfc, a, maxDepth).Some? && CanonicalBytes(nfc, b, maxDepth).Some?
    ensures CanonicalBytes(nfc, a, maxDepth) == CanonicalBytes(nfc, b, maxDepth) <==>
            Canonical(nfc, a, maxDepth) == Canonical(nfc, b, maxDepth)
  {
    hide Canonical, Normal, Read;
    ReadOfCanonical(nfc, a, maxDepth);
    ReadOfCanonical(nfc, b, maxDepth);
  }
}
