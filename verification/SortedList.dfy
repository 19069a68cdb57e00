/** Sorted collections (pobj.cc) and the option list built on them (option.cc). */
module SortedListModel {

  // ----- names -----

  type Name = seq<char>

  /** `strcmp`; only the sign means anything. */
  function Compare(a: Name, b: Name): int {
    if a == [] then (if b == [] then 0 else -1)
    else if b == [] then 1
    else if a[0] != b[0] then a[0] as int - b[0] as int
    else Compare(a[1..], b[1..])
  }

  predicate Less(a: Name, b: Name) { Compare(a, b) < 0 }

  lemma {:induction false} CompareEqual(a: Name, b: Name)
    ensures Compare(a, b) == 0 <==> a == b
  {
    if a != [] && b != [] && a[0] == b[0] {
      CompareEqual(a[1..], b[1..]);
      assert a == [a[0]] + a[1..] && b == [b[0]] + b[1..];
    }
  }

  lemma {:induction false} CompareFlips(a: Name, b: Name)
    ensures Compare(a, b) == -Compare(b, a)
  {
    if a != [] && b != [] && a[0] == b[0] {
      CompareFlips(a[1..], b[1..]);
    }
  }

  lemma {:induction false} CompareTransitive(a: Name, b: Name, c: Name)
    ensures Compare(a, b) <= 0 && Compare(b, c) <= 0 ==> Compare(a, c) <= 0
    ensures Compare(a, b) <= 0 && Compare(b, c) < 0 ==> Compare(a, c) < 0
    ensures Compare(a, b) < 0 && Compare(b, c) <= 0 ==> Compare(a, c) < 0
  {
    if a != [] && b != [] && c != [] && a[0] == b[0] == c[0] {
      CompareTransitive(a[1..], b[1..], c[1..]);
    }
  }

  /** The names agree in the first `k` characters; then one of them ends, or has the smaller one. */
  predicate LessFrom(a: Name, b: Name, k: int) {
    0 <= k <= |a| && k < |b| && a[..k] == b[..k] && (k == |a| || a[k] < b[k])
  }

  /** The order is the lexicographic one. */
  lemma {:induction false} LessIsLexicographic(a: Name, b: Name)
    ensures Less(a, b) <==> exists k :: LessFrom(a, b, k)
  {
    if a == [] || b == [] || a[0] != b[0] {
      assert Less(a, b) <==> LessFrom(a, b, 0);
      assert forall k :: LessFrom(a, b, k) && k > 0 ==> a[..k][0] == b[..k][0];
    } else {
      LessIsLexicographic(a[1..], b[1..]);
      if k :| LessFrom(a[1..], b[1..], k) {
        LessFromBehind(a, b, k + 1);
        assert LessFrom(a, b, k + 1);
      }
      if k :| LessFrom(a, b, k) {
        assert k > 0;
        LessFromBehind(a, b, k);
        assert LessFrom(a[1..], b[1..], k - 1);
      }
    }
  }

  lemma LessFromBehind(a: Name, b: Name, k: int)
    requires a != [] && b != [] && a[0] == b[0] && k > 0
    ensures LessFrom(a, b, k) <==> LessFrom(a[1..], b[1..], k - 1)
  {
    if k <= |a| && k <= |b| {
      assert a[..k] == [a[0]] + a[1..][..k - 1] && b[..k] == [b[0]] + b[1..][..k - 1];
    }
  }

  // ----- sorted lists -----

  /** An element: an object, its name (the key) and the object that created it. */
  datatype Item = Item(id: int, name: Name, creator: int)

  /** Without duplicates no two names are equal. */
  predicate Before(dup: bool, a: Name, b: Name) { if dup then Compare(a, b) <= 0 else Less(a, b) }

  ghost predicate Sorted(dup: bool, s: seq<Item>) {
    forall i, j :: 0 <= i < j < |s| ==> Before(dup, s[i].name, s[j].name)
  }

  ghost predicate Has(s: seq<Item>, key: Name) {
    exists i :: 0 <= i < |s| && s[i].name == key
  }

  /** `k` is the leftmost place where `key` can go. */
  ghost predicate IsPoint(s: seq<Item>, key: Name, k: int) {
    && 0 <= k <= |s|
    && (forall i :: 0 <= i < k ==> Less(s[i].name, key))
    && (forall i :: k <= i < |s| ==> !Less(s[i].name, key))
  }

  lemma PointIsUnique(s: seq<Item>, key: Name, k: int, k1: int)
    requires IsPoint(s, key, k) && IsPoint(s, key, k1)
    ensures k == k1
  {
    var i := if k < k1 then k else k1;
    assert i < |s| ==> (Less(s[i].name, key) <==> i < k);
    assert i < |s| ==> (Less(s[i].name, key) <==> i < k1);
  }

  function Point(s: seq<Item>, key: Name): (k: int)
    ensures 0 <= k <= |s|
  {
    if s == [] || !Less(s[0].name, key) then 0 else 1 + Point(s[1..], key)
  }

  lemma {:induction false} PointIsPoint(dup: bool, s: seq<Item>, key: Name)
    requires Sorted(dup, s)
    ensures IsPoint(s, key, Point(s, key))
  {
    if s != [] {
      if Less(s[0].name, key) {
        PointIsPoint(dup, s[1..], key);
        var k := Point(s[1..], key);
        assert forall i :: 0 < i < |s| ==> s[i] == s[1..][i - 1];
      } else {
        forall i | 0 <= i < |s| ensures !Less(s[i].name, key) {
          if i > 0 {
            assert Before(dup, s[0].name, s[i].name);
            CompareTransitive(s[0].name, s[i].name, key);
          }
        }
      }
    }
  }

  /** In a sorted list a name is present exactly when it stands at its insertion point. */
  lemma PresentAtPoint(dup: bool, s: seq<Item>, key: Name, k: int)
    requires Sorted(dup, s) && IsPoint(s, key, k)
    ensures Has(s, key) <==> k < |s| && s[k].name == key
  {
    if Has(s, key) {
      var i :| 0 <= i < |s| && s[i].name == key;
      CompareEqual(key, key);
      assert k <= i;
      CompareFlips(s[k].name, key);
      assert k < i ==> Before(dup, s[k].name, s[i].name);
      CompareEqual(s[k].name, key);
    }
  }

  // ----- what one element says about the others -----

  lemma SplitAt(dup: bool, s: seq<Item>, key: Name, k: int)
    requires Sorted(dup, s) && 0 <= k < |s|
    ensures Less(s[k].name, key) ==> forall i :: 0 <= i <= k ==> Less(s[i].name, key)
    ensures !Less(s[k].name, key) ==> forall i :: k <= i < |s| ==> !Less(s[i].name, key)
    ensures Compare(s[k].name, key) > 0 ==> forall i :: k <= i < |s| ==> s[i].name != key
    ensures Compare(s[k].name, key) == 0 <==> s[k].name == key
    ensures !dup && s[k].name == key ==> forall i :: 0 <= i < k ==> Less(s[i].name, key)
  {
    CompareEqual(s[k].name, key);
    forall i | 0 <= i < |s|
      ensures i <= k && Less(s[k].name, key) ==> Less(s[i].name, key)
      ensures k <= i && !Less(s[k].name, key) ==> !Less(s[i].name, key)
      ensures k <= i && Compare(s[k].name, key) > 0 ==> s[i].name != key
      ensures i < k && !dup && s[k].name == key ==> Less(s[i].name, key)
    {
      assert i < k ==> Before(dup, s[i].name, s[k].name);
      assert k < i ==> Before(dup, s[k].name, s[i].name);
      CompareTransitive(s[i].name, s[k].name, key);
      CompareTransitive(s[k].name, s[i].name, key);
      CompareTransitive(key, s[k].name, s[i].name);
      CompareFlips(key, s[k].name);
      CompareFlips(key, s[i].name);
      CompareEqual(s[i].name, key);
    }
  }

  lemma SameNames(s: seq<Item>, name: Name)
    ensures forall i :: 0 <= i < |s| ==> (Compare(name, s[i].name) == 0 <==> s[i].name == name)
  {
    forall i | 0 <= i < |s| ensures Compare(name, s[i].name) == 0 <==> s[i].name == name {
      CompareEqual(name, s[i].name);
    }
  }

  lemma BelowBlock(s: seq<Item>, name: Name, i: int, k: int)
    requires Sorted(true, s) && 0 <= i < k < |s| && s[k].name == name
    ensures s[i].name != name ==> forall j :: 0 <= j <= i ==> s[j].name != name
  {
    forall j | 0 <= j <= i ensures s[j].name == name ==> s[i].name == name {
      assert j < i ==> Before(true, s[j].name, s[i].name);
      assert Before(true, s[i].name, s[k].name);
      CompareFlips(s[i].name, name);
      CompareEqual(s[i].name, name);
    }
  }

  lemma AboveBlock(s: seq<Item>, name: Name, start: int, i: int)
    requires Sorted(true, s) && 0 <= start <= i < |s| && s[start].name == name
    ensures s[i].name != name ==> forall j :: i <= j < |s| ==> s[j].name != name
  {
    forall j | i <= j < |s| ensures s[j].name == name ==> s[i].name == name {
      assert i < j ==> Before(true, s[i].name, s[j].name);
      assert start < i ==> Before(true, s[start].name, s[i].name);
      CompareFlips(s[i].name, name);
      CompareEqual(s[i].name, name);
    }
  }

  // ----- adding and removing -----

  function Insert(s: seq<Item>, k: int, x: Item): seq<Item>
    requires 0 <= k <= |s|
  {
    s[..k] + [x] + s[k..]
  }

  function Remove(s: seq<Item>, k: int): seq<Item>
    requires 0 <= k < |s|
  {
    s[..k] + s[k + 1..]
  }

  ghost function Added(dup: bool, s: seq<Item>, x: Item): seq<Item> {
    if Has(s, x.name) && !dup then s else Insert(s, Point(s, x.name), x)
  }

  lemma AddKeepsSorted(dup: bool, s: seq<Item>, x: Item)
    requires Sorted(dup, s)
    ensures Sorted(dup, Added(dup, s, x))
  {
    var k, t := Point(s, x.name), Added(dup, s, x);
    if t != s {
      PointIsPoint(dup, s, x.name);
      forall i, j | 0 <= i < j < |t|
        ensures Before(dup, t[i].name, t[j].name)
      {
        var i1, j1 := if i < k then i else i - 1, if j < k then j else j - 1;
        if i == k {
          FromPoint(dup, s, x.name, k, j1);
        } else if j == k {
          assert Less(s[i].name, x.name);
        } else {
          assert t[i] == s[i1] && t[j] == s[j1];
        }
      }
    }
  }

  lemma FromPoint(dup: bool, s: seq<Item>, key: Name, k: int, i: int)
    requires IsPoint(s, key, k) && k <= i < |s| && (dup || !Has(s, key))
    ensures Before(dup, key, s[i].name)
  {
    CompareFlips(key, s[i].name);
    CompareEqual(key, s[i].name);
  }

  lemma RemoveKeepsSorted(dup: bool, s: seq<Item>, k: int)
    requires Sorted(dup, s) && 0 <= k < |s|
    ensures Sorted(dup, Remove(s, k))
  {
    var t := Remove(s, k);
    forall i, j | 0 <= i < j < |t|
      ensures Before(dup, t[i].name, t[j].name)
    {
      var i1, j1 := if i < k then i else i + 1, if j < k then j else j + 1;
      assert t[i] == s[i1] && t[j] == s[j1];
    }
  }

  lemma InsertCounts(s: seq<Item>, k: int, x: Item)
    requires 0 <= k <= |s|
    ensures multiset(Insert(s, k, x)) == multiset(s) + multiset{x}
  {
    assert s == s[..k] + s[k..];
  }

  lemma RemoveCounts(s: seq<Item>, k: int)
    requires 0 <= k < |s|
    ensures multiset(Remove(s, k)) + multiset{s[k]} == multiset(s)
  {
    assert s == s[..k] + [s[k]] + s[k + 1..];
  }

  // ----- whole runs -----

  datatype Op = Add(x: Item) | Disconn(index: int)

  /** A bad index ends the program, so it changes nothing more. */
  ghost function Apply(dup: bool, s: seq<Item>, op: Op): seq<Item> {
    match op
    case Add(x) => Added(dup, s, x)
    case Disconn(k) => if 0 <= k < |s| then Remove(s, k) else s
  }

  ghost function Run(dup: bool, s: seq<Item>, ops: seq<Op>): seq<Item> {
    if ops == [] then s else Apply(dup, Run(dup, s, ops[..|ops| - 1]), ops[|ops| - 1])
  }

  /** What one operation puts in, and what it takes out. */
  ghost function Entering(dup: bool, s: seq<Item>, op: Op): multiset<Item> {
    if op.Add? && (dup || !Has(s, op.x.name)) then multiset{op.x} else multiset{}
  }

  ghost function Leaving(s: seq<Item>, op: Op): multiset<Item> {
    if op.Disconn? && 0 <= op.index < |s| then multiset{s[op.index]} else multiset{}
  }

  ghost function Came(dup: bool, s: seq<Item>, ops: seq<Op>): multiset<Item> {
    if ops == [] then multiset{}
    else
      var n := |ops| - 1;
      Came(dup, s, ops[..n]) + Entering(dup, Run(dup, s, ops[..n]), ops[n])
  }

  ghost function Went(dup: bool, s: seq<Item>, ops: seq<Op>): multiset<Item> {
    if ops == [] then multiset{}
    else
      var n := |ops| - 1;
      Went(dup, s, ops[..n]) + Leaving(Run(dup, s, ops[..n]), ops[n])
  }

  lemma ApplyKeepsTheList(dup: bool, s: seq<Item>, op: Op)
    requires Sorted(dup, s)
    ensures Sorted(dup, Apply(dup, s, op))
    ensures multiset(Apply(dup, s, op)) + Leaving(s, op) == multiset(s) + Entering(dup, s, op)
  {
    hide Sorted, Insert, Remove, Has;
    match op {
      case Add(x) =>
        AddKeepsSorted(dup, s, x);
        InsertCounts(s, Point(s, x.name), x);
      case Disconn(k) =>
        if 0 <= k < |s| {
          RemoveKeepsSorted(dup, s, k);
          RemoveCounts(s, k);
        }
    }
  }

  /** Every run keeps the list sorted and loses or invents no element. */
  lemma {:induction false} RunsKeepTheList(dup: bool, s: seq<Item>, ops: seq<Op>)
    requires Sorted(dup, s)
    ensures Sorted(dup, Run(dup, s, ops))
    ensures multiset(Run(dup, s, ops)) + Went(dup, s, ops) == multiset(s) + Came(dup, s, ops)
  {
    hide Sorted, Apply, Entering, Leaving;
    if ops != [] {
      var n := |ops| - 1;
      var before := Run(dup, s, ops[..n]);
      RunsKeepTheList(dup, s, ops[..n]);
      ApplyKeepsTheList(dup, before, ops[n]);
      calc {
        multiset(Run(dup, s, ops)) + Went(dup, s, ops);
        multiset(Run(dup, s, ops)) + Leaving(before, ops[n]) + Went(dup, s, ops[..n]);
        multiset(before) + Entering(dup, before, ops[n]) + Went(dup, s, ops[..n]);
        multiset(s) + Came(dup, s, ops[..n]) + Entering(dup, before, ops[n]);
      }
    }
  }

  // ----- options -----

  predicate Matches(o: Item, name: Name, creator: int) { o.name == name && o.creator == creator }

  /** `k` is the first option with that name and creator. */
  ghost predicate IsFirst(s: seq<Item>, name: Name, creator: int, k: int) {
    && 0 <= k < |s| && Matches(s[k], name, creator)
    && forall i :: 0 <= i < k ==> !Matches(s[i], name, creator)
  }

  ghost predicate Exists(s: seq<Item>, name: Name, creator: int) {
    exists i :: 0 <= i < |s| && Matches(s[i], name, creator)
  }

  function Count(s: seq<Item>, name: Name): nat {
    if s == [] then 0
    else Count(s[..|s| - 1], name) + if s[|s| - 1].name == name then 1 else 0
  }

  /** The count is the number of places that hold the name. */
  lemma {:induction false} CountIsExact(s: seq<Item>, name: Name)
    ensures Count(s, name) == |Places(s, name)|
  {
    if s != [] {
      var n := |s| - 1;
      CountIsExact(s[..n], name);
      assert Places(s, name) == Places(s[..n], name) + if s[n].name == name then {n} else {};
    }
  }

  function Places(s: seq<Item>, name: Name): set<int> { set i | 0 <= i < |s| && s[i].name == name }

  /** Names are counted exactly where they are present. */
  lemma {:induction false} CountIffPresent(s: seq<Item>, name: Name)
    ensures Count(s, name) > 0 <==> Has(s, name)
  {
    if s != [] {
      CountIffPresent(s[..|s| - 1], name);
      if Has(s[..|s| - 1], name) {
        var i :| 0 <= i < |s| - 1 && s[..|s| - 1][i].name == name;
        assert s[i].name == name;
      }
    }
  }

  datatype Lookup = Found(k: int) | NotFound | Exited

  /** The lookup ends the whole program exactly when the name is there, nobody matches, and the name
      stands at the end of the list. */
  ghost predicate LookupExits(s: seq<Item>, name: Name, creator: int) {
    s != [] && s[|s| - 1].name == name && !Exists(s, name, creator)
  }

  /** One option, another creator: the lookup runs off the list. */
  lemma LookupCanExit()
    ensures LookupExits([Item(1, "debug", 7)], "debug", 8)
  {
  }
}

/** The collection as the source keeps it: a growable array of elements. */
module SortedListDevice {
  import opened SortedListModel

  /** How an insertion ends. */
  datatype Adding = Done | Exit | OutOfBounds

  class SortedList {
    var items: array<Item>
    var count: int
    var limit: int
    const delta: int
    const duplicates: bool
    /** The number of pointers in 64 KiB. */
    const maxSize: int

    ghost predicate Valid()
      reads this
    {
      0 <= count <= limit == items.Length && limit <= maxSize
    }

    ghost function Contents(): seq<Item>
      requires Valid()
      reads this, items
    {
      items[..count]
    }

    constructor (alimit: int, adelta: int, dup: bool, max: nat)
      ensures Valid() && Contents() == [] && duplicates == dup && delta == adelta && maxSize == max
      ensures limit == (if alimit < 0 then 0 else if alimit > max then max else alimit)
      ensures fresh(items)
    {
      count, delta, duplicates, maxSize := 0, adelta, dup, max;
      var n := if alimit < 0 then 0 else if alimit > max then max else alimit;
      limit := n;
      items := new Item[n];
    }

    method SetLimit(alimit: int)
      requires Valid()
      modifies this`items, this`limit
      ensures Valid() && Contents() == old(Contents())
      ensures var want := if alimit < count then count else alimit;
        limit == if want > maxSize then maxSize else want
      ensures items == old(items) || fresh(items)
    {
      var n := alimit;
      if n < count {
        n := count;
      }
      if n > maxSize {
        n := maxSize;
      }
      if n != limit {
        var grown := new Item[n];
        forall i | 0 <= i < count {
          grown[i] := items[i];
        }
        items := grown;
        limit := n;
      }
    }

    /** The array is full and cannot grow: it has its maximum size, or Delta is not positive. */
    ghost predicate Stuck()
      reads this
    {
      count == limit && (limit == maxSize || delta <= 0)
    }

    /** Puts an element at a place and moves the rest up.  Out of room, the array grows first.  If it
        cannot, the move writes past it: exactly then, or for an index beyond the list, the behaviour
        is undefined.  A negative index ends the program. */
    method AddAt(index: int, x: Item) returns (r: Adding)
      requires Valid()
      modifies this, items
      ensures Valid() && (items == old(items) || fresh(items))
      ensures r == if index < 0 then Exit
                   else if old(Stuck()) || index > old(count) then OutOfBounds else Done
      ensures Contents() == if r == Done then Insert(old(Contents()), index, x) else old(Contents())
    {
      if index < 0 {
        return Exit;
      }
      if count == limit {
        SetLimit(count + delta);
      }
      if count >= items.Length || index > count {
        return OutOfBounds;
      }
      MoveUp(index, x);
      return Done;
    }

    method MoveUp(index: int, x: Item)
      requires Valid() && 0 <= index <= count < items.Length
      modifies `count, items
      ensures Valid() && Contents() == Insert(old(Contents()), index, x)
    {
      ghost var was := Contents();
      forall i | index <= i < count {
        items[i + 1] := items[i];
      }
      count := count + 1;
      items[index] := x;
      assert Contents() == Insert(was, index, x);
    }

    /** `exited` says that the index was bad, which ends the program. */
    method DisconnAt(index: int) returns (exited: bool)
      requires Valid()
      modifies this, items
      ensures Valid() && items == old(items)
      ensures exited <==> !(0 <= index < old(count))
      ensures Contents() == Apply(duplicates, old(Contents()), Disconn(index))
    {
      exited := index < 0 || index >= count;
      if !exited {
        ghost var was := Contents();
        count := count - 1;
        forall i | index <= i < count {
          items[i] := items[i + 1];
        }
        assert Contents() == Remove(was, index);
      }
    }

    method Search(key: Name) returns (found: bool, index: int)
      requires Valid() && Sorted(duplicates, Contents())
      ensures IsPoint(Contents(), key, index)
      ensures found <==> Has(Contents(), key)
    {
      hide Sorted, Compare;
      ghost var s := Contents();
      var l, h := 0, count - 1;
      found := false;
      while l <= h
        invariant 0 <= l <= h + 1 <= count
        invariant forall i :: 0 <= i < l ==> Less(s[i].name, key)
        invariant forall i :: h < i < count ==> !Less(s[i].name, key)
        invariant found ==> Has(s, key)
        invariant !found ==> forall i :: h < i < count ==> s[i].name != key
      {
        var i := (l + h) / 2;
        var c := Compare(items[i].name, key);
        assert items[i] == s[i];
        SplitAt(duplicates, s, key, i);
        if c < 0 {
          l := i + 1;
        } else {
          h := i - 1;
          if c == 0 {
            found := true;
            if !duplicates {
              l := i;
            }
          }
        }
      }
      index := l;
      if !found {
        CompareEqual(key, key);
      }
    }

    /** Adds at the leftmost place, unless the name is there and duplicates are refused.  With a
        positive Delta this fails only at the maximum size. */
    method Add(x: Item) returns (index: int, r: Adding)
      requires Valid() && Sorted(duplicates, Contents())
      modifies this, items
      ensures Valid() && (items == old(items) || fresh(items))
      ensures Sorted(duplicates, Contents()) && IsPoint(old(Contents()), x.name, index)
      ensures r == OutOfBounds <==> old(Stuck()) && (duplicates || !old(Has(Contents(), x.name)))
      ensures r != Exit
      ensures Contents() == if r == Done then Apply(duplicates, old(Contents()), Op.Add(x)) else old(Contents())
    {
      var found;
      r := Done;
      found, index := Search(x.name);
      PointIsPoint(duplicates, Contents(), x.name);
      PointIsUnique(Contents(), x.name, index, Point(Contents(), x.name));
      AddKeepsSorted(duplicates, Contents(), x);
      if !found || duplicates {
        r := AddAt(index, x);
      }
    }

    /** The first place of the very same element; without duplicates, the place of its name. */
    method IndexOf(x: Item) returns (index: int)
      requires Valid() && Sorted(duplicates, Contents())
      ensures duplicates ==> (index == -1 <==> x !in Contents())
      ensures duplicates && x in Contents() ==>
        0 <= index < count && items[index] == x && x !in Contents()[..index]
      ensures !duplicates ==> (index == -1 <==> !Has(Contents(), x.name))
      ensures !duplicates && Has(Contents(), x.name) ==>
        0 <= index < count && items[index].name == x.name
    {
      var found, i := Search(x.name);
      ghost var s := Contents();
      PresentAtPoint(duplicates, s, x.name, i);
      CompareEqual(x.name, x.name);
      if !found {
        return -1;
      }
      if duplicates {
        while i < count && x != items[i]
          invariant 0 <= i <= count
          invariant forall j :: 0 <= j < i ==> s[j] != x
        {
          i := i + 1;
        }
      }
      index := if i < count then i else -1;
    }

    /** The start of the block of equal names around `k`. */
    method BlockStart(name: Name, k: int) returns (idx: int)
      requires Valid() && Sorted(true, Contents()) && 0 <= k < count && items[k].name == name
      ensures 0 <= idx <= k && items[idx].name == name
      ensures forall j :: 0 <= j < idx ==> items[j].name != name
    {
      ghost var s := Contents();
      SameNames(s, name);
      idx := k;
      if idx > 0 {
        idx := idx - 1;
        while Compare(name, items[idx].name) == 0 && idx > 0
          invariant 0 <= idx < k
          invariant forall j :: idx < j <= k ==> s[j].name == name
        {
          idx := idx - 1;
        }
        assert items[idx] == s[idx];
        BelowBlock(s, name, idx, k);
        if Compare(name, items[idx].name) != 0 {
          idx := idx + 1;
        }
      }
    }

    /** From the start of a block, the first option of one creator. */
    method FirstOf(name: Name, creator: int, start: int) returns (r: Lookup)
      requires Valid() && Sorted(true, Contents()) && 0 <= start < count
      requires forall j :: 0 <= j < start ==> items[j].name != name
      requires items[start].name == name
      ensures r.Found? <==> Exists(Contents(), name, creator)
      ensures r.Found? ==> IsFirst(Contents(), name, creator, r.k)
      ensures r.Exited? <==> LookupExits(Contents(), name, creator)
    {
      ghost var s := Contents();
      assert forall j :: 0 <= j < count ==> s[j] == items[j];
      SameNames(s, name);
      var idx := start;
      while Compare(name, items[idx].name) == 0 && items[idx].creator != creator && idx < count
        invariant start <= idx < count
        invariant forall j :: 0 <= j < idx ==> !Matches(s[j], name, creator)
        invariant forall j :: start <= j < idx ==> s[j].name == name
        decreases count - idx
      {
        idx := idx + 1;
        if idx >= count {
          return Exited;
        }
        if Compare(name, items[idx].name) == 0 && items[idx].creator == creator {
          assert Matches(s[idx], name, creator);
          return Found(idx);
        }
      }
      if Compare(name, items[idx].name) == 0 && items[idx].creator == creator {
        assert Matches(s[idx], name, creator);
        return Found(idx);
      }
      AboveBlock(s, name, start, idx);
      return NotFound;
    }

    /** Finds the option of one creator among the options of one name. */
    method GetOption(name: Name, creator: int) returns (r: Lookup)
      requires Valid() && duplicates && Sorted(true, Contents())
      ensures r.Found? <==> Exists(Contents(), name, creator)
      ensures r.Found? ==> IsFirst(Contents(), name, creator, r.k)
      ensures r.Exited? <==> LookupExits(Contents(), name, creator)
    {
      var found, idx := Search(name);
      ghost var s := Contents();
      PresentAtPoint(true, s, name, idx);
      if !found {
        return NotFound;
      }
      idx := BlockStart(name, idx);
      r := FirstOf(name, creator, idx);
    }

    method NumberOfOptions(name: Name) returns (n: int)
      requires Valid()
      ensures n == Count(Contents(), name)
    {
      n := 0;
      for i := 0 to count
        invariant n == Count(items[..i], name)
      {
        CompareEqual(name, items[i].name);
        assert items[..i + 1][..i] == items[..i];
        if Compare(name, items[i].name) == 0 {
          n := n + 1;
        }
      }
    }
  }
}
