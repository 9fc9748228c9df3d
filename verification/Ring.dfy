/** The order of Go's `sort.Strings`, and sorting by a total order. */
module Ordering {

  /** Lexicographic order on strings: no larger than. */
  predicate StringLe(a: string, b: string) {
    a == [] || (b != [] && (a[0] < b[0] || (a[0] == b[0] && StringLe(a[1..], b[1..]))))
  }

  lemma {:induction false} StringLeTotal(a: string, b: string)
    ensures StringLe(a, b) || StringLe(b, a)
  {
    if a != [] && b != [] && a[0] == b[0] {
      StringLeTotal(a[1..], b[1..]);
    }
  }

  lemma {:induction false} StringLeAntisymmetric(a: string, b: string)
    requires StringLe(a, b) && StringLe(b, a)
    ensures a == b
  {
    if a != [] && b != [] {
      StringLeAntisymmetric(a[1..], b[1..]);
      assert a == [a[0]] + a[1..] && b == [b[0]] + b[1..];
    }
  }

  lemma StringLeCons(c: char, a: string, b: string)
    ensures StringLe([c] + a, [c] + b) <==> StringLe(a, b)
  {
    assert ([c] + a)[1..] == a && ([c] + b)[1..] == b;
  }

  lemma FirstOut(p: string, a: string)
    requires p != []
    ensures p + a == [p[0]] + (p[1..] + a)
  {}

  lemma {:induction false} StringLePrefix(p: string, a: string, b: string)
    ensures StringLe(p + a, p + b) <==> StringLe(a, b)
  {
    if p == [] {
      assert p + a == a && p + b == b;
    } else {
      StringLePrefix(p[1..], a, b);
      StringLeCons(p[0], p[1..] + a, p[1..] + b);
      FirstOut(p, a);
      FirstOut(p, b);
    }
  }

  /** The order is lexicographic: after a common beginning the shorter string, or
      the one with the smaller next character, comes first. */
  lemma StringLeIsLexicographic(p: string, x: char, s: string, y: char, t: string)
    requires x != y
    ensures StringLe(p, p + s)
    ensures StringLe(p + ([x] + s), p + ([y] + t)) <==> x < y
  {
    StringLePrefix(p, [], s);
    assert p + [] == p;
    StringLePrefix(p, [x] + s, [y] + t);
  }

  lemma {:induction false} StringLeTransitive(a: string, b: string, c: string)
    requires StringLe(a, b) && StringLe(b, c)
    ensures StringLe(a, c)
  {
    if a != [] && a[0] == b[0] && b[0] == c[0] {
      StringLeTransitive(a[1..], b[1..], c[1..]);
    }
  }

  ghost predicate TotalOrder<T(!new)>(le: (T, T) -> bool) {
    && (forall a, b :: le(a, b) || le(b, a))
    && (forall a, b, c :: le(a, b) && le(b, c) ==> le(a, c))
  }

  ghost predicate Sorted<T>(le: (T, T) -> bool, s: seq<T>) {
    forall i, j | 0 <= i < j < |s| :: le(s[i], s[j])
  }

  function Insert<T>(le: (T, T) -> bool, x: T, s: seq<T>): seq<T> {
    if s == [] || le(x, s[0]) then [x] + s else [s[0]] + Insert(le, x, s[1..])
  }

  /** Stands for the library sorts: some sorted rearrangement of `s`. */
  function Sort<T>(le: (T, T) -> bool, s: seq<T>): seq<T> {
    if s == [] then [] else Insert(le, s[0], Sort(le, s[1..]))
  }

  lemma SortedCons<T(!new)>(le: (T, T) -> bool, x: T, s: seq<T>)
    requires Sorted(le, s) && forall y | y in s :: le(x, y)
    ensures Sorted(le, [x] + s)
  {
    forall i, j | 0 <= i < j < |[x] + s|
      ensures le(([x] + s)[i], ([x] + s)[j])
    {
      assert ([x] + s)[j] == s[j - 1] && s[j - 1] in s;
    }
  }

  lemma {:induction false} InsertContents<T>(le: (T, T) -> bool, x: T, s: seq<T>, y: T)
    ensures y in Insert(le, x, s) <==> y == x || y in s
  {
    if s != [] && !le(x, s[0]) {
      InsertContents(le, x, s[1..], y);
      assert s == [s[0]] + s[1..];
    }
  }

  lemma {:induction false} InsertSorts<T(!new)>(le: (T, T) -> bool, x: T, s: seq<T>)
    requires TotalOrder(le) && Sorted(le, s)
    ensures Sorted(le, Insert(le, x, s))
  {
    if s == [] {
    } else if le(x, s[0]) {
      forall y | y in s ensures le(x, y) {
        var i :| 0 <= i < |s| && s[i] == y;
        assert i > 0 ==> le(s[0], s[i]);
      }
      SortedCons(le, x, s);
    } else {
      InsertSorts(le, x, s[1..]);
      forall y | y in Insert(le, x, s[1..]) ensures le(s[0], y) {
        InsertContents(le, x, s[1..], y);
        if y != x {
          var i :| 0 < i < |s| && s[i] == y;
          assert le(s[0], s[i]);
        }
      }
      SortedCons(le, s[0], Insert(le, x, s[1..]));
    }
  }

  lemma {:induction false} SortSorts<T(!new)>(le: (T, T) -> bool, s: seq<T>)
    requires TotalOrder(le)
    ensures Sorted(le, Sort(le, s))
  {
    if s != [] {
      SortSorts(le, s[1..]);
      InsertSorts(le, s[0], Sort(le, s[1..]));
    }
  }

  lemma {:induction false} SortContents<T>(le: (T, T) -> bool, s: seq<T>, y: T)
    ensures y in Sort(le, s) <==> y in s
  {
    if s != [] {
      SortContents(le, s[1..], y);
      InsertContents(le, s[0], Sort(le, s[1..]), y);
      assert s == [s[0]] + s[1..];
    }
  }

  lemma StringLeTotalOrder()
    ensures TotalOrder(StringLe)
  {
    forall a, b ensures StringLe(a, b) || StringLe(b, a) { StringLeTotal(a, b); }
    forall a, b, c | StringLe(a, b) && StringLe(b, c) ensures StringLe(a, c) { StringLeTransitive(a, b, c); }
  }
}

/** Consistent hashing of users over helper bots (internal/fleet/ring.go).  The
    hash stays an arbitrary function: nothing below excludes collisions. */
module HashRing {
  import opened Decimal
  import opened Ordering

  type Hash = string -> nat

  predicate PointLe(a: nat, b: nat) {
    a <= b
  }

  function Point(hash: Hash, member: string, vnode: nat): nat {
    hash(Seed(member, vnode))
  }

  function UserKey(hash: Hash, user: string): nat {
    Point(hash, "user:" + user, 0)
  }

  // ----- What ownership means, without the sorted points -----

  /** `p` is one of the points of `member`. */
  ghost predicate HasPoint(hash: Hash, vnodes: nat, member: string, p: nat) {
    exists i: nat | i < vnodes :: Point(hash, member, i) == p
  }

  /** Walking clockwise from `key`, `p` is met no later than `q`. */
  predicate Clockwise(key: nat, p: nat, q: nat) {
    if key <= p then q < key || p <= q else q < key && p <= q
  }

  /** `p` is the first point of any member that is met clockwise from `key`. */
  ghost predicate FirstPoint(hash: Hash, vnodes: nat, members: set<string>, key: nat, p: nat) {
    && (exists m | m in members :: HasPoint(hash, vnodes, m, p))
    && (forall m, q | m in members && HasPoint(hash, vnodes, m, q) :: Clockwise(key, p, q))
  }

  /** `o` is the largest-named member sitting at point `p`. */
  ghost predicate LargestAt(hash: Hash, vnodes: nat, members: set<string>, p: nat, o: string) {
    && o in members && HasPoint(hash, vnodes, o, p)
    && (forall m | m in members && HasPoint(hash, vnodes, m, p) :: StringLe(m, o))
  }

  /** `o` owns `key`: the largest-named member at the first point clockwise. */
  ghost predicate IsOwner(hash: Hash, vnodes: nat, members: set<string>, key: nat, o: string) {
    exists p :: FirstPoint(hash, vnodes, members, key, p) && LargestAt(hash, vnodes, members, p, o)
  }

  /** A ring assigns every key to one member only, so `Assign` is determined by
      the set of members and not by the order in which they were given. */
  lemma OwnerUnique(hash: Hash, vnodes: nat, members: set<string>, key: nat, a: string, b: string)
    requires IsOwner(hash, vnodes, members, key, a) && IsOwner(hash, vnodes, members, key, b)
    ensures a == b
  {
    var p :| FirstPoint(hash, vnodes, members, key, p) && LargestAt(hash, vnodes, members, p, a);
    var q :| FirstPoint(hash, vnodes, members, key, q) && LargestAt(hash, vnodes, members, q, b);
    assert Clockwise(key, p, q) && Clockwise(key, q, p);
    StringLeAntisymmetric(a, b);
  }

  /** Adding a member moves a user only to that member, whatever the hash. */
  lemma AddingDisturbsOnlyForNewcomer(hash: Hash, vnodes: nat, members: set<string>, newcomer: string,
                                      key: nat, before: string, after: string)
    requires IsOwner(hash, vnodes, members, key, before)
    requires IsOwner(hash, vnodes, members + {newcomer}, key, after)
    ensures after == before || after == newcomer
  {
    var p :| FirstPoint(hash, vnodes, members, key, p) && LargestAt(hash, vnodes, members, p, before);
    var grown := members + {newcomer};
    var q :| FirstPoint(hash, vnodes, grown, key, q) && LargestAt(hash, vnodes, grown, q, after);
    if after != newcomer {
      assert after in members;
      assert Clockwise(key, p, q);
      assert before in grown && Clockwise(key, q, p);
      StringLeAntisymmetric(before, after);
    }
  }

  /** Removing a member moves only the users it owned, whatever the hash. */
  lemma RemovingDisturbsOnlyItsUsers(hash: Hash, vnodes: nat, members: set<string>, leaver: string,
                                     key: nat, before: string, after: string)
    requires leaver in members
    requires IsOwner(hash, vnodes, members, key, before)
    requires IsOwner(hash, vnodes, members - {leaver}, key, after)
    ensures after == before || before == leaver
  {
    assert members - {leaver} + {leaver} == members;
    AddingDisturbsOnlyForNewcomer(hash, vnodes, members - {leaver}, leaver, key, after, before);
  }

  /** Go's `sort.Search` for `points[i] >= key`. */
  method Search(points: seq<nat>, key: nat) returns (idx: nat)
    requires Sorted(PointLe, points)
    ensures idx <= |points|
    ensures forall k | 0 <= k < idx :: points[k] < key
    ensures forall k | idx <= k < |points| :: key <= points[k]
  {
    idx := 0;
    var hi := |points|;
    while idx < hi
      invariant 0 <= idx <= hi <= |points|
      invariant forall k | 0 <= k < idx :: points[k] < key
      invariant forall k | hi <= k < |points| :: key <= points[k]
    {
      var mid := (idx + hi) / 2;
      if points[mid] < key {
        forall k | 0 <= k < mid ensures points[k] < key { assert PointLe(points[k], points[mid]); }
        idx := mid + 1;
      } else {
        forall k | mid < k < |points| ensures key <= points[k] { assert PointLe(points[mid], points[k]); }
        hi := mid;
      }
    }
  }

  method SameStrings(a: seq<string>, b: seq<string>) returns (same: bool)
    ensures same <==> a == b
  {
    if |a| != |b| {
      return false;
    }
    for i := 0 to |a|
      invariant a[..i] == b[..i]
    {
      if a[i] != b[i] {
        return false;
      }
    }
    assert a == a[..|a|] && b == b[..|b|];
    return true;
  }

  function SetOf(s: seq<string>): set<string> {
    set m | m in s
  }

  // ----- The same in terms of the hash alone -----

  /** Clockwise distance: on a circle of any size that holds the points, `p` is no
      farther from `key` than `q` is. */
  lemma ClockwiseIsDistance(key: nat, p: nat, q: nat, size: nat)
    requires key < size && p < size && q < size
    ensures Clockwise(key, p, q) <==> (p + size - key) % size <= (q + size - key) % size
  {
    Distance(key, p, size);
    Distance(key, q, size);
  }

  lemma Distance(key: nat, p: nat, size: nat)
    requires key < size && p < size
    ensures (p + size - key) % size == if key <= p then p - key else p + size - key
  {
    if key <= p {
      Modulo(p - key, size);
    }
  }

  lemma Modulo(n: nat, size: nat)
    requires n < size
    ensures (n + size) % size == n
  {}

  /** A user's key is the hash of "user:<id>#0". */
  lemma KeyOfUser(hash: Hash, user: string)
    ensures UserKey(hash, user) == hash("user:" + user + "#0")
  {
    assert Numeral(0) == "0";
    assert ("user:" + user) + "#" + "0" == "user:" + user + "#0";
  }

  /** A member's points are the hashes of "<member>#0", "<member>#1" and so on. */
  lemma PointsOfMember(hash: Hash, vnodes: nat, member: string, p: nat)
    ensures HasPoint(hash, vnodes, member, p) <==> exists i: nat | i < vnodes :: hash(member + "#" + Numeral(i)) == p
  {
    if HasPoint(hash, vnodes, member, p) {
      var i: nat :| i < vnodes && Point(hash, member, i) == p;
      assert hash(member + "#" + Numeral(i)) == p;
    }
    if i: nat :| i < vnodes && hash(member + "#" + Numeral(i)) == p {
      assert Point(hash, member, i) == p;
    }
  }

  /** No point of any member is nearer clockwise from `key` than `p`, and no later
      name than `o` has a point at `p`. */
  ghost predicate NearestAndLargest(hash: Hash, vnodes: nat, members: set<string>, key: nat, p: nat, o: string) {
    forall m, i: nat | m in members && i < vnodes ::
      var q := hash(m + "#" + Numeral(i)); Clockwise(key, p, q) && (q == p ==> StringLe(m, o))
  }

  /** `o` owns the user: one of its points is the first one clockwise from the hash
      of "user:<id>#0", and no later name has a point there. */
  ghost predicate Owns(hash: Hash, vnodes: nat, members: set<string>, user: string, o: string) {
    && o in members
    && exists k: nat | k < vnodes ::
         NearestAndLargest(hash, vnodes, members, hash("user:" + user + "#0"), hash(o + "#" + Numeral(k)), o)
  }

  lemma NoneNearer(hash: Hash, vnodes: nat, members: set<string>, key: nat, p: nat, o: string, m: string, i: nat)
    requires FirstPoint(hash, vnodes, members, key, p) && LargestAt(hash, vnodes, members, p, o)
    requires m in members && i < vnodes
    ensures var q := hash(m + "#" + Numeral(i)); Clockwise(key, p, q) && (q == p ==> StringLe(m, o))
  {
    assert Point(hash, m, i) == hash(m + "#" + Numeral(i));
    assert HasPoint(hash, vnodes, m, Point(hash, m, i));
  }

  lemma FirstIsNearest(hash: Hash, vnodes: nat, members: set<string>, key: nat, p: nat, o: string)
    requires FirstPoint(hash, vnodes, members, key, p) && LargestAt(hash, vnodes, members, p, o)
    ensures NearestAndLargest(hash, vnodes, members, key, p, o)
  {
    forall m, i: nat | m in members && i < vnodes
      ensures var q := hash(m + "#" + Numeral(i)); Clockwise(key, p, q) && (q == p ==> StringLe(m, o))
    {
      NoneNearer(hash, vnodes, members, key, p, o, m, i);
    }
  }

  lemma OwnerOwns(hash: Hash, vnodes: nat, members: set<string>, user: string, o: string)
    requires IsOwner(hash, vnodes, members, UserKey(hash, user), o)
    ensures Owns(hash, vnodes, members, user, o)
  {
    var key := UserKey(hash, user);
    var p :| FirstPoint(hash, vnodes, members, key, p) && LargestAt(hash, vnodes, members, p, o);
    KeyOfUser(hash, user);
    PointsOfMember(hash, vnodes, o, p);
    FirstIsNearest(hash, vnodes, members, key, p, o);
    var k: nat :| k < vnodes && hash(o + "#" + Numeral(k)) == p;
    assert NearestAndLargest(hash, vnodes, members, hash("user:" + user + "#0"), hash(o + "#" + Numeral(k)), o);
  }

  /** The user decides: for any two users some hash gives them different owners. */
  lemma UsersAreTold(u: string, v: string) returns (hash: Hash)
    requires u != v
    ensures IsOwner(hash, 1, {"a", "b"}, UserKey(hash, u), "a")
    ensures IsOwner(hash, 1, {"a", "b"}, UserKey(hash, v), "b")
  {
    hash := s => if s == "user:" + u + "#0" then 1 else if s == "a#0" then 2
                 else if s == "user:" + v + "#0" then 3 else 4;
    KeyOfUser(hash, u);
    KeyOfUser(hash, v);
    assert "user:" + u + "#0" != "user:" + v + "#0" by {
      if "user:" + u + "#0" == "user:" + v + "#0" { SameUser(u, v); }
    }
    assert Numeral(0) == "0";
    assert "a" + "#" + "0" == "a#0" && "b" + "#" + "0" == "b#0";
    assert ("user:" + u + "#0")[0] == 'u' && ("user:" + v + "#0")[0] == 'u';
    assert "a#0"[0] == 'a' && "b#0"[0] == 'b';
    assert Point(hash, "a", 0) == 2 && Point(hash, "b", 0) == 4;
    assert forall p :: HasPoint(hash, 1, "a", p) <==> p == 2;
    assert forall p :: HasPoint(hash, 1, "b", p) <==> p == 4;
    OwnerAt(hash, UserKey(hash, u), 2, "a");
    OwnerAt(hash, UserKey(hash, v), 4, "b");
  }

  lemma SameUser(u: string, v: string)
    requires "user:" + u + "#0" == "user:" + v + "#0"
    ensures u == v
  {
    assert ("user:" + u + "#0")[5..5 + |u|] == u;
    assert ("user:" + v + "#0")[5..5 + |v|] == v;
  }

  lemma OwnerAt(hash: Hash, key: nat, p: nat, o: string)
    requires forall q :: HasPoint(hash, 1, "a", q) <==> q == 2
    requires forall q :: HasPoint(hash, 1, "b", q) <==> q == 4
    requires (key == 1 && p == 2 && o == "a") || (key == 3 && p == 4 && o == "b")
    ensures IsOwner(hash, 1, {"a", "b"}, key, o)
  {
    StringLeTotal("a", "a");
    StringLeTotal("b", "b");
    assert HasPoint(hash, 1, o, p);
    assert FirstPoint(hash, 1, {"a", "b"}, key, p) && LargestAt(hash, 1, {"a", "b"}, p, o);
  }

  // ----- Building the ring -----

  lemma SortedNames(input: seq<string>)
    ensures Sorted(StringLe, Sort(StringLe, input)) && SetOf(Sort(StringLe, input)) == SetOf(input)
  {
    StringLeTotalOrder();
    SortSorts(StringLe, input);
    forall m ensures m in Sort(StringLe, input) <==> m in input { SortContents(StringLe, input, m); }
  }

  lemma SortedPoints(points: seq<nat>)
    ensures Sorted(PointLe, Sort(PointLe, points))
    ensures forall p :: p in Sort(PointLe, points) <==> p in points
  {
    SortSorts(PointLe, points);
    forall p ensures p in Sort(PointLe, points) <==> p in points { SortContents(PointLe, points, p); }
  }

  /** `m` has point `p` among the first `k` members and the first `i` points of member `k`. */
  ghost predicate Seen(hash: Hash, vnodes: nat, members: seq<string>, k: nat, i: nat, m: string, p: nat)
    requires k <= |members|
  {
    || (m in members[..k] && HasPoint(hash, vnodes, m, p))
    || (k < |members| && m == members[k] && HasPoint(hash, i, m, p))
  }

  /** The points placed so far are the points seen so far, each owned by the
      largest-named member that has it. */
  ghost predicate Placed(hash: Hash, vnodes: nat, members: seq<string>, k: nat, i: nat,
                         points: seq<nat>, owners: map<nat, string>)
    requires k <= |members|
  {
    && (forall p :: p in points <==> p in owners)
    && (forall m, p | Seen(hash, vnodes, members, k, i, m, p) :: p in owners && StringLe(m, owners[p]))
    && (forall p | p in owners :: Seen(hash, vnodes, members, k, i, owners[p], p))
  }

  /** Members come in ascending order, so the last writer of a point is its largest-named member. */
  lemma PlacePoint(hash: Hash, vnodes: nat, members: seq<string>, k: nat, i: nat, next: nat,
                   points: seq<nat>, owners: map<nat, string>)
    requires k < |members| && Sorted(StringLe, members) && next == i + 1
    requires Placed(hash, vnodes, members, k, i, points, owners)
    ensures var point := Point(hash, members[k], i);
            Placed(hash, vnodes, members, k, next, points + [point], owners[point := members[k]])
  {
    var point := Point(hash, members[k], i);
    var owners' := owners[point := members[k]];
    assert forall p :: p in points + [point] <==> p in owners';
    StringLeTotal(members[k], members[k]);
    assert HasPoint(hash, next, members[k], point);
    forall m, p | Seen(hash, vnodes, members, k, next, m, p)
      ensures p in owners' && StringLe(m, owners'[p])
    {
      if p != point {
        assert Seen(hash, vnodes, members, k, i, m, p);
      } else if m in members[..k] {
        var j :| 0 <= j < k && members[j] == m;
        assert StringLe(members[j], members[k]);
      }
    }
    forall p | p in owners'
      ensures Seen(hash, vnodes, members, k, next, owners'[p], p)
    {
      if p != point {
        assert Seen(hash, vnodes, members, k, i, owners[p], p);
        if owners[p] !in members[..k] {
          var v: nat :| v < i && Point(hash, owners[p], v) == p;
          assert v < next;
        }
      }
    }
  }

  lemma NextMember(hash: Hash, vnodes: nat, members: seq<string>, k: nat, next: nat,
                   points: seq<nat>, owners: map<nat, string>)
    requires k < |members| && next == k + 1
    requires Placed(hash, vnodes, members, k, vnodes, points, owners)
    ensures Placed(hash, vnodes, members, next, 0, points, owners)
  {
    assert members[..next] == members[..k] + [members[k]];
    forall m, p
      ensures Seen(hash, vnodes, members, next, 0, m, p) <==> Seen(hash, vnodes, members, k, vnodes, m, p)
    {}
  }

  lemma AllPlaced(hash: Hash, vnodes: nat, members: seq<string>, points: seq<nat>, owners: map<nat, string>)
    requires Placed(hash, vnodes, members, |members|, 0, points, owners)
    ensures forall m, p | m in members && HasPoint(hash, vnodes, m, p) :: p in owners
    ensures forall p | p in owners :: LargestAt(hash, vnodes, SetOf(members), p, owners[p])
  {
    assert members[..|members|] == members;
    forall m, p | m in members && HasPoint(hash, vnodes, m, p)
      ensures p in owners && StringLe(m, owners[p])
    {
      assert Seen(hash, vnodes, members, |members|, 0, m, p);
    }
    forall p | p in owners
      ensures LargestAt(hash, vnodes, SetOf(members), p, owners[p])
    {
      assert Seen(hash, vnodes, members, |members|, 0, owners[p], p);
    }
  }

  /** The rebuilding loops of `Set`: every virtual node of every member is
      appended and takes over its point. */
  method PlaceAll(hash: Hash, vnodes: nat, members: seq<string>) returns (points: seq<nat>, owners: map<nat, string>)
    requires Sorted(StringLe, members)
    ensures forall p :: p in points <==> p in owners
    ensures forall m, p | m in members && HasPoint(hash, vnodes, m, p) :: p in owners
    ensures forall p | p in owners :: LargestAt(hash, vnodes, SetOf(members), p, owners[p])
  {
    points, owners := [], map[];
    var k := 0;
    while k < |members|
      invariant 0 <= k <= |members|
      invariant Placed(hash, vnodes, members, k, 0, points, owners)
    {
      var i := 0;
      while i < vnodes
        invariant 0 <= i <= vnodes
        invariant Placed(hash, vnodes, members, k, i, points, owners)
      {
        PlacePoint(hash, vnodes, members, k, i, i + 1, points, owners);
        var point := Point(hash, members[k], i);
        points := points + [point];
        owners := owners[point := members[k]];
        i := i + 1;
      }
      NextMember(hash, vnodes, members, k, k + 1, points, owners);
      k := k + 1;
    }
    AllPlaced(hash, vnodes, members, points, owners);
  }

  /** The point the search stops at, or the lowest one after wrapping around, is
      met first among all points. */
  lemma FoundIsFirst(points: seq<nat>, key: nat, idx: nat, k: nat)
    requires Sorted(PointLe, points) && idx <= |points| && k < |points|
    requires forall j | 0 <= j < idx :: points[j] < key
    requires forall j | idx <= j < |points| :: key <= points[j]
    ensures Clockwise(key, points[if idx == |points| then 0 else idx], points[k])
  {
    var i := if idx == |points| then 0 else idx;
    if i < k { assert PointLe(points[i], points[k]); }
  }

  class Ring {
    const hash: Hash
    const vnodes: nat
    var points: seq<nat>
    var owners: map<nat, string>
    var members: seq<string>

    /** The points are exactly the members' points, in order, and each is owned
        by its largest-named member. */
    ghost predicate Valid()
      reads this
    {
      && vnodes >= 1
      && Sorted(PointLe, points)
      && (forall p :: p in points <==> p in owners)
      && (forall m, p | m in members && HasPoint(hash, vnodes, m, p) :: p in owners)
      && (forall p | p in owners :: LargestAt(hash, vnodes, SetOf(members), p, owners[p]))
    }

    constructor (hash: Hash, vnodes: int)
      ensures Valid() && members == []
      ensures this.hash == hash && this.vnodes == if vnodes < 1 then 160 else vnodes
    {
      this.hash := hash;
      this.vnodes := if vnodes < 1 then 160 else vnodes;
      points, owners, members := [], map[], [];
    }

    /** Replaces the membership.  Only the set of names matters: their order and
        repetitions do not show in the resulting ring. */
    method Set(input: seq<string>)
      requires Valid()
      modifies this
      ensures Valid() && SetOf(members) == SetOf(input)
    {
      SortedNames(input);
      var sorted := Sort(StringLe, input);
      var same := SameStrings(sorted, members);
      if same {
        return;
      }
      members := sorted;
      points, owners := PlaceAll(hash, vnodes, sorted);
      SortedPoints(points);
      points := Sort(PointLe, points);
    }

    /** The owner of a user, or the empty string for an empty ring. */
    method Assign(user: string) returns (owner: string)
      requires Valid()
      ensures members == [] ==> owner == ""
      ensures members != [] ==> IsOwner(hash, vnodes, SetOf(members), UserKey(hash, user), owner)
      ensures members != [] ==> Owns(hash, vnodes, SetOf(members), user, owner)
    {
      if members != [] {
        assert HasPoint(hash, vnodes, members[0], Point(hash, members[0], 0));
      }
      if |points| == 0 {
        return "";
      }
      var key := UserKey(hash, user);
      var found := Search(points, key);
      var idx := if found == |points| then 0 else found;
      var p := points[idx];
      owner := owners[p];
      forall m, q | m in SetOf(members) && HasPoint(hash, vnodes, m, q)
        ensures Clockwise(key, p, q)
      {
        assert q in points;
        var k :| 0 <= k < |points| && points[k] == q;
        FoundIsFirst(points, key, found, k);
      }
      assert p in owners && LargestAt(hash, vnodes, SetOf(members), p, owner);
      assert FirstPoint(hash, vnodes, SetOf(members), key, p);
      OwnerOwns(hash, vnodes, SetOf(members), user, owner);
    }
  }
}
