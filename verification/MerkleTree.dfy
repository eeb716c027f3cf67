/**
 The approved-recipient tree, for any depth and any hash. `BuildMerkleTree` fills it level by level
 and `PathFor` climbs it; the lemmas say what this proves to somebody who holds only the root.
 */
module MerkleTree {
  import opened Common

  const MERKLE_DEPTH: nat := 3
  const UINT64_MAX: nat := 18_446_744_073_709_551_615

  datatype Account = Account(shard: nat, realm: nat, num: nat)

  // What a configured recipient string parses to.
  datatype Recipient = Numeric(account: Account) | Malformed

  datatype WitnessError = RequestInvalid | RecipientNotApproved

  datatype Result<+T> = Ok(value: T) | Err(error: WitnessError)

  // The three ways the tree hashes: an account, an unused slot, two children.
  datatype Hasher<!D(==)> = Hasher(leaf: Account -> D, empty: D, node: (D, D) -> D)

  predicate LeavesDiffer<D(==)>(h: Hasher<D>, a: Account, b: Account)
  {
    (h.leaf(a) == h.leaf(b) ==> a == b) && h.leaf(a) != h.empty
  }

  predicate NodesDiffer<D(==)>(h: Hasher<D>, a: D, b: D, c: D, d: D)
  {
    (h.node(a, b) == h.node(c, d) ==> a == c && b == d) && h.node(a, b) != h.empty
  }

  predicate LeafIsNoNode<D(==)>(h: Hasher<D>, a: Account, c: D, d: D) { h.leaf(a) != h.node(c, d) }

  ghost predicate CollisionFree<D(!new)>(h: Hasher<D>)
  {
    && (forall a, b :: LeavesDiffer(h, a, b)) && (forall a, b, c, d :: NodesDiffer(h, a, b, c, d))
    && (forall a, c, d :: LeafIsNoNode(h, a, c, d))
  }

  lemma LeafNeverNode<D(!new)>(h: Hasher<D>, a: Account, c: D, d: D)
    requires CollisionFree(h)
    ensures h.leaf(a) != h.node(c, d)
  {
    assert LeafIsNoNode(h, a, c, d);
  }

  function Pow2(n: nat): (p: nat)
    ensures p > 0
  {
    if n == 0 then 1 else 2 * Pow2(n - 1)
  }

  // --- accounts in order --------------------------------------------------------------------------------

  predicate Less(a: Account, b: Account)
  {
    a.shard < b.shard || (a.shard == b.shard && (a.realm < b.realm || (a.realm == b.realm && a.num < b.num)))
  }

  predicate FitsUint64(a: Account) { a.shard <= UINT64_MAX && a.realm <= UINT64_MAX && a.num <= UINT64_MAX }

  function Parts(a: Account): seq<nat> { [a.shard, a.realm, a.num] }

  /** The first differing component decides. */
  method CompareAccounts(left: Account, right: Account) returns (r: int)
    ensures r < 0 <==> Less(left, right)
    ensures r == 0 <==> left == right
    ensures r > 0 <==> Less(right, left)
  {
    var a, b := Parts(left), Parts(right);
    var index := 0;
    while index < 3
      invariant 0 <= index <= 3 && forall i :: 0 <= i < index ==> a[i] == b[i]
    {
      if a[index] != b[index] {
        assert index > 0 ==> a[0] == b[0];
        assert index > 1 ==> a[1] == b[1];
        return if a[index] < b[index] then -1 else 1;
      }
      index := index + 1;
    }
    assert a[0] == b[0] && a[1] == b[1] && a[2] == b[2];
    return 0;
  }

  function Insert(a: Account, s: seq<Account>): (r: seq<Account>)
    ensures multiset(r) == multiset(s) + multiset{a}
  {
    if s == [] then [a]
    else if !Less(s[0], a) then [a] + s
    else
      assert s == [s[0]] + s[1..];
      [s[0]] + Insert(a, s[1..])
  }

  lemma {:induction false} InsertKeepsOrder(a: Account, s: seq<Account>)
    requires Ascending(s)
    ensures Ascending(Insert(a, s))
  {
    if s != [] && Less(s[0], a) {
      var rest := Insert(a, s[1..]);
      InsertKeepsOrder(a, s[1..]);
      forall j | 0 <= j < |rest| ensures !Less(rest[j], s[0]) {
        assert rest[j] in multiset(rest);
        if rest[j] != a { assert rest[j] in s[1..]; }
      }
    }
  }

  ghost predicate Ascending(s: seq<Account>)
  {
    forall i, j :: 0 <= i < j < |s| ==> !Less(s[j], s[i])
  }

  /** The accounts in ascending order, equal ones side by side. */
  function Sort(s: seq<Account>): (r: seq<Account>)
    ensures multiset(r) == multiset(s) && Ascending(r) && |r| == |s|
  {
    if s == [] then []
    else
      assert s == [s[0]] + s[1..];
      InsertKeepsOrder(s[0], Sort(s[1..]));
      var r := Insert(s[0], Sort(s[1..]));
      assert |multiset(r)| == |multiset(s)|;
      r
  }

  ghost predicate Increasing(s: seq<Account>)
  {
    forall i, j :: 0 <= i < j < |s| ==> Less(s[i], s[j])
  }

  /** One set of accounts has one increasing listing. */
  lemma {:induction false} IncreasingIsUnique(a: seq<Account>, b: seq<Account>)
    requires Increasing(a) && Increasing(b) && forall x :: x in a <==> x in b
    ensures a == b
  {
    if b != [] { assert b[0] in a; }
    if a != [] {
      assert a[0] in b && b != [] && b[0] in a;
      assert a[0] == b[0];
      forall x ensures x in a[1..] <==> x in b[1..] {
        assert x in a <==> x == a[0] || x in a[1..];
        assert x in b <==> x == b[0] || x in b[1..];
        if x in a[1..] { var i :| 1 <= i < |a| && a[i] == x; assert Less(a[0], a[i]); }
        if x in b[1..] { var i :| 1 <= i < |b| && b[i] == x; assert Less(b[0], b[i]); }
      }
      IncreasingIsUnique(a[1..], b[1..]);
    }
  }

  // --- the tree ---------------------------------------------------------------------------------------------

  /** The i-th value k levels above 2^n leaves: two neighbours hashed together, level by level. */
  function NodeAt<D>(h: Hasher<D>, leaves: seq<D>, n: nat, k: nat, i: nat): D
    requires |leaves| == Pow2(n) && k <= n && i < Pow2(n - k)
  {
    if k == 0 then leaves[i] else h.node(NodeAt(h, leaves, n, k - 1, 2 * i), NodeAt(h, leaves, n, k - 1, 2 * i + 1))
  }

  function Root<D>(h: Hasher<D>, leaves: seq<D>, n: nat): D
    requires |leaves| == Pow2(n)
  {
    NodeAt(h, leaves, n, n, 0)
  }

  function Leaves<D>(h: Hasher<D>, accounts: seq<Account>, n: nat): (r: seq<D>)
    requires |accounts| <= Pow2(n)
    ensures |r| == Pow2(n)
  {
    seq(Pow2(n), i requires 0 <= i < Pow2(n) => if i < |accounts| then h.leaf(accounts[i]) else h.empty)
  }

  // --- paths --------------------------------------------------------------------------------------------------

  datatype Path<+D> = Path(elements: seq<D>, indices: seq<nat>)

  function Sibling(index: nat): nat { if index % 2 == 0 then index + 1 else index - 1 }

  /** What a verifier computes from a leaf and the first k steps of a path. */
  function Fold<D>(h: Hasher<D>, leaf: D, p: Path<D>, k: nat): D
    requires k <= |p.elements| && k <= |p.indices|
  {
    if k == 0 then leaf
    else
      var below := Fold(h, leaf, p, k - 1);
      if p.indices[k - 1] == 0 then h.node(below, p.elements[k - 1]) else h.node(p.elements[k - 1], below)
  }

  // The path of position i: at each level its sibling, and on which side it stands.
  ghost predicate IsPathOf<D>(h: Hasher<D>, leaves: seq<D>, n: nat, i: nat, p: Path<D>)
    requires |leaves| == Pow2(n) && i < Pow2(n)
  {
    |p.elements| == n && |p.indices| == n && forall k :: 0 <= k < n ==> IsStepOf(h, leaves, n, i, p, k)
  }

  // The position, k levels up, of what stands over position i.
  function Above(i: nat, k: nat): nat { if k == 0 then i else Above(i, k - 1) / 2 }

  lemma {:induction false} AboveFits(n: nat, i: nat, k: nat)
    requires i < Pow2(n) && k <= n
    ensures Above(i, k) < Pow2(n - k)
  {
    if k > 0 { AboveFits(n, i, k - 1); }
  }

  ghost predicate HoldsStep<D>(h: Hasher<D>, leaves: seq<D>, n: nat, i: nat, k: nat, element: D, index: nat)
    requires |leaves| == Pow2(n) && k < n
  {
    var at := Above(i, k);
    Sibling(at) < Pow2(n - k) && element == NodeAt(h, leaves, n, k, Sibling(at)) && index == at % 2
  }

  ghost predicate IsStepOf<D>(h: Hasher<D>, leaves: seq<D>, n: nat, i: nat, p: Path<D>, k: nat)
    requires |leaves| == Pow2(n) && i < Pow2(n) && |p.elements| == n && |p.indices| == n && k < n
  {
    HoldsStep(h, leaves, n, i, k, p.elements[k], p.indices[k])
  }

  /** A leaf's own path leads from it to the root, whatever the hash. */
  lemma {:induction false} MemberFolds<D>(h: Hasher<D>, leaves: seq<D>, n: nat, i: nat, p: Path<D>, k: nat)
    requires |leaves| == Pow2(n) && i < Pow2(n) && IsPathOf(h, leaves, n, i, p) && k <= n
    ensures Above(i, k) < Pow2(n - k) && Fold(h, leaves[i], p, k) == NodeAt(h, leaves, n, k, Above(i, k))
    decreases k
  {
    AboveFits(n, i, k);
    if k > 0 {
      MemberFolds(h, leaves, n, i, p, k - 1);
      assert IsStepOf(h, leaves, n, i, p, k - 1);
    }
  }

  /** With a collision-free hash, whatever folds to a node of the tree is one of the values below it. */
  lemma {:induction false} FoldsOnlyFromBelow<D(!new)>(h: Hasher<D>, leaves: seq<D>, n: nat, leaf: D, p: Path<D>, k: nat, i: nat)
    requires CollisionFree(h) && |leaves| == Pow2(n) && k <= n && i < Pow2(n - k)
    requires k <= |p.elements| && k <= |p.indices| && Fold(h, leaf, p, k) == NodeAt(h, leaves, n, k, i)
    ensures exists j :: 0 <= j < |leaves| && leaves[j] == leaf
    decreases k
  {
    if k == 0 {
      assert leaves[i] == leaf;
    } else {
      var below, e := Fold(h, leaf, p, k - 1), p.elements[k - 1];
      var left, right := NodeAt(h, leaves, n, k - 1, 2 * i), NodeAt(h, leaves, n, k - 1, 2 * i + 1);
      assert NodesDiffer(h, below, e, left, right) && NodesDiffer(h, e, below, left, right);
      FoldsOnlyFromBelow(h, leaves, n, leaf, p, k - 1, if p.indices[k - 1] == 0 then 2 * i else 2 * i + 1);
    }
  }

  // A fold of k steps has another fold in front of its last steps.
  function Skip<D>(p: Path<D>, k: nat): Path<D>
    requires k <= |p.elements| && k <= |p.indices|
  {
    Path(p.elements[k..], p.indices[k..])
  }

  lemma {:induction false} FoldSplits<D>(h: Hasher<D>, leaf: D, p: Path<D>, j: nat, k: nat)
    requires j + k <= |p.elements| && j + k <= |p.indices|
    ensures Fold(h, leaf, p, j + k) == Fold(h, Fold(h, leaf, p, j), Skip(p, j), k)
    decreases k
  {
    if k > 0 { FoldSplits(h, leaf, p, j, k - 1); }
  }

  lemma LeafIsListed<D(!new)>(h: Hasher<D>, accounts: seq<Account>, n: nat, a: Account, j: nat)
    requires CollisionFree(h) && |accounts| <= Pow2(n) && j < Pow2(n) && Leaves(h, accounts, n)[j] == h.leaf(a)
    ensures a in accounts
  {
    assert LeavesDiffer(h, a, a);
    if j < |accounts| { assert LeavesDiffer(h, a, accounts[j]); }
  }

  /** Along no path, of any length, does the leaf of an account outside the set fold to the root. */
  lemma NonMemberNeverFolds<D(!new)>(h: Hasher<D>, accounts: seq<Account>, n: nat, a: Account, p: Path<D>)
    requires CollisionFree(h) && |accounts| <= Pow2(n) && a !in accounts && |p.indices| == |p.elements|
    ensures Fold(h, h.leaf(a), p, |p.elements|) != Root(h, Leaves(h, accounts, n), n)
  {
    var leaves := Leaves(h, accounts, n);
    var len := |p.elements|;
    if Fold(h, h.leaf(a), p, len) == Root(h, leaves, n) {
      if len <= n {
        ShortFoldMissesRoot(h, leaves, n, h.leaf(a), p, len, n, 0);
        FoldsOnlyFromBelow(h, leaves, n, h.leaf(a), p, len, 0);
        var j :| 0 <= j < |leaves| && leaves[j] == h.leaf(a);
        LeafIsListed(h, accounts, n, a, j);
      } else {
        LongFoldMissesRoot(h, accounts, n, h.leaf(a), p);
      }
    }
  }

  // More steps than the tree has levels reach an inner node where the tree has a leaf.
  lemma LongFoldMissesRoot<D(!new)>(h: Hasher<D>, accounts: seq<Account>, n: nat, leaf: D, p: Path<D>)
    requires CollisionFree(h) && |accounts| <= Pow2(n) && n < |p.elements| == |p.indices|
    ensures Fold(h, leaf, p, |p.elements|) != Root(h, Leaves(h, accounts, n), n)
  {
    var leaves, early := Leaves(h, accounts, n), |p.elements| - n;
    FoldSplits(h, leaf, p, early, n);
    if Fold(h, leaf, p, |p.elements|) == Root(h, leaves, n) {
      FoldsOnlyFromBelow(h, leaves, n, Fold(h, leaf, p, early), Skip(p, early), n, 0);
      var j :| 0 <= j < |leaves| && leaves[j] == Fold(h, leaf, p, early);
      var below, e := Fold(h, leaf, p, early - 1), p.elements[early - 1];
      assert NodesDiffer(h, below, e, below, e) && NodesDiffer(h, e, below, e, below);
      if j < |accounts| {
        LeafNeverNode(h, accounts[j], below, e);
        LeafNeverNode(h, accounts[j], e, below);
      }
    }
  }

  // Fewer steps than the tree has levels end at a leaf where the tree has an inner node.
  lemma {:induction false} ShortFoldMissesRoot<D(!new)>(h: Hasher<D>, leaves: seq<D>, n: nat, leaf: D, p: Path<D>, len: nat, k: nat, i: nat)
    requires CollisionFree(h) && |leaves| == Pow2(n) && len <= k <= n && i < Pow2(n - k)
    requires len <= |p.elements| && len <= |p.indices| && Fold(h, leaf, p, len) == NodeAt(h, leaves, n, k, i)
    requires exists a :: leaf == h.leaf(a)
    ensures len == k
    decreases len
  {
    var a :| leaf == h.leaf(a);
    if len > 0 {
      var below, e := Fold(h, leaf, p, len - 1), p.elements[len - 1];
      var left, right := NodeAt(h, leaves, n, k - 1, 2 * i), NodeAt(h, leaves, n, k - 1, 2 * i + 1);
      assert NodesDiffer(h, below, e, left, right) && NodesDiffer(h, e, below, left, right);
      ShortFoldMissesRoot(h, leaves, n, leaf, p, len - 1, k - 1, if p.indices[len - 1] == 0 then 2 * i else 2 * i + 1);
    } else if k > 0 {
      LeafNeverNode(h, a, NodeAt(h, leaves, n, k - 1, 2 * i), NodeAt(h, leaves, n, k - 1, 2 * i + 1));
    }
  }

  // --- the root --------------------------------------------------------------------------------------------------

  // Equal values at a place of the tree have equal leaves below them.
  lemma {:induction false} NodesDetermineLeaves<D(!new)>(h: Hasher<D>, x: seq<D>, y: seq<D>, n: nat, k: nat, i: nat, j: nat)
    requires CollisionFree(h) && |x| == Pow2(n) && |y| == Pow2(n) && k <= n && i < Pow2(n - k)
    requires NodeAt(h, x, n, k, i) == NodeAt(h, y, n, k, i) && j < Pow2(n) && Above(j, k) == i
    ensures x[j] == y[j]
    decreases k
  {
    if k > 0 {
      assert NodesDiffer(h, NodeAt(h, x, n, k - 1, 2 * i), NodeAt(h, x, n, k - 1, 2 * i + 1),
                         NodeAt(h, y, n, k - 1, 2 * i), NodeAt(h, y, n, k - 1, 2 * i + 1));
      NodesDetermineLeaves(h, x, y, n, k - 1, Above(j, k - 1), j);
    }
  }

  /** Two approved sets with the same root are the same set. */
  lemma RootDeterminesTheSet<D(!new)>(h: Hasher<D>, a: seq<Account>, b: seq<Account>, n: nat)
    requires CollisionFree(h) && |a| <= Pow2(n) && |b| <= Pow2(n)
    requires Root(h, Leaves(h, a, n), n) == Root(h, Leaves(h, b, n), n)
    ensures forall x :: x in a <==> x in b
  {
    var x, y := Leaves(h, a, n), Leaves(h, b, n);
    forall j | 0 <= j < Pow2(n) ensures x[j] == y[j] {
      AboveFits(n, j, n);
      NodesDetermineLeaves(h, x, y, n, n, 0, j);
    }
    forall i | 0 <= i < |a| ensures a[i] in b { LeafIsListed(h, b, n, a[i], i); }
    forall i | 0 <= i < |b| ensures b[i] in a { LeafIsListed(h, a, n, b[i], i); }
  }

  // The hash that remembers what it was given: collision-free, so the lemmas above are about something.
  datatype Digest = Empty | Leaf(account: Account) | Node(left: Digest, right: Digest)

  function Remembering(): Hasher<Digest> { Hasher(a => Leaf(a), Empty, (x, y) => Node(x, y)) }

  lemma RememberingIsCollisionFree()
    ensures CollisionFree(Remembering())
  {
  }

  // --- building it ----------------------------------------------------------------------------------------------

  predicate AllNumeric(rs: seq<Recipient>)
  {
    forall i :: 0 <= i < |rs| ==> rs[i].Numeric? && FitsUint64(rs[i].account)
  }

  function Accounts(rs: seq<Recipient>): (r: seq<Account>)
    requires AllNumeric(rs)
    ensures |r| == |rs| && forall i :: 0 <= i < |rs| ==> r[i] == rs[i].account
  {
    seq(|rs|, i requires 0 <= i < |rs| => rs[i].account)
  }

  ghost predicate Distinct(s: seq<Account>) { forall i, j :: 0 <= i < j < |s| ==> s[i] != s[j] }

  // A set of recipients a tree of depth n can be built for.
  ghost predicate Buildable(rs: seq<Recipient>, n: nat)
  {
    0 < |rs| <= Pow2(n) && AllNumeric(rs) && Distinct(Accounts(rs))
  }

  datatype Tree<+D> = Tree(root: D, leaves: seq<D>, levels: seq<seq<D>>, sorted: seq<Account>)

  ghost predicate LevelOk<D>(h: Hasher<D>, leaves: seq<D>, n: nat, k: nat, level: seq<D>)
    requires |leaves| == Pow2(n) && k <= n
  {
    |level| == Pow2(n - k) && forall i :: 0 <= i < |level| ==> level[i] == NodeAt(h, leaves, n, k, i)
  }

  /** A well-built tree over an increasing list of accounts. */
  ghost predicate TreeOk<D>(h: Hasher<D>, n: nat, t: Tree<D>)
  {
    && |t.sorted| <= Pow2(n) && Increasing(t.sorted) && t.leaves == Leaves(h, t.sorted, n) && t.root == Root(h, t.leaves, n)
    && |t.levels| == n + 1 && forall k :: 0 <= k <= n ==> LevelOk(h, t.leaves, n, k, t.levels[k])
  }

  lemma SortedDistinctness(s: seq<Account>)
    ensures Distinct(s) ==> Increasing(Sort(s))
    ensures Increasing(Sort(s)) ==> Distinct(s)
  {
    var r := Sort(s);
    if Distinct(s) {
      forall x ensures multiset(s)[x] <= 1 { CountedOnce(s, x); }
      forall i, j | 0 <= i < j < |r| ensures Less(r[i], r[j]) {
        if r[i] == r[j] { CountedTwice(r, i, j); }
      }
    }
    if Increasing(r) {
      forall i, j | 0 <= i < j < |s| ensures s[i] != s[j] {
        if s[i] == s[j] {
          CountedTwice(s, i, j);
          CountedOnce(r, s[i]);
        }
      }
    }
  }

  lemma {:induction false} CountedOnce(s: seq<Account>, x: Account)
    requires Distinct(s)
    ensures multiset(s)[x] <= 1
  {
    if s != [] {
      assert s == [s[0]] + s[1..];
      assert Distinct(s[1..]);
      CountedOnce(s[1..], x);
      if s[0] == x { assert x !in s[1..]; }
    }
  }

  lemma CountedTwice(s: seq<Account>, i: nat, j: nat)
    requires i < j < |s| && s[i] == s[j]
    ensures multiset(s)[s[i]] >= 2
  {
    assert s == s[..j] + s[j..] && s[i] in s[..j] && s[j] in s[j..];
    assert multiset(s) == multiset(s[..j]) + multiset(s[j..]);
  }

  /** The recipients as accounts in order, unless they are no buildable set. */
  method ReadRecipients(rs: seq<Recipient>, n: nat) returns (r: Result<seq<Account>>)
    ensures r.Ok? <==> Buildable(rs, n)
    ensures r.Err? ==> r.error == RequestInvalid
    ensures r.Ok? ==> |r.value| == |rs| && Increasing(r.value) && forall x :: x in r.value <==> x in Accounts(rs)
  {
    if |rs| == 0 { return Err(RequestInvalid); }
    if |rs| > Pow2(n) { return Err(RequestInvalid); }
    for i := 0 to |rs|
      invariant forall j :: 0 <= j < i ==> rs[j].Numeric? && FitsUint64(rs[j].account)
    {
      if rs[i].Malformed? || !FitsUint64(rs[i].account) { return Err(RequestInvalid); }
    }
    var sorted := Sort(Accounts(rs));
    SortedDistinctness(Accounts(rs));
    for i := 1 to |sorted|
      invariant forall j :: 0 < j < i ==> sorted[j - 1] != sorted[j]
    {
      if sorted[i - 1] == sorted[i] { return Err(RequestInvalid); }
    }
    NeighboursSuffice(sorted);
    assert forall x :: x in sorted <==> x in multiset(sorted);
    assert forall x :: x in Accounts(rs) <==> x in multiset(Accounts(rs));
    return Ok(sorted);
  }

  /** One level from the one below it. */
  method HashPairs<D>(current: seq<D>, h: Hasher<D>, ghost leaves: seq<D>, n: nat, k: nat) returns (next: seq<D>)
    requires |leaves| == Pow2(n) && k < n && LevelOk(h, leaves, n, k, current)
    ensures LevelOk(h, leaves, n, k + 1, next)
  {
    next := [];
    var index := 0;
    while index < |current|
      invariant index % 2 == 0 && 0 <= index <= |current| && |next| == index / 2
      invariant forall i :: 0 <= i < |next| ==> next[i] == NodeAt(h, leaves, n, k + 1, i)
    {
      next := next + [h.node(current[index], current[index + 1])];
      index := index + 2;
    }
  }

  /** The tree, or the reason there is none: it exists exactly for a buildable set, and lists exactly that set. */
  method BuildMerkleTree<D(0)>(rs: seq<Recipient>, h: Hasher<D>, n: nat) returns (r: Result<Tree<D>>)
    ensures r.Ok? <==> Buildable(rs, n)
    ensures r.Err? ==> r.error == RequestInvalid
    ensures r.Ok? ==> TreeOk(h, n, r.value) && forall x :: x in r.value.sorted <==> x in Accounts(rs)
  {
    var read := ReadRecipients(rs, n);
    if read.Err? { return Err(read.error); }
    var sorted := read.value;
    var leaves := seq(|sorted|, i requires 0 <= i < |sorted| => h.leaf(sorted[i]));
    while |leaves| < Pow2(n)
      invariant |sorted| <= |leaves| <= Pow2(n)
      invariant forall i :: 0 <= i < |leaves| ==> leaves[i] == if i < |sorted| then h.leaf(sorted[i]) else h.empty
    {
      leaves := leaves + [h.empty];
    }
    assert leaves == Leaves(h, sorted, n);
    var levels := [leaves];
    for depth := 0 to n
      invariant |levels| == depth + 1 && forall k :: 0 <= k <= depth ==> LevelOk(h, leaves, n, k, levels[k])
    {
      assert LevelOk(h, leaves, n, depth, levels[depth]);
      var next := HashPairs(levels[depth], h, leaves, n, depth);
      levels := levels + [next];
    }
    assert LevelOk(h, leaves, n, n, levels[n]);
    return Ok(Tree(levels[n][0], leaves, levels, sorted));
  }

  /** A mission's tree: the selected provider is its whole approved set. */
  method BuildMissionTree<D(0)>(provider: Recipient, h: Hasher<D>) returns (r: Result<Tree<D>>)
    ensures r.Ok? <==> provider.Numeric? && FitsUint64(provider.account)
    ensures r.Ok? ==> TreeOk(h, MERKLE_DEPTH, r.value) && forall x :: x in r.value.sorted <==> x == provider.account
  {
    r := BuildMerkleTree([provider], h, MERKLE_DEPTH);
    if provider.Numeric? && FitsUint64(provider.account) { assert Accounts([provider]) == [provider.account]; }
    else { assert [provider][0] == provider; }
  }

  // In an ascending list equal accounts would be neighbours.
  lemma NeighboursSuffice(s: seq<Account>)
    requires Ascending(s) && forall j :: 0 < j < |s| ==> s[j - 1] != s[j]
    ensures Increasing(s)
  {
    forall i, j | 0 <= i < j < |s| ensures Less(s[i], s[j]) {
      assert s[j - 1] != s[j] && !Less(s[j], s[j - 1]) && !Less(s[j], s[i]);
      if i < j - 1 { assert !Less(s[j - 1], s[i]); }
    }
  }

  /** A member's path, read off the levels; anybody else is refused. */
  method PathFor<D>(t: Tree<D>, ghost h: Hasher<D>, n: nat, who: Recipient) returns (r: Result<Path<D>>)
    requires TreeOk(h, n, t) && t.sorted != []
    ensures r.Ok? <==> who.Numeric? && FitsUint64(who.account) && who.account in t.sorted
    ensures r.Err? ==> r.error == if who.Numeric? && FitsUint64(who.account) then RecipientNotApproved else RequestInvalid
    ensures r.Ok? ==> |r.value.elements| == n && |r.value.indices| == n && Fold(h, h.leaf(who.account), r.value, n) == t.root
  {
    if who.Malformed? || !FitsUint64(who.account) { return Err(RequestInvalid); }
    var a := who.account;
    var position := 0;
    while position < |t.sorted| && t.sorted[position] != a
      invariant 0 <= position <= |t.sorted| && a !in t.sorted[..position]
    {
      position := position + 1;
    }
    if position == |t.sorted| {
      assert t.sorted[..position] == t.sorted;
      return Err(RecipientNotApproved);
    }
    var elements: seq<D>, indices: seq<nat> := [], [];
    var index := position;
    for depth := 0 to n
      invariant index == Above(position, depth) && index < Pow2(n - depth)
      invariant |elements| == depth && |indices| == depth
      invariant forall k :: 0 <= k < depth ==> HoldsStep(h, t.leaves, n, position, k, elements[k], indices[k])
    {
      assert LevelOk(h, t.leaves, n, depth, t.levels[depth]);
      elements := elements + [t.levels[depth][Sibling(index)]];
      indices := indices + [index % 2];
      index := index / 2;
    }
    var p := Path(elements, indices);
    forall k | 0 <= k < n ensures IsStepOf(h, t.leaves, n, position, p, k) {
      assert HoldsStep(h, t.leaves, n, position, k, elements[k], indices[k]);
    }
    MemberFolds(h, t.leaves, n, position, p, n);
    return Ok(p);
  }

  /** Equal sets of recipients, in whatever order they are listed, give the same tree. */
  lemma RootDependsOnTheSetAlone<D>(h: Hasher<D>, n: nat, s: Tree<D>, t: Tree<D>)
    requires TreeOk(h, n, s) && TreeOk(h, n, t) && forall x :: x in s.sorted <==> x in t.sorted
    ensures s.root == t.root && s.leaves == t.leaves && s.sorted == t.sorted
  {
    IncreasingIsUnique(s.sorted, t.sorted);
  }

  /** Different sets have different roots, and a stranger's leaf folds to neither along any path. */
  lemma TreesAreBinding<D(!new)>(h: Hasher<D>, n: nat, s: Tree<D>, t: Tree<D>, a: Account, p: Path<D>)
    requires CollisionFree(h) && TreeOk(h, n, s) && TreeOk(h, n, t)
    ensures s.root == t.root ==> s.sorted == t.sorted
    ensures a !in s.sorted && |p.indices| == |p.elements| ==> Fold(h, h.leaf(a), p, |p.elements|) != s.root
  {
    if s.root == t.root {
      RootDeterminesTheSet(h, s.sorted, t.sorted, n);
      IncreasingIsUnique(s.sorted, t.sorted);
    }
    if a !in s.sorted && |p.indices| == |p.elements| { NonMemberNeverFolds(h, s.sorted, n, a, p); }
  }
}
