/**
  Re-owning a new front end release: the whole tree is validated before any ownership
  changes, then every node is re-owned, each below its ancestors first.

  The release is a tree of nodes with inode numbers; the rest of the volume only shows
  in how many entries outside the release lead to an inode.
 */
module ReleaseOwner {
  import opened Wrappers

  type Ino = nat
  type Owner = nat
  type Path = seq<string>

  datatype Tree =
    | Directory(ino: Ino, children: Forest)
    | File(ino: Ino)
    | Link(ino: Ino, target: Path, toDirectory: bool)   // the target after resolution
    | Special(ino: Ino)

  datatype Forest = Nil | Cons(name: string, tree: Tree, rest: Forest)

  datatype Item = Item(path: Path, tree: Tree)

  datatype Refusal = NoIdentity | NotACandidate | LinkedAncestor | EscapingLink | UnexpectedType | Hardlinked

  datatype Error = Refused(reason: Refusal) | ChownFailed | AccessCheckFailed

  // ---- the tree ----

  function Names(f: Forest): set<string> {
    match f
    case Nil => {}
    case Cons(name, _, rest) => {name} + Names(rest)
  }

  /** No directory lists a name twice. */
  predicate WellFormed(t: Tree) { t.Directory? ==> WellFormedForest(t.children) }

  predicate WellFormedForest(f: Forest) {
    match f
    case Nil => true
    case Cons(name, tree, rest) => name !in Names(rest) && WellFormed(tree) && WellFormedForest(rest)
  }

  /** The node that a relative path names, links not followed. */
  function At(t: Tree, relative: Path): Option<Tree>
    decreases t
  {
    if relative == [] then Some(t)
    else if !t.Directory? then None
    else InForest(t.children, relative)
  }

  function InForest(f: Forest, relative: Path): Option<Tree>
    requires relative != []
    decreases f
  {
    match f
    case Nil => None
    case Cons(name, tree, rest) => if name == relative[0] then At(tree, relative[1..]) else InForest(rest, relative)
  }

  // ---- the walk ----

  predicate IsDirectoryLike(t: Tree) { t.Directory? || (t.Link? && t.toDirectory) }

  /** Of a directory's entries, those that a walk lists as directories, or the others. */
  function Part(path: Path, f: Forest, directories: bool): seq<Item> {
    match f
    case Nil => []
    case Cons(name, tree, rest) =>
      (if IsDirectoryLike(tree) == directories then [Item(path + [name], tree)] else []) + Part(path, rest, directories)
  }

  /** What a walk finds below a directory: its entries, directories first, and then what
      is below each real one. */
  function Visit(path: Path, f: Forest): seq<Item>
    decreases f, 1
  {
    Part(path, f, true) + Part(path, f, false) + Below(path, f)
  }

  function Below(path: Path, f: Forest): seq<Item>
    decreases f, 0
  {
    match f
    case Nil => []
    case Cons(name, tree, rest) =>
      (if tree.Directory? then Visit(path + [name], tree.children) else []) + Below(path, rest)
  }

  function Paths(path: Path, t: Tree): seq<Item> {
    [Item(path, t)] + if t.Directory? then Visit(path, t.children) else []
  }

  // ---- the walk finds every node, parents first ----

  lemma {:induction false} PartExactly(path: Path, f: Forest, directories: bool, item: Item)
    requires WellFormedForest(f)
    ensures item in Part(path, f, directories) <==>
              && |item.path| == |path| + 1 && path <= item.path
              && InForest(f, item.path[|path|..]) == Some(item.tree) && IsDirectoryLike(item.tree) == directories
    ensures item in Part(path, f, directories) ==> item.path[|path|] in Names(f)
    decreases f
  {
    match f
    case Nil =>
    case Cons(name, tree, rest) =>
      PartExactly(path, rest, directories, item);
      if item.path == path + [name] { assert item.path[|path|..] == [name]; }
      if |item.path| == |path| + 1 && path <= item.path {
        assert item.path == path + [item.path[|path|]];
        assert item.path[|path|..][1..] == [];
        if item.path[|path|] == name { NotListed(rest, item.path[|path|..]); }
      }
  }

  lemma {:induction false} NotListed(f: Forest, relative: Path)
    requires relative != [] && relative[0] !in Names(f)
    ensures InForest(f, relative) == None
    decreases f
  {
    if f.Cons? { NotListed(f.rest, relative); }
  }

  lemma {:induction false} VisitExactly(path: Path, f: Forest, item: Item)
    requires WellFormedForest(f)
    ensures item in Visit(path, f) <==>
              |item.path| > |path| && path <= item.path && InForest(f, item.path[|path|..]) == Some(item.tree)
    decreases f, 1
  {
    PartExactly(path, f, true, item);
    PartExactly(path, f, false, item);
    BelowExactly(path, f, item);
  }

  lemma {:induction false} BelowExactly(path: Path, f: Forest, item: Item)
    requires WellFormedForest(f)
    ensures item in Below(path, f) <==>
              |item.path| > |path| + 1 && path <= item.path && InForest(f, item.path[|path|..]) == Some(item.tree)
    decreases f, 0
  {
    match f
    case Nil =>
    case Cons(name, tree, rest) =>
      BelowExactly(path, rest, item);
      if tree.Directory? { VisitExactly(path + [name], tree.children, item); }
      if |item.path| > |path| + 1 && path <= item.path {
        var relative := item.path[|path|..];
        assert relative[1..] == item.path[|path| + 1..];
        assert path + [name] <= item.path <==> relative[0] == name;
        if relative[0] == name { NotListed(rest, relative); }
      } else if tree.Directory? {
        assert item in Visit(path + [name], tree.children) ==> path <= path + [name] <= item.path;
      }
  }

  /** The walk lists exactly the nodes of the release under their paths. */
  lemma PathsExactly(path: Path, t: Tree, item: Item)
    requires WellFormed(t)
    ensures item in Paths(path, t) <==> path <= item.path && At(t, item.path[|path|..]) == Some(item.tree)
  {
    if t.Directory? { VisitExactly(path, t.children, item); }
    if path <= item.path && |item.path| == |path| { assert item.path == path; }
  }

  /** No node comes before an ancestor of it. */
  predicate AncestorsFirst(items: seq<Item>) {
    forall i, j :: 0 <= i < j < |items| ==> !(items[j].path < items[i].path)
  }

  lemma {:induction false} PartIsFlat(path: Path, f: Forest, directories: bool)
    ensures forall item :: item in Part(path, f, directories) ==> |item.path| == |path| + 1
    decreases f
  {
    if f.Cons? { PartIsFlat(path, f.rest, directories); }
  }

  /** Everything below a directory starts with one of its names. */
  predicate StartsIn(items: seq<Item>, path: Path, names: set<string>) {
    forall item :: item in items ==> |item.path| > |path| && path <= item.path && item.path[|path|] in names
  }

  lemma {:induction false} PartStartsIn(path: Path, f: Forest, directories: bool)
    ensures StartsIn(Part(path, f, directories), path, Names(f))
    decreases f
  {
    if f.Cons? { PartStartsIn(path, f.rest, directories); }
  }

  lemma {:induction false} VisitStartsIn(path: Path, f: Forest)
    ensures StartsIn(Visit(path, f), path, Names(f))
    decreases f, 1
  {
    PartStartsIn(path, f, true);
    PartStartsIn(path, f, false);
    BelowStartsIn(path, f);
  }

  lemma {:induction false} BelowStartsIn(path: Path, f: Forest)
    ensures StartsIn(Below(path, f), path, Names(f))
    ensures forall item :: item in Below(path, f) ==> |item.path| > |path| + 1
    decreases f, 0
  {
    if f.Cons? {
      BelowStartsIn(path, f.rest);
      if f.tree.Directory? {
        VisitStartsIn(path + [f.name], f.tree.children);
        forall item | item in Visit(path + [f.name], f.tree.children)
          ensures |item.path| > |path| + 1 && path <= item.path && item.path[|path|] == f.name
        {
          assert path + [f.name] <= item.path;
        }
      }
    }
  }

  lemma {:induction false} VisitAncestorsFirst(path: Path, f: Forest)
    requires WellFormedForest(f)
    ensures AncestorsFirst(Visit(path, f))
    decreases f, 1
  {
    PartIsFlat(path, f, true);
    PartIsFlat(path, f, false);
    BelowStartsIn(path, f);
    BelowAncestorsFirst(path, f);
    FlatThenDeeper(Part(path, f, true) + Part(path, f, false), Below(path, f), |path| + 1);
  }

  lemma FlatThenDeeper(flat: seq<Item>, deep: seq<Item>, n: nat)
    requires forall item :: item in flat ==> |item.path| == n
    requires forall item :: item in deep ==> |item.path| > n
    requires AncestorsFirst(deep)
    ensures AncestorsFirst(flat + deep)
  {
    var all := flat + deep;
    forall i, j | 0 <= i < j < |all| ensures !(all[j].path < all[i].path) {
      if i < |flat| { assert all[i] in flat; }
      if j < |flat| { assert all[j] in flat; } else { assert all[j] == deep[j - |flat|] && all[j] in deep; }
      if i >= |flat| { assert all[i] == deep[i - |flat|]; }
    }
  }

  lemma {:induction false} BelowAncestorsFirst(path: Path, f: Forest)
    requires WellFormedForest(f)
    ensures AncestorsFirst(Below(path, f))
    decreases f, 0
  {
    if f.Cons? {
      BelowAncestorsFirst(path, f.rest);
      if f.tree.Directory? {
        VisitAncestorsFirst(path + [f.name], f.tree.children);
        VisitStartsIn(path + [f.name], f.tree.children);
        BelowStartsIn(path, f.rest);
        SiblingsDoNotMix(path, f.name, Visit(path + [f.name], f.tree.children), Below(path, f.rest), Names(f.rest));
      }
    }
  }

  lemma SiblingsDoNotMix(path: Path, name: string, a: seq<Item>, b: seq<Item>, others: set<string>)
    requires AncestorsFirst(a) && AncestorsFirst(b) && name !in others
    requires forall item :: item in a ==> path + [name] <= item.path
    requires StartsIn(b, path, others)
    ensures AncestorsFirst(a + b)
  {
    var all := a + b;
    forall i, j | 0 <= i < j < |all| ensures !(all[j].path < all[i].path) {
      if i < |a| <= j {
        assert all[i] in a && all[j] == b[j - |a|] && all[j] in b;
        assert all[i].path[|path|] == (path + [name])[|path|];
      } else if i >= |a| {
        assert all[i] == b[i - |a|] && all[j] == b[j - |a|];
      }
    }
  }

  /** In the walk's list every node comes after all its ancestors. */
  lemma PathsAncestorsFirst(path: Path, t: Tree)
    requires WellFormed(t)
    ensures AncestorsFirst(Paths(path, t))
  {
    if t.Directory? {
      VisitAncestorsFirst(path, t.children);
      VisitStartsIn(path, t.children);
      FlatThenDeeper([Item(path, t)], Visit(path, t.children), |path|);
    }
  }

  // ---- validation ----

  function CountFiles(items: seq<Item>, ino: Ino): nat {
    if items == [] then 0
    else CountFiles(items[..|items| - 1], ino) + if items[|items| - 1].tree == File(ino) then 1 else 0
  }

  /** The link count of a file: its entries in the release and outside. */
  function Links(items: seq<Item>, outside: Ino -> nat, ino: Ino): nat { CountFiles(items, ino) + outside(ino) }

  function LinkCounts(items: seq<Item>, outside: Ino -> nat): Ino -> nat { (ino: Ino) => Links(items, outside, ino) }

  function Check(root: Path, item: Item, links: Ino -> nat): Option<Refusal> {
    match item.tree
    case Link(_, target, _) => if root <= target then None else Some(EscapingLink)
    case Directory(_, _) => None
    case File(ino) => if links(ino) != 1 then Some(Hardlinked) else None
    case Special(_) => Some(UnexpectedType)
  }

  function FirstRefusal(root: Path, items: seq<Item>, links: Ino -> nat): Option<Refusal>
    decreases |items|
  {
    if items == [] then None
    else
      match FirstRefusal(root, items[..|items| - 1], links)
      case Some(reason) => Some(reason)
      case None => Check(root, items[|items| - 1], links)
  }

  lemma {:induction false} RefusalStays(root: Path, items: seq<Item>, links: Ino -> nat, n: nat)
    requires n <= |items| && FirstRefusal(root, items[..n], links).Some?
    ensures FirstRefusal(root, items, links) == FirstRefusal(root, items[..n], links)
    decreases |items|
  {
    if n < |items| {
      assert items[..|items| - 1][..n] == items[..n];
      RefusalStays(root, items[..|items| - 1], links, n);
    } else {
      assert items[..n] == items;
    }
  }

  /** Internal links are fine; anything that reaches outside or is no plain node is not. */
  predicate Clean(root: Path, item: Item, links: Ino -> nat) {
    && !item.tree.Special?
    && (item.tree.Link? ==> root <= item.tree.target)
    && (item.tree.File? ==> links(item.tree.ino) == 1)
  }

  /** A tree is accepted exactly when all of it is clean. */
  lemma {:induction false} AcceptedExactly(root: Path, items: seq<Item>, links: Ino -> nat)
    ensures FirstRefusal(root, items, links) == None <==> forall item :: item in items ==> Clean(root, item, links)
    decreases |items|
  {
    if items != [] {
      var init, last := items[..|items| - 1], items[|items| - 1];
      AcceptedExactly(root, init, links);
      assert items == init + [last];
      assert forall item :: item in items <==> item in init || item == last;
      assert Check(root, last, links) == None <==> Clean(root, last, links);
      hide Check, Clean;
    }
  }

  lemma {:induction false} ListedFileCounts(items: seq<Item>, item: Item)
    requires item in items && item.tree.File?
    ensures CountFiles(items, item.tree.ino) >= 1
    decreases |items|
  {
    if item != items[|items| - 1] {
      assert item in items[..|items| - 1];
      ListedFileCounts(items[..|items| - 1], item);
    }
  }

  /** What a file system guarantees: a directory has one parent entry. */
  predicate Consistent(items: seq<Item>, outside: Ino -> nat) {
    forall item :: item in items && item.tree.Directory? ==> outside(item.tree.ino) == 0
  }

  /** Once the tree is accepted, the only nodes of it with an entry outside are symbolic
      links, whose link counts nobody looks at. */
  lemma AcceptedStaysInside(root: Path, items: seq<Item>, outside: Ino -> nat)
    requires Consistent(items, outside)
    requires FirstRefusal(root, items, LinkCounts(items, outside)) == None
    ensures forall item :: item in items && !item.tree.Link? ==> outside(item.tree.ino) == 0
  {
    AcceptedExactly(root, items, LinkCounts(items, outside));
    forall item | item in items && !item.tree.Link? ensures outside(item.tree.ino) == 0 {
      assert Clean(root, item, LinkCounts(items, outside));
      if item.tree.File? { ListedFileCounts(items, item); }
    }
  }

  // ---- re-owning ----

  /** The owners after these nodes were re-owned. */
  function Reowned(owners: map<Ino, Owner>, items: seq<Item>, owner: Owner): map<Ino, Owner>
    decreases |items|
  {
    if items == [] then owners
    else Reowned(owners, items[..|items| - 1], owner)[items[|items| - 1].tree.ino := owner]
  }

  lemma {:induction false} ReownedExactly(owners: map<Ino, Owner>, items: seq<Item>, owner: Owner, ino: Ino)
    ensures var after := Reowned(owners, items, owner);
            if exists item :: item in items && item.tree.ino == ino then ino in after && after[ino] == owner
            else (ino in after <==> ino in owners) && (ino in owners ==> after[ino] == owners[ino])
    decreases |items|
  {
    if items != [] {
      var init, last := items[..|items| - 1], items[|items| - 1];
      ReownedExactly(owners, init, owner, ino);
      assert items == init + [last];
      assert forall item :: item in items <==> item in init || item == last;
    }
  }

  function Reverse(items: seq<Item>): (r: seq<Item>)
    ensures |r| == |items|
  {
    seq(|items|, i requires 0 <= i < |items| => items[|items| - 1 - i])
  }

  /** Re-owning in reverse handles every node before each of its ancestors. */
  lemma DescendantsFirst(path: Path, t: Tree)
    requires WellFormed(t)
    ensures var order := Reverse(Paths(path, t));
            forall i, j :: 0 <= i < j < |order| ==> !(order[i].path < order[j].path)
  {
    PathsAncestorsFirst(path, t);
  }

  /** Re-owning the whole list reaches every node that a path names. */
  lemma EveryNodeIsReowned(root: Path, t: Tree, owners: map<Ino, Owner>, owner: Owner, relative: Path)
    requires WellFormed(t) && At(t, relative).Some?
    ensures var after := Reowned(owners, Reverse(Paths(root, t)), owner); var ino := At(t, relative).value.ino;
            ino in after && after[ino] == owner
  {
    var item := Item(root + relative, At(t, relative).value);
    assert item.path[|root|..] == relative;
    PathsExactly(root, t, item);
    var items := Paths(root, t);
    var k :| 0 <= k < |items| && items[k] == item;
    assert Reverse(items)[|items| - 1 - k] == item;
    ReownedExactly(owners, Reverse(items), owner, item.tree.ino);
  }

  // ---- what is refused ----

  /** What is wrong with one node, seen from the whole list: another entry of the release or
      one outside it leads to the same file. */
  ghost predicate Unsafe(root: Path, items: seq<Item>, outside: Ino -> nat, i: nat, reason: Refusal)
    requires i < |items|
  {
    match items[i].tree
    case Link(_, target, _) => reason == EscapingLink && !(root <= target)
    case Special(_) => reason == UnexpectedType
    case File(ino) =>
      reason == Hardlinked
      && (outside(ino) > 0 || exists j :: 0 <= j < |items| && j != i && items[j].tree == File(ino))
    case Directory(_, _) => false
  }

  ghost predicate Safe(root: Path, items: seq<Item>, outside: Ino -> nat, i: nat)
    requires i < |items|
  {
    forall reason :: !Unsafe(root, items, outside, i, reason)
  }

  /** The first node that something is wrong with gives the reason. */
  ghost predicate RefusedAt(root: Path, items: seq<Item>, outside: Ino -> nat, i: nat, reason: Refusal)
    requires i < |items|
  {
    Unsafe(root, items, outside, i, reason) && forall j :: 0 <= j < i ==> Safe(root, items, outside, j)
  }

  ghost predicate TreeRefused(root: Path, items: seq<Item>, outside: Ino -> nat, reason: Refusal) {
    exists i :: 0 <= i < |items| && RefusedAt(root, items, outside, i, reason)
  }

  lemma {:induction false} NoFileCounts(items: seq<Item>, ino: Ino)
    requires forall j :: 0 <= j < |items| ==> items[j].tree != File(ino)
    ensures CountFiles(items, ino) == 0
    decreases |items|
  {
    if items != [] { NoFileCounts(items[..|items| - 1], ino); }
  }

  /** A file has one entry in the release exactly when no other entry leads to it. */
  lemma {:induction false} SingleEntryExactly(items: seq<Item>, i: nat)
    requires i < |items| && items[i].tree.File?
    ensures CountFiles(items, items[i].tree.ino) >= 1
    ensures CountFiles(items, items[i].tree.ino) == 1 <==>
              forall j :: 0 <= j < |items| && j != i ==> items[j].tree != File(items[i].tree.ino)
    decreases |items|
  {
    var n, ino := |items| - 1, items[i].tree.ino;
    var init := items[..n];
    if i < n {
      SingleEntryExactly(init, i);
      assert forall j :: 0 <= j < n ==> items[j] == init[j];
      assert items[n].tree == File(ino) ==> CountFiles(items, ino) > 1;
    } else if forall j :: 0 <= j < n ==> init[j].tree != File(ino) {
      NoFileCounts(init, ino);
    } else {
      var j :| 0 <= j < n && init[j].tree == File(ino);
      assert items[j] == init[j];
      SingleEntryExactly(init, j);
    }
  }

  lemma CheckExactly(root: Path, items: seq<Item>, outside: Ino -> nat, i: nat, reason: Refusal)
    requires i < |items|
    ensures Check(root, items[i], LinkCounts(items, outside)) == Some(reason) <==>
        Unsafe(root, items, outside, i, reason)
  {
    if items[i].tree.File? { SingleEntryExactly(items, i); }
  }

  lemma CheckPassesExactly(root: Path, items: seq<Item>, outside: Ino -> nat, i: nat)
    requires i < |items|
    ensures Check(root, items[i], LinkCounts(items, outside)) == None <==> Safe(root, items, outside, i)
  {
    forall reason
      ensures Check(root, items[i], LinkCounts(items, outside)) == Some(reason) <==>
          Unsafe(root, items, outside, i, reason)
    {
      CheckExactly(root, items, outside, i, reason);
    }
    hide Check, Unsafe;
  }

  /** The validation refuses a tree for the reason that its first bad node gives. */
  lemma {:induction false} RefusalExactly(root: Path, items: seq<Item>, outside: Ino -> nat, n: nat, reason: Refusal)
    requires n <= |items|
    ensures FirstRefusal(root, items[..n], LinkCounts(items, outside)) == Some(reason) <==>
        exists i :: 0 <= i < n && RefusedAt(root, items, outside, i, reason)
    ensures FirstRefusal(root, items[..n], LinkCounts(items, outside)) == None <==>
        forall i :: 0 <= i < n ==> Safe(root, items, outside, i)
  {
    if n > 0 {
      hide Check, Unsafe, Safe;
      RefusalExactly(root, items, outside, n - 1, reason);
      assert items[..n][..n - 1] == items[..n - 1] && items[..n][n - 1] == items[n - 1];
      CheckExactly(root, items, outside, n - 1, reason);
      CheckPassesExactly(root, items, outside, n - 1);
      SafeIsNotUnsafe(root, items, outside);
      FirstRefusalUnfolds(root, items, LinkCounts(items, outside), n);
      if FirstRefusal(root, items[..n - 1], LinkCounts(items, outside)) == None {
        assert RefusedAt(root, items, outside, n - 1, reason) <==> Unsafe(root, items, outside, n - 1, reason);
      } else {
        assert !RefusedAt(root, items, outside, n - 1, reason);
      }
      hide RefusedAt, FirstRefusal;
    }
  }

  lemma FirstRefusalUnfolds(root: Path, items: seq<Item>, links: Ino -> nat, n: nat)
    requires 0 < n <= |items|
    ensures FirstRefusal(root, items[..n], links) ==
            match FirstRefusal(root, items[..n - 1], links)
            case Some(reason) => Some(reason)
            case None => Check(root, items[n - 1], links)
  {
    assert items[..n][..n - 1] == items[..n - 1];
  }

  lemma SafeIsNotUnsafe(root: Path, items: seq<Item>, outside: Ino -> nat)
    ensures forall i, reason :: 0 <= i < |items| && Safe(root, items, outside, i) ==>
        !RefusedAt(root, items, outside, i, reason)
    ensures forall i, reason :: 0 <= i < |items| && RefusedAt(root, items, outside, i, reason) ==>
        forall j :: 0 <= j < i ==> Safe(root, items, outside, j)
  {
  }

  predicate IsCommit(s: string) { |s| == 40 && forall c :: c in s ==> '0' <= c <= '9' || 'a' <= c <= 'f' }

  predicate IsStamp(s: string) {
    |s| == 16 && forall i :: 0 <= i < 16 ==>
      if i == 8 then s[i] == 'T' else if i == 15 then s[i] == 'Z' else '0' <= s[i] <= '9'
  }

  /** The two directories that this attempt may have made. */
  function Candidates(repo: Path, target: string, stamp: string): set<Path> {
    {repo + ["runtime", "frontend-releases", target + "-" + stamp],
     repo + ["runtime", "external-frontend-releases", target + "-" + stamp]}
  }

  /** Why the release as a whole is refused, before anything changes. */
  function RefusalOf(root: Path, t: Tree, repo: Path, target: string, stamp: string, linkedAncestor: bool,
      outside: Ino -> nat): Option<Refusal> {
    if !IsCommit(target) || !IsStamp(stamp) then Some(NoIdentity)
    else if root !in Candidates(repo, target, stamp) || !IsDirectoryLike(t) then Some(NotACandidate)
    else if linkedAncestor || t.Link? then Some(LinkedAncestor)
    else FirstRefusal(root, Paths(root, t), LinkCounts(Paths(root, t), outside))
  }

  /** Forty hexadecimal digits, and eight digits, a T, six digits and a Z. */
  predicate Identified(target: string, stamp: string) {
    && |target| == 40 && (forall i :: 0 <= i < 40 ==> target[i] in "0123456789abcdef")
    && |stamp| == 16 && stamp[8] == 'T' && stamp[15] == 'Z'
    && (forall i :: 0 <= i < 15 && i != 8 ==> stamp[i] in "0123456789")
  }

  lemma IdentifiedExactly(target: string, stamp: string)
    ensures Identified(target, stamp) <==> IsCommit(target) && IsStamp(stamp)
  {
    if |target| == 40 {
      if IsCommit(target) {
        forall i | 0 <= i < 40 ensures target[i] in "0123456789abcdef" {
          assert target[i] in target;
          HexDigit(target[i]);
        }
      }
      if forall i :: 0 <= i < 40 ==> target[i] in "0123456789abcdef" {
        forall c | c in target ensures '0' <= c <= '9' || 'a' <= c <= 'f' { HexDigit(c); }
      }
    }
    if |stamp| == 16 {
      forall i | 0 <= i < 16 ensures '0' <= stamp[i] <= '9' <==> stamp[i] in "0123456789" { HexDigit(stamp[i]); }
    }
  }

  lemma HexDigit(c: char)
    ensures c in "0123456789abcdef" <==> '0' <= c <= '9' || 'a' <= c <= 'f'
    ensures c in "0123456789" <==> '0' <= c <= '9'
  {
    if '0' <= c <= '9' {
      var k := c as int - '0' as int;
      assert "0123456789"[k] == c && "0123456789abcdef"[k] == c;
    }
    if 'a' <= c <= 'f' {
      var k := c as int - 'a' as int + 10;
      assert "0123456789abcdef"[k] == c;
    }
  }

  /** One of the attempt's two directories, by name. */
  predicate Made(root: Path, repo: Path, target: string, stamp: string) {
    && |root| == |repo| + 3 && repo <= root
    && root[|repo|] == "runtime" && root[|repo| + 1] in {"frontend-releases", "external-frontend-releases"}
    && root[|repo| + 2] == target + "-" + stamp
  }

  lemma MadeExactly(root: Path, repo: Path, target: string, stamp: string)
    ensures Made(root, repo, target, stamp) <==> root in Candidates(repo, target, stamp)
  {
    if Made(root, repo, target, stamp) {
      assert root == repo + [root[|repo|], root[|repo| + 1], root[|repo| + 2]];
    }
  }

  /** A directory, or a link that leads to one. */
  predicate AnsweredAsDirectory(t: Tree) { t.Directory? || (t.Link? && t.toDirectory) }

  /** What is refused, and for which reason: the first of these that applies. */
  ghost predicate Refuses(root: Path, t: Tree, repo: Path, target: string, stamp: string, linkedAncestor: bool,
      outside: Ino -> nat, reason: Refusal) {
    match reason
    case NoIdentity => !Identified(target, stamp)
    case NotACandidate => Identified(target, stamp) && !(Made(root, repo, target, stamp) && AnsweredAsDirectory(t))
    case LinkedAncestor =>
      && Identified(target, stamp) && Made(root, repo, target, stamp) && AnsweredAsDirectory(t)
      && (linkedAncestor || t.Link?)
    case _ =>
      && Identified(target, stamp) && Made(root, repo, target, stamp) && t.Directory? && !linkedAncestor
      && TreeRefused(root, Paths(root, t), outside, reason)
  }

  lemma RefusesExactly(root: Path, t: Tree, repo: Path, target: string, stamp: string, linkedAncestor: bool,
      outside: Ino -> nat, reason: Refusal)
    ensures RefusalOf(root, t, repo, target, stamp, linkedAncestor, outside) == Some(reason) <==>
        Refuses(root, t, repo, target, stamp, linkedAncestor, outside, reason)
  {
    IdentifiedExactly(target, stamp);
    MadeExactly(root, repo, target, stamp);
    var items := Paths(root, t);
    assert items[..|items|] == items;
    RefusalExactly(root, items, outside, |items|, reason);
    TreeIsRefusedForATreesReason(root, items, outside, reason);
    hide Identified, Made, IsCommit, IsStamp, Candidates, Paths, LinkCounts, FirstRefusal, RefusedAt;
  }

  lemma TreeIsRefusedForATreesReason(root: Path, items: seq<Item>, outside: Ino -> nat, reason: Refusal)
    ensures TreeRefused(root, items, outside, reason) ==> reason in {EscapingLink, UnexpectedType, Hardlinked}
  {
  }

  class Volume {
    var owners: map<Ino, Owner>
    var modes: map<Ino, nat>

    const reliable: bool         // no call fails

    constructor (owners: map<Ino, Owner>, modes: map<Ino, nat>, reliable: bool)
      ensures this.owners == owners && this.modes == modes && this.reliable == reliable
    {
      this.owners, this.modes, this.reliable := owners, modes, reliable;
    }

    method Fails() returns (fails: bool)
      ensures reliable ==> !fails
    {
      fails := *;
      fails := fails && !reliable;
    }

    /** Changes the owner of the node itself; a link is not followed. */
    method Chown(item: Item, owner: Owner) returns (ok: bool)
      modifies this`owners
      ensures owners == if ok then old(owners)[item.tree.ino := owner] else old(owners)
      ensures reliable ==> ok
    {
      var fails := Fails();
      ok := !fails;
      if ok { owners := owners[item.tree.ino := owner]; }
    }

    /** `own_new_release`; `done` are the re-owned nodes, in order. It refuses exactly what
        `Refuses` says; what it does not refuse fails only because a call does. */
    method OwnNewRelease(root: Path, t: Tree, repo: Path, target: string, stamp: string, linkedAncestor: bool,
        outside: Ino -> nat, owner: Owner)
      returns (result: Result<(), Error>, ghost done: seq<Item>)
      requires WellFormed(t) && Consistent(Paths(root, t), outside)
      modifies this`owners
      ensures owners == Reowned(old(owners), done, owner) && done <= Reverse(Paths(root, t))
      ensures result.Ok? ==> done == Reverse(Paths(root, t))
      ensures result.Err? && result.error.AccessCheckFailed? ==> done == Reverse(Paths(root, t))
      ensures forall reason :: result == Err(Refused(reason)) <==>
          Refuses(root, t, repo, target, stamp, linkedAncestor, outside, reason)
      ensures result.Err? && result.error.Refused? ==> done == []
      ensures done != [] ==>
          Identified(target, stamp) && Made(root, repo, target, stamp) && t.Directory? && !linkedAncestor
      ensures reliable ==> result.Ok? || result.error.Refused?
      ensures forall ino :: outside(ino) > 0 && !IsLinkIn(Paths(root, t), ino) ==>
                (ino in owners <==> ino in old(owners)) && (ino in owners ==> owners[ino] == old(owners)[ino])
    {
      done := [];
      forall reason
        ensures RefusalOf(root, t, repo, target, stamp, linkedAncestor, outside) == Some(reason) <==>
            Refuses(root, t, repo, target, stamp, linkedAncestor, outside, reason)
      {
        RefusesExactly(root, t, repo, target, stamp, linkedAncestor, outside, reason);
      }
      hide Paths, FirstRefusal, LinkCounts, WellFormed, Consistent, Check, Reowned, Reverse, Refuses, IsCommit, IsStamp,
        Candidates;
      NothingReowned(old(owners), owner);
      if !IsCommit(target) || !IsStamp(stamp) { return Err(Refused(NoIdentity)), []; }
      if root !in Candidates(repo, target, stamp) || !IsDirectoryLike(t) { return Err(Refused(NotACandidate)), []; }
      if linkedAncestor || t.Link? { return Err(Refused(LinkedAncestor)), []; }
      var items := Paths(root, t);
      var refusal := Validate(root, items, LinkCounts(items, outside));
      if refusal.Some? { return Err(Refused(refusal.value)), []; }
      IdentifiedExactly(target, stamp);
      MadeExactly(root, repo, target, stamp);
      AcceptedStaysInside(root, items, outside);
      var ok;
      ok, done := ReownAll(items, owner);
      OutsideIsUntouched(old(owners), items, done, owner, outside);
      if !ok { return Err(ChownFailed), done; }
      var fails := Fails();
      result := if fails then Err(AccessCheckFailed) else Ok(());
    }

    method Validate(root: Path, items: seq<Item>, links: Ino -> nat) returns (refusal: Option<Refusal>)
      ensures refusal == FirstRefusal(root, items, links)
    {
      for i := 0 to |items|
        invariant FirstRefusal(root, items[..i], links) == None
      {
        assert items[..i + 1][..i] == items[..i];
        refusal := Check(root, items[i], links);
        if refusal.Some? {
          RefusalStays(root, items, links, i + 1);
          return;
        }
      }
      assert items[..|items|] == items;
      refusal := None;
    }

    /** The loop from the last node to the first; it stops where the call fails. */
    method ReownAll(items: seq<Item>, owner: Owner) returns (ok: bool, ghost done: seq<Item>)
      modifies this`owners
      ensures owners == Reowned(old(owners), done, owner) && done <= Reverse(items)
      ensures ok ==> done == Reverse(items)
      ensures reliable ==> ok
    {
      hide Reowned, Reverse;
      NothingReowned(old(owners), owner);
      done := [];
      var i := |items|;
      while i > 0
        invariant 0 <= i <= |items|
        invariant done == Reverse(items)[..|items| - i] && owners == Reowned(old(owners), done, owner)
      {
        i := i - 1;
        ok := Chown(items[i], owner);
        if !ok { return; }
        OneMoreReowned(old(owners), items, done, owner);
        done := done + [items[i]];
      }
      ok := true;
    }
  }

  /** Some path of the release names this inode as a symbolic link. */
  predicate IsLinkIn(items: seq<Item>, ino: Ino) {
    exists item :: item in items && item.tree.Link? && item.tree.ino == ino
  }

  /** Whether an inode with an entry outside changes hands: exactly when it is a symbolic
      link of an accepted release, since only the link counts of files are checked. */
  lemma OutsideChangesExactly(root: Path, items: seq<Item>, outside: Ino -> nat, owners: map<Ino, Owner>, owner: Owner,
      ino: Ino)
    requires Consistent(items, outside) && FirstRefusal(root, items, LinkCounts(items, outside)) == None
    requires outside(ino) > 0 && ino in owners && owners[ino] != owner
    ensures var after := Reowned(owners, Reverse(items), owner);
            ino in after && (after[ino] != owners[ino] <==> IsLinkIn(items, ino))
  {
    AcceptedStaysInside(root, items, outside);
    ReownedExactly(owners, Reverse(items), owner, ino);
    hide FirstRefusal, LinkCounts, Reowned;
    if IsLinkIn(items, ino) {
      var item :| item in items && item.tree.Link? && item.tree.ino == ino;
      var k :| 0 <= k < |items| && items[k] == item;
      assert Reverse(items)[|items| - 1 - k] == item;
    } else {
      forall item | item in Reverse(items) ensures item.tree.ino != ino { assert item in items; }
    }
  }

  lemma NothingReowned(owners: map<Ino, Owner>, owner: Owner)
    ensures Reowned(owners, [], owner) == owners
  {
  }

  lemma OneMoreReowned(owners: map<Ino, Owner>, items: seq<Item>, done: seq<Item>, owner: Owner)
    requires |done| < |items| && done == Reverse(items)[..|done|]
    ensures var item := items[|items| - 1 - |done|];
            && done + [item] == Reverse(items)[..|done| + 1]
            && Reowned(owners, done + [item], owner) == Reowned(owners, done, owner)[item.tree.ino := owner]
  {
    assert (done + [items[|items| - 1 - |done|]])[..|done|] == done;
  }

  lemma OutsideIsUntouched(owners: map<Ino, Owner>, items: seq<Item>, done: seq<Item>, owner: Owner,
      outside: Ino -> nat)
    requires done <= Reverse(items) && forall item :: item in items && !item.tree.Link? ==> outside(item.tree.ino) == 0
    ensures var after := Reowned(owners, done, owner);
            forall ino :: outside(ino) > 0 && !IsLinkIn(items, ino) ==>
              (ino in after <==> ino in owners) && (ino in after ==> after[ino] == owners[ino])
  {
    forall ino | outside(ino) > 0 && !IsLinkIn(items, ino)
      ensures var after := Reowned(owners, done, owner);
              (ino in after <==> ino in owners) && (ino in after ==> after[ino] == owners[ino])
    {
      ReownedExactly(owners, done, owner, ino);
      forall item | item in done ensures item.tree.ino != ino {
        assert item in Reverse(items);
      }
    }
  }
}
