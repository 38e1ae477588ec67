/** The bounded walk over a source tree: an explicit stack against a recursive traversal. */
module Walk {
  import opened Languages
  import opened Collections
  import opened Sorting

  const MAX_INDEX_FILES := 20_000

  type Path = seq<string>

  /** What a directory entry is: symbolic links and devices are `Other`. */
  datatype Kind = Folder(tree: Tree) | File | Other | Untyped

  /** A directory; one that cannot be read lists nothing. */
  datatype Tree = Tree(readable: bool, children: map<string, Kind>)

  predicate Skipped(name: string) {
    (name != [] && name[0] == '.') || name in ["target", "node_modules", "dist", "vendor", "__pycache__"]
  }

  predicate Wanted(t: Tree, name: string)
    requires name in t.children
  {
    t.children[name].File? && LanguageOf(name) != Unknown
  }

  predicate Entered(t: Tree, name: string)
    requires name in t.children
  {
    t.children[name].Folder? && !Skipped(name)
  }

  // ------------------------------------------------------------------ listing

  /** The names of a directory, each once, in any order. */
  ghost predicate Lists(names: seq<string>, keys: set<string>) {
    Distinct(names) && forall n :: n in names <==> n in keys
  }

  ghost predicate Within(t: Tree, names: seq<string>) {
    forall i :: 0 <= i < |names| ==> names[i] in t.children
  }

  ghost function Enumerate(keys: set<string>): (names: seq<string>)
    ensures Lists(names, keys)
  {
    if keys == {} then [] else var x :| x in keys; [x] + Enumerate(keys - {x})
  }

  lemma SortedListing(names: seq<string>, keys: set<string>)
    requires Lists(names, keys)
    ensures Lists(Sort(names, StrLe), keys)
  {
    SortDistinct(names, StrLe);
    forall n
      ensures n in Sort(names, StrLe) <==> n in keys
    {
      SortMembers(names, StrLe, n);
    }
  }

  lemma ListingUnique(a: seq<string>, b: seq<string>, keys: set<string>)
    requires Lists(a, keys) && Lists(b, keys)
    ensures Sort(a, StrLe) == Sort(b, StrLe)
  {
    SortedListing(a, keys);
    SortedListing(b, keys);
    StrPreorder();
    SortSorted(a, StrLe);
    SortSorted(b, StrLe);
    forall x, y | StrLe(x, y) && StrLe(y, x)
      ensures x == y
    {
      StrTotal(x, y);
    }
    SameMembersUnique(Sort(a, StrLe), Sort(b, StrLe), StrLe);
  }

  ghost function Names(t: Tree): (names: seq<string>)
    ensures Lists(names, t.children.Keys) && Within(t, names)
  {
    var e := Enumerate(t.children.Keys);
    SortedListing(e, t.children.Keys);
    Sort(e, StrLe)
  }

  lemma ListingNames(t: Tree, listing: seq<string>)
    requires Lists(listing, t.children.Keys)
    ensures Sort(listing, StrLe) == Names(t)
  {
    ListingUnique(listing, Enumerate(t.children.Keys), t.children.Keys);
  }

  // ------------------------------------------------------ recursive traversal

  ghost function FilesOf(path: Path, t: Tree, names: seq<string>): seq<Path>
    requires Within(t, names)
  {
    if names == [] then []
    else (if Wanted(t, names[0]) then [path + [names[0]]] else []) + FilesOf(path, t, names[1..])
  }

  ghost function FoldersOf(t: Tree, names: seq<string>): (r: seq<string>)
    requires Within(t, names)
    ensures forall i :: 0 <= i < |r| ==> r[i] in t.children && Entered(t, r[i])
  {
    if names == [] then []
    else (if Entered(t, names[0]) then [names[0]] else []) + FoldersOf(t, names[1..])
  }

  ghost predicate Folders(t: Tree, names: seq<string>) {
    forall i :: 0 <= i < |names| ==> names[i] in t.children && t.children[names[i]].Folder?
  }

  /** The wanted files of the directory in order, then those of its folders in order. */
  ghost function Preorder(path: Path, t: Tree): seq<Path>
    decreases t, 1, 0
  {
    if !t.readable then [] else FilesOf(path, t, Names(t)) + PreorderAll(path, t, FoldersOf(t, Names(t)))
  }

  ghost function PreorderAll(path: Path, t: Tree, names: seq<string>): seq<Path>
    requires Folders(t, names)
    decreases t, 0, |names|
  {
    if names == [] then []
    else
      var k := t.children[names[0]];
      Preorder(path + [names[0]], k.tree) + PreorderAll(path, t, names[1..])
  }

  // -------------------------------------------------------------- the stack

  datatype Visit = Visit(path: Path, tree: Tree)

  /** What is still to come, the top of the stack first. */
  ghost function Pending(stack: seq<Visit>): seq<Path> {
    if stack == [] then []
    else
      var top := stack[|stack| - 1];
      Preorder(top.path, top.tree) + Pending(stack[..|stack| - 1])
  }

  ghost function Size(t: Tree): nat
    decreases t, 1, 0
  {
    1 + SizeAll(t, FoldersOf(t, Names(t)))
  }

  ghost function SizeAll(t: Tree, names: seq<string>): nat
    requires Folders(t, names)
    decreases t, 0, |names|
  {
    if names == [] then 0 else var k := t.children[names[0]]; Size(k.tree) + SizeAll(t, names[1..])
  }

  ghost function StackSize(stack: seq<Visit>): nat {
    if stack == [] then 0 else Size(stack[|stack| - 1].tree) + StackSize(stack[..|stack| - 1])
  }

  function Reversed(path: Path, t: Tree, names: seq<string>): (r: seq<Visit>)
    requires Folders(t, names)
  {
    if names == [] then []
    else Reversed(path, t, names[1..]) + [Visit(path + [names[0]], t.children[names[0]].tree)]
  }

  lemma PendingPush(stack: seq<Visit>, x: Visit)
    ensures Pending(stack + [x]) == Preorder(x.path, x.tree) + Pending(stack)
    ensures StackSize(stack + [x]) == Size(x.tree) + StackSize(stack)
  {
    assert (stack + [x])[..|stack|] == stack;
  }

  lemma {:induction false} PendingPushed(stack: seq<Visit>, path: Path, t: Tree, names: seq<string>)
    requires Folders(t, names)
    ensures Pending(stack + Reversed(path, t, names)) == PreorderAll(path, t, names) + Pending(stack)
    ensures StackSize(stack + Reversed(path, t, names)) == SizeAll(t, names) + StackSize(stack)
  {
    if names == [] {
      assert stack + [] == stack;
    } else {
      PendingPushed(stack, path, t, names[1..]);
      var rest := Reversed(path, t, names[1..]);
      var x := Visit(path + [names[0]], t.children[names[0]].tree);
      Regroup(stack, rest, [x]);
      PendingPush(stack + rest, x);
      Regroup(Preorder(x.path, x.tree), PreorderAll(path, t, names[1..]), Pending(stack));
    }
  }

  /** The first `MAX_INDEX_FILES`. */
  ghost function Cut(files: seq<Path>): seq<Path> {
    if |files| <= MAX_INDEX_FILES then files else files[..MAX_INDEX_FILES]
  }

  ghost predicate Reads(read: (Path, Tree) -> seq<string>) {
    forall p, t :: Lists(read(p, t), t.children.Keys)
  }

  lemma ScanStep(path: Path, t: Tree, names: seq<string>, i: nat)
    requires Within(t, names) && i < |names|
    ensures FilesOf(path, t, names[i..]) ==
      (if Wanted(t, names[i]) then [path + [names[i]]] else []) + FilesOf(path, t, names[i + 1..])
    ensures FoldersOf(t, names[i..]) == (if Entered(t, names[i]) then [names[i]] else []) + FoldersOf(t, names[i + 1..])
  {
    assert names[i..][1..] == names[i + 1..];
  }

  /** What is put at the end of a list comes off the front of what is still to do. */
  lemma Appended<T>(done: seq<T>, piece: seq<T>, rest: seq<T>)
    ensures (done + piece) + rest == done + (piece + rest) && done + [] == done
    ensures piece != [] ==> done < done + (piece + rest)
  {
  }

  /** The entries of one directory: files are appended until the bound, folders are collected. */
  method Scan(path: Path, t: Tree, names: seq<string>, before: seq<Path>)
    returns (files: seq<Path>, folders: seq<string>, truncated: bool)
    requires Within(t, names) && |before| <= MAX_INDEX_FILES
    ensures !truncated ==> files == before + FilesOf(path, t, names) && folders == FoldersOf(t, names) && |files| <= MAX_INDEX_FILES
    ensures truncated ==> |files| == MAX_INDEX_FILES && files < before + FilesOf(path, t, names)
  {
    files, folders, truncated := before, [], false;
    for i := 0 to |names|
      invariant |files| <= MAX_INDEX_FILES
      invariant files + FilesOf(path, t, names[i..]) == before + FilesOf(path, t, names)
      invariant folders + FoldersOf(t, names[i..]) == FoldersOf(t, names)
    {
      ScanStep(path, t, names, i);
      Appended(files, if Wanted(t, names[i]) then [path + [names[i]]] else [], FilesOf(path, t, names[i + 1..]));
      Appended(folders, if Entered(t, names[i]) then [names[i]] else [], FoldersOf(t, names[i + 1..]));
      if t.children[names[i]].Folder? {
        if !Skipped(names[i]) {
          folders := folders + [names[i]];
        }
      } else if t.children[names[i]].File? && LanguageOf(names[i]) != Unknown {
        if |files| >= MAX_INDEX_FILES {
          truncated := true;
          return;
        }
        files := files + [path + [names[i]]];
      }
    }
  }

  /** For any order in which directories are read, the walk is the recursive traversal cut to
      the bound, and says so exactly when something was cut. */
  method WalkSources(root: Path, tree: Tree, read: (Path, Tree) -> seq<string>) returns (files: seq<Path>, truncated: bool)
    requires Reads(read)
    ensures files == Cut(Preorder(root, tree))
    ensures truncated <==> |Preorder(root, tree)| > MAX_INDEX_FILES
  {
    files, truncated := [], false;
    var stack := [Visit(root, tree)];
    ghost var all := Preorder(root, tree);
    assert Pending(stack) == all + Pending([]);
    while stack != []
      invariant |files| <= MAX_INDEX_FILES && files + Pending(stack) == all
      decreases StackSize(stack)
    {
      var current := stack[|stack| - 1];
      files, stack, truncated := Enter(current, stack[..|stack| - 1], read(current.path, current.tree), files, all);
      if truncated {
        return;
      }
    }
  }

  lemma FoldersPushed(v: Visit, rest: seq<Visit>, folders: seq<string>)
    requires v.tree.readable && folders == FoldersOf(v.tree, Names(v.tree))
    ensures var stack := rest + Reversed(v.path, v.tree, folders);
      Pending(stack) == Later(v, rest) && StackSize(stack) < Size(v.tree) + StackSize(rest)
  {
    PendingPushed(rest, v.path, v.tree, folders);
  }

  /** What is still to come after the files of a directory. */
  ghost function Later(v: Visit, rest: seq<Visit>): seq<Path> {
    PreorderAll(v.path, v.tree, FoldersOf(v.tree, Names(v.tree))) + Pending(rest)
  }

  lemma OwnFirst<T>(before: seq<T>, own: seq<T>, below: seq<T>, rest: seq<T>)
    ensures before + ((own + below) + rest) == (before + own) + (below + rest)
  {
  }

  lemma AllSplit(v: Visit, rest: seq<Visit>, before: seq<Path>, all: seq<Path>)
    requires v.tree.readable && all == before + (Preorder(v.path, v.tree) + Pending(rest))
    ensures all == (before + FilesOf(v.path, v.tree, Names(v.tree))) + Later(v, rest)
  {
    var names := Names(v.tree);
    OwnFirst(before, FilesOf(v.path, v.tree, names), PreorderAll(v.path, v.tree, FoldersOf(v.tree, names)), Pending(rest));
  }

  lemma NothingRead(v: Visit, rest: seq<Visit>, before: seq<Path>)
    requires !v.tree.readable
    ensures before + (Preorder(v.path, v.tree) + Pending(rest)) == before + Pending(rest)
    ensures StackSize(rest) < Size(v.tree) + StackSize(rest)
  {
    assert Preorder(v.path, v.tree) == [];
    assert [] + Pending(rest) == Pending(rest);
  }

  /** One turn of the walk. */
  method Enter(v: Visit, rest: seq<Visit>, listing: seq<string>, before: seq<Path>, ghost all: seq<Path>)
    returns (files: seq<Path>, stack: seq<Visit>, truncated: bool)
    requires Lists(listing, v.tree.children.Keys) && |before| <= MAX_INDEX_FILES
    requires all == before + (Preorder(v.path, v.tree) + Pending(rest))
    ensures truncated ==> |all| > MAX_INDEX_FILES && files == Cut(all)
    ensures !truncated ==> |files| <= MAX_INDEX_FILES && files + Pending(stack) == all
    ensures !truncated ==> StackSize(stack) < Size(v.tree) + StackSize(rest)
  {
    if v.tree.readable {
      AllSplit(v, rest, before, all);
      files, stack, truncated := EnterReadable(v, rest, listing, before, all, Later(v, rest));
    } else {
      NothingRead(v, rest, before);
      files, stack, truncated := before, rest, false;
    }
  }

  method EnterReadable(v: Visit, rest: seq<Visit>, listing: seq<string>, before: seq<Path>, ghost all: seq<Path>, ghost later: seq<Path>)
    returns (files: seq<Path>, stack: seq<Visit>, truncated: bool)
    requires v.tree.readable && Lists(listing, v.tree.children.Keys) && |before| <= MAX_INDEX_FILES
    requires later == Later(v, rest) && all == (before + FilesOf(v.path, v.tree, Names(v.tree))) + later
    ensures truncated ==> |all| > MAX_INDEX_FILES && files == Cut(all)
    ensures !truncated ==> |files| <= MAX_INDEX_FILES && files + Pending(stack) == all
    ensures !truncated ==> StackSize(stack) < Size(v.tree) + StackSize(rest)
  {
    var folders;
    stack := rest;
    files, folders, truncated := ScanSorted(v, listing, before);
    if truncated {
      Overrun(before + FilesOf(v.path, v.tree, Names(v.tree)), later, files, all);
    } else {
      FoldersPushed(v, rest, folders);
      stack := rest + Reversed(v.path, v.tree, folders);
    }
  }

  method ScanSorted(v: Visit, listing: seq<string>, before: seq<Path>)
    returns (files: seq<Path>, folders: seq<string>, truncated: bool)
    requires Lists(listing, v.tree.children.Keys) && |before| <= MAX_INDEX_FILES
    ensures var own := FilesOf(v.path, v.tree, Names(v.tree));
      && (!truncated ==> files == before + own && folders == FoldersOf(v.tree, Names(v.tree)) && |files| <= MAX_INDEX_FILES)
      && (truncated ==> |files| == MAX_INDEX_FILES && files < before + own)
  {
    ListingNames(v.tree, listing);
    files, folders, truncated := Scan(v.path, v.tree, Sort(listing, StrLe), before);
  }

  lemma Overrun(own: seq<Path>, later: seq<Path>, files: seq<Path>, all: seq<Path>)
    requires files < own && all == own + later && |files| == MAX_INDEX_FILES
    ensures |all| > MAX_INDEX_FILES && files == Cut(all)
  {
    assert forall i :: 0 <= i < |files| ==> all[i] == own[i];
  }

  // ---------------------------------------------------- what the traversal lists

  /** Following `rel` from `t` goes through readable, entered folders to a wanted file. */
  predicate Reaches(t: Tree, rel: Path) {
    && t.readable && rel != [] && rel[0] in t.children
    && if |rel| == 1 then Wanted(t, rel[0]) else Entered(t, rel[0]) && Reaches(t.children[rel[0]].tree, rel[1..])
  }

  lemma {:induction false} InFiles(path: Path, t: Tree, names: seq<string>, rel: Path)
    requires Within(t, names)
    ensures path + rel in FilesOf(path, t, names) <==> |rel| == 1 && rel[0] in names && Wanted(t, rel[0])
  {
    if names != [] {
      InFiles(path, t, names[1..], rel);
      SamePath(path, rel, [names[0]]);
      assert names == [names[0]] + names[1..];
    }
  }

  lemma SamePath(path: Path, a: Path, b: Path)
    ensures path + a == path + b <==> a == b
  {
    assert (path + a)[|path|..] == a && (path + b)[|path|..] == b;
  }

  lemma {:induction false} InFolders(t: Tree, names: seq<string>, n: string)
    requires Within(t, names)
    ensures n in FoldersOf(t, names) <==> n in names && Entered(t, n)
  {
    if names != [] {
      InFolders(t, names[1..], n);
      assert names == [names[0]] + names[1..];
    }
  }

  /** A file is listed exactly when it is reachable. */
  lemma {:induction false} InPreorder(path: Path, t: Tree, rel: Path)
    ensures path + rel in Preorder(path, t) <==> Reaches(t, rel)
    decreases t, 1, 0
  {
    if t.readable {
      InFiles(path, t, Names(t), rel);
      InPreorderAll(path, t, FoldersOf(t, Names(t)), rel);
      if rel != [] {
        InFolders(t, Names(t), rel[0]);
      }
    }
  }

  lemma {:induction false} InPreorderAll(path: Path, t: Tree, names: seq<string>, rel: Path)
    requires Folders(t, names)
    ensures path + rel in PreorderAll(path, t, names) <==>
      |rel| > 1 && rel[0] in names && Reaches(t.children[rel[0]].tree, rel[1..])
    decreases t, 0, |names|
  {
    if names != [] {
      var n, k := names[0], t.children[names[0]];
      InPreorderAll(path, t, names[1..], rel);
      assert names == [n] + names[1..];
      if rel != [] && rel[0] == n {
        Deeper(path, n, rel);
        InPreorder(path + [n], k.tree, rel[1..]);
      } else if path + rel in Preorder(path + [n], k.tree) {
        Under(path + [n], k.tree, path + rel);
        StartsWith(path, n, rel);
      }
    }
  }

  lemma Deeper(path: Path, n: string, rel: Path)
    requires rel != [] && rel[0] == n
    ensures path + rel == (path + [n]) + rel[1..]
  {
  }

  lemma StartsWith(path: Path, n: string, rel: Path)
    requires path + [n] < path + rel
    ensures rel != [] && rel[0] == n
  {
    assert (path + rel)[|path|] == (path + [n])[|path|];
  }

  lemma {:induction false} FilesUnder(path: Path, t: Tree, names: seq<string>, p: Path)
    requires Within(t, names) && p in FilesOf(path, t, names)
    ensures path < p
  {
    if names != [] && p != path + [names[0]] {
      FilesUnder(path, t, names[1..], p);
    }
  }

  lemma {:induction false} Under(path: Path, t: Tree, p: Path)
    requires p in Preorder(path, t)
    ensures path < p
    decreases t, 1, 0
  {
    if p in FilesOf(path, t, Names(t)) {
      FilesUnder(path, t, Names(t), p);
    } else {
      UnderAll(path, t, FoldersOf(t, Names(t)), p);
    }
  }

  lemma {:induction false} UnderAll(path: Path, t: Tree, names: seq<string>, p: Path)
    requires Folders(t, names) && p in PreorderAll(path, t, names)
    ensures path < p
    ensures |p| > |path| + 1 && p[|path|] in names
    decreases t, 0, |names|
  {
    var k := t.children[names[0]];
    if p in Preorder(path + [names[0]], k.tree) {
      Under(path + [names[0]], k.tree, p);
      assert p[|path|] == (path + [names[0]])[|path|];
    } else {
      UnderAll(path, t, names[1..], p);
    }
  }

  lemma {:induction false} FilesDistinct(path: Path, t: Tree, names: seq<string>)
    requires Within(t, names) && Distinct(names)
    ensures Distinct(FilesOf(path, t, names))
  {
    if names != [] {
      FilesDistinct(path, t, names[1..]);
      InFiles(path, t, names[1..], [names[0]]);
      DistinctTail(names, names[0]);
    }
  }

  lemma {:induction false} FoldersDistinct(t: Tree, names: seq<string>)
    requires Within(t, names) && Distinct(names)
    ensures Distinct(FoldersOf(t, names))
  {
    if names != [] {
      FoldersDistinct(t, names[1..]);
      InFolders(t, names[1..], names[0]);
      DistinctTail(names, names[0]);
    }
  }

  /** No file is listed twice. */
  lemma {:induction false} PreorderDistinct(path: Path, t: Tree)
    ensures Distinct(Preorder(path, t))
    decreases t, 1, 0
  {
    if t.readable {
      var names, folders := Names(t), FoldersOf(t, Names(t));
      FilesDistinct(path, t, names);
      FoldersDistinct(t, names);
      PreorderAllDistinct(path, t, folders);
      var a, b := FilesOf(path, t, names), PreorderAll(path, t, folders);
      forall i, j | 0 <= i < |a| && 0 <= j < |b|
        ensures a[i] != b[j]
      {
        FileShort(path, t, names, a[i]);
        UnderAll(path, t, folders, b[j]);
      }
      DistinctConcat(a, b);
    }
  }

  lemma {:induction false} FileShort(path: Path, t: Tree, names: seq<string>, p: Path)
    requires Within(t, names) && p in FilesOf(path, t, names)
    ensures |p| == |path| + 1
  {
    if names != [] && p != path + [names[0]] {
      FileShort(path, t, names[1..], p);
    }
  }

  lemma {:induction false} PreorderAllDistinct(path: Path, t: Tree, names: seq<string>)
    requires Folders(t, names) && Distinct(names)
    ensures Distinct(PreorderAll(path, t, names))
    decreases t, 0, |names|
  {
    if names != [] {
      var n, k := names[0], t.children[names[0]];
      PreorderDistinct(path + [n], k.tree);
      PreorderAllDistinct(path, t, names[1..]);
      DistinctTail(names, n);
      var a, b := Preorder(path + [n], k.tree), PreorderAll(path, t, names[1..]);
      forall i, j | 0 <= i < |a| && 0 <= j < |b|
        ensures a[i] != b[j]
      {
        Under(path + [n], k.tree, a[i]);
        assert a[i][|path|] == (path + [n])[|path|];
        UnderAll(path, t, names[1..], b[j]);
      }
      DistinctConcat(a, b);
    }
  }
}
