/** The helper's walk with its global list and flag (embedded in apps/api/internal/kubevirt/cloudinit.go),
    and the check that the API makes of its output (apps/api/internal/vmfiles/snapshot.go). */
module FileSnapshot {
  import opened FileTree

  // ------------------------------------------------------------------- paths

  function Join(names: seq<string>): string {
    if names == [] then ""
    else if |names| == 1 then names[0]
    else Join(names[..|names| - 1]) + "/" + names[|names| - 1]
  }

  function KindOf(isDir: bool): string {
    if isDir then "directory" else "file"
  }

  function ItemOf(f: Found): Item {
    Item(Join(f.names), if f.names == [] then "" else f.names[|f.names| - 1], KindOf(f.isDir), |f.names|)
  }

  function ItemsOf(fs: seq<Found>): (items: seq<Item>)
    ensures |items| == |fs| && forall i :: 0 <= i < |fs| ==> items[i] == ItemOf(fs[i])
  {
    seq(|fs|, i requires 0 <= i < |fs| => ItemOf(fs[i]))
  }

  lemma ItemsJoin(first: Found, deeper: seq<Found>, later: seq<Found>)
    ensures ItemsOf([first] + deeper + later) == [ItemOf(first)] + ItemsOf(deeper) + ItemsOf(later)
  {
  }

  /** No name is empty, so a path is empty only at the root. */
  predicate Named(names: seq<string>) {
    forall i :: 0 <= i < |names| ==> names[i] != ""
  }

  lemma JoinOneMore(names: seq<string>, name: string)
    requires Named(names)
    ensures Join(names + [name]) == if Join(names) != "" then Join(names) + "/" + name else name
  {
    assert (names + [name])[..|names|] == names;
  }

  // -------------------------------------------------------------------- the walk

  /** The items below one directory whose sorted entries are given. */
  function Emitted(es: seq<Entry>, above: seq<string>): seq<Item>
    requires |above| < MAX_DEPTH
  {
    ItemsOf(Preorder(es, above))
  }

  /** The items of one entry and of what is below it. */
  function EmittedHere(e: Entry, above: seq<string>): seq<Item>
    requires |above| < MAX_DEPTH
  {
    if Shown(e) then [ItemOf(Found(above + [e.name], e.node.Directory?))] + ItemsOf(Deeper(e, above)) else []
  }

  lemma EmittedNext(es: seq<Entry>, above: seq<string>)
    requires |above| < MAX_DEPTH && es != []
    ensures Emitted(es, above) == EmittedHere(es[0], above) + Emitted(es[1..], above)
  {
    PreorderNext(es, above);
    ItemsJoin(Found(above + [es[0].name], es[0].node.Directory?), Deeper(es[0], above), Preorder(es[1..], above));
  }

  /** What has been emitted, with what is still to come from place i on. */
  lemma EmittedFrom(items: seq<Item>, es: seq<Entry>, i: nat, above: seq<string>)
    requires |above| < MAX_DEPTH && i < |es|
    ensures items + Emitted(es[i..], above) == (items + EmittedHere(es[i], above)) + Emitted(es[i + 1..], above)
  {
    EmittedNext(es[i..], above);
    assert es[i..][0] == es[i] && es[i..][1..] == es[i + 1..];
  }

  /** The first `n` of a list that may be shorter. */
  function Cut(items: seq<Item>, n: nat): seq<Item> {
    if |items| <= n then items else items[..n]
  }

  lemma CutPrefix(a: seq<Item>, b: seq<Item>, n: nat)
    requires |a| > n || (|a| == n && b != [])
    ensures Cut(a + b, n) == Cut(a, n) && |a + b| > n
  {
  }

  lemma Reassociate(a: seq<Item>, item: Item, b: seq<Item>)
    ensures a + ([item] + b) == a + [item] + b
  {
  }

  lemma ChildItem(above: seq<string>, e: Entry)
    requires Named(above)
    ensures var path := if Join(above) != "" then Join(above) + "/" + e.name else e.name;
      && path == Join(above + [e.name])
      && ItemOf(Found(above + [e.name], e.node.Directory?)) ==
         Item(path, e.name, KindOf(e.node.Directory?), |above| + 1)
  {
    JoinOneMore(above, e.name);
  }

  class FileWalk {
    var items: seq<Item>
    var truncated: bool

    constructor ()
      ensures items == [] && !truncated
    {
      items, truncated := [], false;
    }

    /** One round of the loop: a visible entry, and what is below it. */
    method Visit(e: Entry, relative: string, depth: nat, ghost above: seq<string>)
      requires Shown(e) && NameOk(e.name) && InsideOk(e) && |items| <= MAX_ENTRIES && !truncated
      requires depth == |above| + 1 <= MAX_DEPTH && relative == Join(above) && Named(above)
      modifies this
      ensures var whole := old(items) + EmittedHere(e, above);
        items == Cut(whole, MAX_ENTRIES) && (truncated <==> |whole| > MAX_ENTRIES)
      decreases MAX_DEPTH - depth, 0
    {
      ChildItem(above, e);
      var path := if relative != "" then relative + "/" + e.name else e.name;
      var item := Item(path, e.name, KindOf(e.node.Directory?), depth);
      if |items| >= MAX_ENTRIES {
        CutPrefix(items, [item] + ItemsOf(Deeper(e, above)), MAX_ENTRIES);
        truncated := true;
        return;
      }
      Reassociate(items, item, ItemsOf(Deeper(e, above)));
      items := items + [item];
      if e.node.Directory? && depth < MAX_DEPTH {
        Walk(Inside(e), path, depth + 1, above + [e.name]);
      }
    }

    /** Appends the items below one directory, cut at MAX_ENTRIES in all, and reports a cut. */
    method Walk(children: seq<Entry>, relative: string, depth: nat, ghost above: seq<string>)
      requires WellFormed(children) && |items| <= MAX_ENTRIES && !truncated
      requires depth == |above| + 1 <= MAX_DEPTH && relative == Join(above) && Named(above)
      modifies this
      ensures var whole := old(items) + Emitted(SortByName(children), above);
        items == Cut(whole, MAX_ENTRIES) && (truncated <==> |whole| > MAX_ENTRIES)
      decreases MAX_DEPTH - depth, 1
    {
      var entries := SortByName(children);
      ghost var whole := items + Emitted(entries, above);
      SortWellFormed(children);
      assert entries[0..] == entries;
      var i := 0;
      while i < |entries|
        invariant 0 <= i <= |entries| && |items| <= MAX_ENTRIES && !truncated
        invariant items + Emitted(entries[i..], above) == whole
      {
        var e := entries[i];
        EmittedFrom(items, entries, i, above);
        if Shown(e) {
          ghost var before := items;
          Visit(e, relative, depth, above);
          if truncated {
            CutPrefix(before + EmittedHere(e, above), Emitted(entries[i + 1..], above), MAX_ENTRIES);
            return;
          }
        }
        i := i + 1;
      }
      assert Emitted(entries[i..], above) == [];
    }

    /** list_files: the first 500 of the full listing, and the flag exactly when there are more. */
    method ListFiles(root: seq<Entry>) returns (s: Snapshot)
      requires WellFormed(root) && items == [] && !truncated
      modifies this
      ensures items == Cut(ItemsOf(Listing(root)), MAX_ENTRIES) && (truncated <==> |Listing(root)| > MAX_ENTRIES)
      ensures s == Printed(root) && s.root == "/home/lab"
      ensures |s.items| <= 500 && forall i :: 0 <= i < |s.items| ==> Shows(root, s.items[i])
      ensures !s.truncated ==> forall item :: Shows(root, item) ==> item in s.items
    {
      Walk(root, "", 1, []);
      assert [] + Emitted(SortByName(root), []) == ItemsOf(Listing(root));
      s := Snapshot(ROOT, items, truncated);
      PrintedShows(root);
    }
  }

  // ------------------------------------------------------- Go's path functions

  /** strings.Split(s, "/"). */
  function Split(s: string): (parts: seq<string>)
    ensures parts != []
  {
    if s == "" then [""]
    else
      var rest := Split(s[1..]);
      if s[0] == '/' then [""] + rest else [[s[0]] + rest[0]] + rest[1..]
  }

  function CleanNames(parts: seq<string>, out: seq<string>, rooted: bool): seq<string> {
    if parts == [] then out
    else if parts[0] == "" || parts[0] == "." then CleanNames(parts[1..], out, rooted)
    else if parts[0] == ".." then
      if out != [] && out[|out| - 1] != ".." then CleanNames(parts[1..], out[..|out| - 1], rooted)
      else if rooted then CleanNames(parts[1..], out, rooted)
      else CleanNames(parts[1..], out + [".."], rooted)
    else CleanNames(parts[1..], out + [parts[0]], rooted)
  }

  /** path.Clean. */
  function Clean(path: string): string {
    if path == "" then "."
    else
      var rooted := path[0] == '/';
      var out := CleanNames(Split(path), [], rooted);
      if rooted then "/" + Join(out) else if out == [] then "." else Join(out)
  }

  function TrimSlashes(path: string): string {
    if path != "" && path[|path| - 1] == '/' then TrimSlashes(path[..|path| - 1]) else path
  }

  /** path.Base. */
  function Base(path: string): string {
    var trimmed := TrimSlashes(path);
    if path == "" then "."
    else if trimmed == "" then "/"
    else var parts := Split(trimmed); parts[|parts| - 1]
  }

  // ----------------------------------------------------------- the validation

  predicate IsControl(c: char) {
    c as int <= 0x1F || 0x7F <= c as int <= 0x9F
  }

  predicate SafePart(part: string) {
    part != "" && !("." <= part) && forall i :: 0 <= i < |part| ==> !IsControl(part[i])
  }

  predicate ValidRelativePath(path: string) {
    && path != "" && path[0] != '/' && Clean(path) == path
    && '\\' !in path
    && forall i :: 0 <= i < |Split(path)| ==> SafePart(Split(path)[i])
  }

  predicate ValidEntry(item: Item) {
    && (item.kind == "file" || item.kind == "directory")
    && ValidRelativePath(item.path)
    && |Split(item.path)| <= MAX_DEPTH && item.depth == |Split(item.path)|
    && item.name == Base(item.path)
  }

  // ----------------------------------------------------------------- round trips

  lemma {:induction false} SplitPlain(a: string)
    requires '/' !in a
    ensures Split(a) == [a]
  {
    if a != "" {
      assert a[0] in a;
      SplitPlain(a[1..]);
      assert [a[0]] + a[1..] == a;
    }
  }

  lemma {:induction false} SplitLast(a: string, b: string)
    requires '/' !in b
    ensures Split(a + "/" + b) == Split(a) + [b]
  {
    var s := a + "/" + b;
    if a == "" {
      assert s[0] == '/' && s[1..] == b;
      SplitPlain(b);
    } else {
      assert s[1..] == a[1..] + "/" + b;
      SplitLast(a[1..], b);
      assert s[0] == a[0];
      var rest := Split(a[1..]);
      assert (rest + [b])[1..] == rest[1..] + [b];
    }
  }

  predicate Ordinary(names: seq<string>) {
    forall i :: 0 <= i < |names| ==> NameOk(names[i]) && !("." <= names[i])
  }

  /** Splitting undoes joining. */
  lemma {:induction false} SplitJoin(names: seq<string>)
    requires names != [] && Ordinary(names)
    ensures Split(Join(names)) == names
  {
    var n := |names| - 1;
    assert NameOk(names[n]);
    if n == 0 {
      SplitPlain(names[0]);
    } else {
      SplitJoin(names[..n]);
      SplitLast(Join(names[..n]), names[n]);
    }
  }

  lemma {:induction false} CleanKeeps(parts: seq<string>, out: seq<string>, rooted: bool)
    requires Ordinary(parts)
    ensures CleanNames(parts, out, rooted) == out + parts
  {
    if parts != [] {
      assert !("." <= parts[0]);
      CleanKeeps(parts[1..], out + [parts[0]], rooted);
      assert out + parts == out + [parts[0]] + parts[1..];
    }
  }

  lemma {:induction false} JoinEnds(names: seq<string>)
    requires names != [] && Ordinary(names)
    ensures var path := Join(names); path != "" && path[0] != '/' && path[|path| - 1] != '/'
  {
    var n := |names| - 1;
    assert NameOk(names[n]);
    assert names[n][|names[n]| - 1] in names[n] && names[n][0] in names[n];
    if n > 0 { JoinEnds(names[..n]); }
  }

  lemma {:induction false} JoinHolds(names: seq<string>, c: char)
    requires c != '/'
    ensures c in Join(names) <==> exists i :: 0 <= i < |names| && c in names[i]
  {
    var n := |names| - 1;
    if n > 0 {
      JoinHolds(names[..n], c);
      assert forall i :: 0 <= i < n ==> names[..n][i] == names[i];
    }
  }

  lemma {:induction false} LeadsOrdinary(es: seq<Entry>, names: seq<string>, isDir: bool)
    requires WellFormed(es) && Leads(es, names, isDir)
    ensures Ordinary(names)
    decreases |names|
  {
    var e :| e in es && e.name == names[0] && Shown(e) && Reaches(e, names, isDir);
    if |names| > 1 {
      assert WellFormed(Inside(e));
      LeadsOrdinary(Inside(e), names[1..], isDir);
    }
    forall i | 0 <= i < |names| ensures NameOk(names[i]) && !("." <= names[i]) {
      if i > 0 { assert names[i] == names[1..][i - 1]; }
    }
  }

  /** No backslash and no control character. */
  predicate Plain(name: string) {
    '\\' !in name && forall i :: 0 <= i < |name| ==> !IsControl(name[i])
  }

  predicate AllPlain(names: seq<string>) {
    forall i :: 0 <= i < |names| ==> Plain(names[i])
  }

  lemma {:induction false} JoinedClean(names: seq<string>)
    requires names != [] && Ordinary(names)
    ensures Clean(Join(names)) == Join(names)
  {
    SplitJoin(names);
    JoinEnds(names);
    CleanKeeps(names, [], false);
    assert [] + names == names;
  }

  lemma {:induction false} JoinedBase(names: seq<string>)
    requires names != [] && Ordinary(names)
    ensures Base(Join(names)) == names[|names| - 1]
  {
    JoinEnds(names);
    assert TrimSlashes(Join(names)) == Join(names);
    SplitJoin(names);
  }

  lemma {:induction false} JoinedPath(names: seq<string>)
    requires names != [] && Ordinary(names)
    ensures var path := Join(names);
      path != "" && path[0] != '/' && Split(path) == names && Clean(path) == path && Base(path) == names[|names| - 1]
  {
    SplitJoin(names);
    JoinedClean(names);
    JoinedBase(names);
    JoinEnds(names);
  }

  lemma OrdinaryValidIff(f: Found)
    requires f.names != [] && |f.names| <= MAX_DEPTH && Ordinary(f.names)
    ensures ValidEntry(ItemOf(f)) <==> AllPlain(f.names)
  {
    JoinedPath(f.names);
    JoinHolds(f.names, '\\');
    if AllPlain(f.names) {
      forall i | 0 <= i < |f.names| ensures SafePart(f.names[i]) { assert Plain(f.names[i]) && NameOk(f.names[i]); }
    }
    if ValidEntry(ItemOf(f)) {
      forall i | 0 <= i < |f.names| ensures Plain(f.names[i]) { assert SafePart(Split(Join(f.names))[i]); }
    }
  }

  /** A listed entry passes the API's check exactly when its names are plain. */
  lemma ListedValidIff(root: seq<Entry>, f: Found)
    requires WellFormed(root) && f in Listing(root)
    ensures ValidEntry(ItemOf(f)) <==> AllPlain(f.names)
  {
    ListingExact(root, f);
    LeadsOrdinary(root, f.names, f.isDir);
    OrdinaryValidIff(f);
  }

  // -------------------------------------------------- what is printed, by itself

  /** The item's path leads to a visible entry, of which it gives the name, the kind and the depth. */
  ghost predicate Shows(root: seq<Entry>, item: Item) {
    var names := Split(item.path);
    && |names| <= MAX_DEPTH && item.depth == |names| && item.name == names[|names| - 1]
    && (item.kind == "directory" || item.kind == "file")
    && (item.kind == "directory" <==> Leads(root, names, true))
    && (item.kind == "file" <==> Leads(root, names, false))
  }

  /** Names are distinct, so a path leads to one entry only. */
  lemma {:induction false} LeadsOnce(es: seq<Entry>, names: seq<string>)
    requires WellFormed(es)
    ensures !(Leads(es, names, true) && Leads(es, names, false))
    decreases |names|
  {
    if Leads(es, names, true) && Leads(es, names, false) {
      var e :| e in es && e.name == names[0] && Shown(e) && Reaches(e, names, true);
      var f :| f in es && f.name == names[0] && Shown(f) && Reaches(f, names, false);
      assert e == f;
      if |names| > 1 { LeadsOnce(Inside(e), names[1..]); }
      assert false;
    }
  }

  lemma LeadsToOne(root: seq<Entry>, names: seq<string>, isDir: bool)
    requires WellFormed(root) && Leads(root, names, isDir)
    ensures (Leads(root, names, true) <==> isDir) && (Leads(root, names, false) <==> !isDir)
  {
    LeadsOnce(root, names);
  }

  lemma ItemShows(root: seq<Entry>, names: seq<string>, isDir: bool)
    requires WellFormed(root) && Leads(root, names, isDir) && |names| <= MAX_DEPTH
    ensures Shows(root, ItemOf(Found(names, isDir)))
  {
    LeadsOrdinary(root, names, isDir);
    JoinedPath(names);
    LeadsToOne(root, names, isDir);
  }

  lemma FoundShows(root: seq<Entry>, f: Found)
    requires WellFormed(root) && f in Listing(root)
    ensures Shows(root, ItemOf(f))
  {
    ListingExact(root, f);
    ItemShows(root, f.names, f.isDir);
  }

  lemma {:induction false} JoinBefore(a: string, b: string, rest: seq<string>)
    ensures Join([a + b] + rest) == a + Join([b] + rest)
  {
    if rest != [] {
      var n := |rest| - 1;
      JoinBefore(a, b, rest[..n]);
      assert ([a + b] + rest)[..n + 1] == [a + b] + rest[..n] && ([b] + rest)[..n + 1] == [b] + rest[..n];
    }
  }

  lemma {:induction false} JoinSlash(rest: seq<string>)
    requires rest != []
    ensures Join([""] + rest) == "/" + Join(rest)
  {
    var n := |rest| - 1;
    assert ([""] + rest)[..n + 1] == [""] + rest[..n];
    if n > 0 { JoinSlash(rest[..n]); } else { assert Join([""]) == ""; }
  }

  /** Joining undoes splitting, and the parts have no slash. */
  lemma {:induction false} JoinSplit(s: string)
    ensures Join(Split(s)) == s && forall i :: 0 <= i < |Split(s)| ==> '/' !in Split(s)[i]
  {
    if s != "" {
      var rest := Split(s[1..]);
      JoinSplit(s[1..]);
      assert s == [s[0]] + s[1..];
      if s[0] == '/' {
        JoinSlash(rest);
      } else {
        JoinBefore([s[0]], rest[0], rest[1..]);
        assert [rest[0]] + rest[1..] == rest;
      }
    }
  }

  lemma ShowsFound(root: seq<Entry>, item: Item)
    requires WellFormed(root) && Shows(root, item)
    ensures var f := Found(Split(item.path), item.kind == "directory"); f in Listing(root) && ItemOf(f) == item
  {
    var names, isDir := Split(item.path), item.kind == "directory";
    assert Leads(root, names, isDir);
    ListingExact(root, Found(names, isDir));
    JoinSplit(item.path);
  }

  lemma PrintedShows(root: seq<Entry>)
    requires WellFormed(root)
    ensures var s := Printed(root);
      && (forall i :: 0 <= i < |s.items| ==> Shows(root, s.items[i]))
      && (!s.truncated ==> forall item :: Shows(root, item) ==> item in s.items)
  {
    var s, fs := Printed(root), Listing(root);
    forall i | 0 <= i < |s.items| ensures Shows(root, s.items[i]) {
      FoundShows(root, fs[i]);
      assert s.items[i] == ItemOf(fs[i]);
    }
    if !s.truncated {
      forall item | Shows(root, item) ensures item in s.items {
        ShowsFound(root, item);
        var f := Found(Split(item.path), item.kind == "directory");
        var i :| 0 <= i < |fs| && fs[i] == f;
        assert s.items[i] == ItemOf(f);
      }
    }
  }

  /** One to four plain names, none of them hidden or a way up: joined, the last one, and their number. */
  predicate Describes(item: Item) {
    var names := Split(item.path);
    && (item.kind == "file" || item.kind == "directory")
    && |names| <= 4 && Ordinary(names) && AllPlain(names)
    && item == Item(Join(names), names[|names| - 1], item.kind, |names|)
  }

  /** The API accepts an entry, from whatever machine it comes, exactly if it describes such a path. */
  lemma ValidEntryIff(item: Item)
    ensures ValidEntry(item) <==> Describes(item)
  {
    var names := Split(item.path);
    JoinSplit(item.path);
    if ValidEntry(item) {
      assert forall i :: 0 <= i < |names| ==> SafePart(names[i]);
      assert Ordinary(names);
      JoinedPath(names);
      OrdinaryValidIff(Found(names, item.kind == "directory"));
    } else if Ordinary(names) && |names| <= MAX_DEPTH {
      JoinedPath(names);
      OrdinaryValidIff(Found(names, item.kind == "directory"));
    }
  }

  const ROOT := "/home/lab"

  /** The JSON value that the helper prints. */
  datatype Snapshot = Snapshot(root: string, items: seq<Item>, truncated: bool)

  /** ParseSnapshot's checks of it. */
  predicate Accepts(s: Snapshot) {
    s.root == ROOT && |s.items| <= MAX_ENTRIES && forall i :: 0 <= i < |s.items| ==> ValidEntry(s.items[i])
  }

  /** And a snapshot exactly if it is of the learner's home, has at most 500 items and all of them do. */
  lemma AcceptedIff(s: Snapshot)
    ensures Accepts(s) <==>
      s.root == "/home/lab" && |s.items| <= 500 && forall i :: 0 <= i < |s.items| ==> Describes(s.items[i])
  {
    forall i | 0 <= i < |s.items| ensures ValidEntry(s.items[i]) <==> Describes(s.items[i]) {
      ValidEntryIff(s.items[i]);
    }
  }

  /** What list_files prints. */
  function Printed(root: seq<Entry>): Snapshot {
    Snapshot(ROOT, Cut(ItemsOf(Listing(root)), MAX_ENTRIES), |Listing(root)| > MAX_ENTRIES)
  }

  /** What the helper prints is accepted exactly when every printed path is plain. */
  lemma HelperAcceptedIff(root: seq<Entry>)
    requires WellFormed(root)
    ensures Accepts(Printed(root)) <==> forall i :: 0 <= i < |Printed(root).items| ==> AllPlain(Listing(root)[i].names)
  {
    var fs, items := Listing(root), Printed(root).items;
    forall i | 0 <= i < |items| ensures items[i] == ItemOf(fs[i]) && (ValidEntry(items[i]) <==> AllPlain(fs[i].names)) {
      ListedValidIff(root, fs[i]);
    }
  }
}
