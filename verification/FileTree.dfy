/** The bounded file-tree walk that the virtual machine's helper makes (`walk` and `list_files`, embedded in
    apps/api/internal/kubevirt/cloudinit.go): names in order, hidden entries and links skipped, four levels,
    500 entries. */
module FileTree {

  const MAX_ENTRIES := 500
  const MAX_DEPTH := 4

  /** `readable`: the directory can be scanned; StatFails: asking for the type raises an error. */
  datatype Node = File | Directory(children: seq<Entry>, readable: bool) | Symlink | Other | StatFails

  datatype Entry = Entry(name: string, node: Node)

  /** One element of the JSON list. */
  datatype Item = Item(path: string, name: string, kind: string, depth: int)

  predicate NameOk(name: string) {
    name != "" && '/' !in name
  }

  predicate DistinctNames(es: seq<Entry>) {
    forall i, j :: 0 <= i < j < |es| ==> es[i].name != es[j].name
  }

  /** What a file system guarantees of every directory. */
  predicate WellFormed(es: seq<Entry>)
    decreases es
  {
    && DistinctNames(es)
    && (forall i :: 0 <= i < |es| ==> NameOk(es[i].name) && (es[i].node.Directory? ==> WellFormed(es[i].node.children)))
  }

  predicate Shown(e: Entry) {
    !("." <= e.name) && (e.node.File? || e.node.Directory?)
  }

  /** What scanning finds inside. */
  function Inside(e: Entry): seq<Entry> {
    if e.node.Directory? && e.node.readable then e.node.children else []
  }

  // ------------------------------------------------------------ ordering names

  predicate NameLess(a: string, b: string) {
    b != [] && (a == [] || a[0] < b[0] || (a[0] == b[0] && NameLess(a[1..], b[1..])))
  }

  lemma {:induction false} NameTotal(a: string, b: string)
    ensures a == b || NameLess(a, b) || NameLess(b, a)
  {
    if a != [] && b != [] && a[0] == b[0] {
      NameTotal(a[1..], b[1..]);
      assert a == [a[0]] + a[1..] && b == [b[0]] + b[1..];
    }
  }

  lemma {:induction false} NameTransitive(a: string, b: string, c: string)
    requires NameLess(a, b) && NameLess(b, c)
    ensures NameLess(a, c)
  {
    if a != [] && a[0] == b[0] && b[0] == c[0] { NameTransitive(a[1..], b[1..], c[1..]); }
  }

  function Insert(e: Entry, es: seq<Entry>): seq<Entry> {
    if es == [] || NameLess(e.name, es[0].name) then [e] + es else [es[0]] + Insert(e, es[1..])
  }

  function SortByName(es: seq<Entry>): seq<Entry> {
    if es == [] then [] else Insert(es[0], SortByName(es[1..]))
  }

  predicate Ascending(es: seq<Entry>) {
    forall i, j :: 0 <= i < j < |es| ==> NameLess(es[i].name, es[j].name)
  }

  lemma {:induction false} InsertKeeps(e: Entry, es: seq<Entry>)
    requires Ascending(es) && forall i :: 0 <= i < |es| ==> es[i].name != e.name
    ensures Ascending(Insert(e, es)) && |Insert(e, es)| == |es| + 1
    ensures forall x :: x in Insert(e, es) <==> x == e || x in es
  {
    if es != [] {
      if NameLess(e.name, es[0].name) {
        forall j | 0 <= j < |es| ensures NameLess(e.name, es[j].name) {
          if j > 0 { NameTransitive(e.name, es[0].name, es[j].name); }
        }
      } else {
        NameTotal(e.name, es[0].name);
        InsertKeeps(e, es[1..]);
        var rest := Insert(e, es[1..]);
        forall j | 0 <= j < |rest| ensures NameLess(es[0].name, rest[j].name) { assert rest[j] in rest; }
        assert es == [es[0]] + es[1..];
      }
    }
  }

  /** Sorting a directory: the same entries, by strictly increasing name. */
  lemma {:induction false} SortSorts(es: seq<Entry>)
    requires DistinctNames(es)
    ensures Ascending(SortByName(es)) && |SortByName(es)| == |es|
    ensures forall x :: x in SortByName(es) <==> x in es
  {
    if es != [] {
      var rest := SortByName(es[1..]);
      SortSorts(es[1..]);
      forall i | 0 <= i < |rest| ensures rest[i].name != es[0].name { assert rest[i] in es[1..]; }
      InsertKeeps(es[0], rest);
      assert es == [es[0]] + es[1..];
    }
  }

  // ------------------------------------------------------------- the listing

  /** A visible entry by the names on the way to it. */
  datatype Found = Found(names: seq<string>, isDir: bool)

  /** What is listed below a directory, as far as the depth allows. */
  function Deeper(e: Entry, above: seq<string>): seq<Found>
    requires |above| < MAX_DEPTH
    decreases MAX_DEPTH - |above|, 0, 0
  {
    if e.node.Directory? && |above| + 1 < MAX_DEPTH then Preorder(SortByName(Inside(e)), above + [e.name]) else []
  }

  function Block(e: Entry, above: seq<string>): seq<Found>
    requires |above| < MAX_DEPTH
    decreases MAX_DEPTH - |above|, 0, 1
  {
    if Shown(e) then [Found(above + [e.name], e.node.Directory?)] + Deeper(e, above) else []
  }

  /** Each visible entry before what is below it, in the order of `es`. */
  function Preorder(es: seq<Entry>, above: seq<string>): seq<Found>
    requires |above| < MAX_DEPTH
    decreases MAX_DEPTH - |above|, |es|
  {
    if es == [] then [] else Block(es[0], above) + Preorder(es[1..], above)
  }

  lemma PreorderNext(es: seq<Entry>, above: seq<string>)
    requires |above| < MAX_DEPTH && es != []
    ensures var e, later := es[0], Preorder(es[1..], above);
      Preorder(es, above) ==
        if Shown(e) then [Found(above + [e.name], e.node.Directory?)] + Deeper(e, above) + later else later
  {
    var e, later := es[0], Preorder(es[1..], above);
    assert Preorder(es, above) == Block(e, above) + later;
    if !Shown(e) { assert Block(e, above) + later == later; }
  }

  function Listing(root: seq<Entry>): seq<Found> {
    Preorder(SortByName(root), [])
  }

  // ------------------------------------ what the listing is, without the walk

  /** The names, none of them hidden, lead from a directory to a file or directory through directories that
      can be read; a link leads nowhere. */
  ghost predicate Leads(es: seq<Entry>, names: seq<string>, isDir: bool)
    decreases |names|
  {
    names != [] && !("." <= names[0]) && exists e :: e in es && e.name == names[0] && Reaches(e, names, isDir)
  }

  ghost predicate Reaches(e: Entry, names: seq<string>, isDir: bool)
    requires names != []
    decreases |names|, 0
  {
    if |names| == 1 then (if isDir then e.node.Directory? else e.node.File?)
    else e.node.Directory? && e.node.readable && Leads(e.node.children, names[1..], isDir)
  }

  predicate PathLess(a: seq<string>, b: seq<string>) {
    b != [] && (a == [] || NameLess(a[0], b[0]) || (a[0] == b[0] && PathLess(a[1..], b[1..])))
  }

  predicate Increasing(fs: seq<Found>) {
    forall i, j :: 0 <= i < j < |fs| ==> PathLess(fs[i].names, fs[j].names)
  }

  /** The names of f go on below `above`. */
  predicate Below(above: seq<string>, f: Found) {
    above <= f.names && |above| < |f.names| <= MAX_DEPTH
  }

  predicate InsideOk(e: Entry) {
    e.node.Directory? ==> WellFormed(e.node.children)
  }

  lemma SortedInside(e: Entry)
    requires InsideOk(e)
    ensures var es := SortByName(Inside(e));
      WellFormed(es) && Ascending(es) && forall x :: x in es <==> x in Inside(e)
  {
    SortWellFormed(Inside(e));
  }

  lemma SortWellFormed(es: seq<Entry>)
    requires WellFormed(es)
    ensures var s := SortByName(es); WellFormed(s) && Ascending(s) && forall x :: x in s <==> x in es
  {
    SortSorts(es);
    var s := SortByName(es);
    forall i | 0 <= i < |s| ensures NameOk(s[i].name) && (s[i].node.Directory? ==> WellFormed(s[i].node.children)) {
      assert s[i] in es;
    }
    forall i, j | 0 <= i < j < |s| ensures s[i].name != s[j].name {
      assert NameLess(s[i].name, s[j].name);
      NotLessItself(s[i].name);
    }
  }

  lemma {:induction false} NotLessItself(a: string)
    ensures !NameLess(a, a)
  {
    if a != [] { NotLessItself(a[1..]); }
  }

  lemma LeadsSame(es: seq<Entry>, es': seq<Entry>, names: seq<string>, isDir: bool)
    requires Leads(es, names, isDir) && forall x :: x in es ==> x in es'
    ensures Leads(es', names, isDir)
  {
  }

  lemma InBlock(e: Entry, above: seq<string>, f: Found)
    requires |above| < MAX_DEPTH && f in Block(e, above)
    ensures Shown(e) && (f == Found(above + [e.name], e.node.Directory?) || f in Deeper(e, above))
  {
  }

  lemma {:induction false} BlockSound(e: Entry, above: seq<string>, f: Found)
    requires |above| < MAX_DEPTH && InsideOk(e) && f in Block(e, above)
    ensures Below(above, f) && Shown(e) && f.names[|above|] == e.name && Reaches(e, f.names[|above|..], f.isDir)
    decreases MAX_DEPTH - |above|, 0, 1
  {
    InBlock(e, above, f);
    if f in Deeper(e, above) { DeeperSound(e, above, f); }
  }

  lemma {:induction false} DeeperSound(e: Entry, above: seq<string>, f: Found)
    requires |above| < MAX_DEPTH && InsideOk(e) && f in Deeper(e, above)
    ensures Below(above, f) && f.names[|above|] == e.name && Reaches(e, f.names[|above|..], f.isDir)
    decreases MAX_DEPTH - |above|, 0, 0
  {
    var names := above + [e.name];
    SortedInside(e);
    PreorderSound(SortByName(Inside(e)), names, f);
    assert f.names[|above|..][1..] == f.names[|names|..];
    LeadsSame(SortByName(Inside(e)), Inside(e), f.names[|names|..], f.isDir);
    assert f.names[..|above|] == names[..|above|] == above;
    assert f.names[|above|] == names[|above|];
  }

  /** Whatever is listed is visible at the end of its names. */
  lemma {:induction false} PreorderSound(es: seq<Entry>, above: seq<string>, f: Found)
    requires |above| < MAX_DEPTH && WellFormed(es) && f in Preorder(es, above)
    ensures Below(above, f) && Leads(es, f.names[|above|..], f.isDir)
    decreases MAX_DEPTH - |above|, |es|
  {
    if f in Block(es[0], above) {
      BlockSound(es[0], above, f);
      assert es[0] in es;
    } else {
      PreorderSound(es[1..], above, f);
      LeadsSame(es[1..], es, f.names[|above|..], f.isDir);
    }
  }

  lemma {:induction false} BlockListed(es: seq<Entry>, above: seq<string>, e: Entry, f: Found)
    requires |above| < MAX_DEPTH && e in es && f in Block(e, above)
    ensures f in Preorder(es, above)
  {
    if e != es[0] { BlockListed(es[1..], above, e, f); }
  }

  lemma {:induction false} BlockComplete(e: Entry, above: seq<string>, names: seq<string>, isDir: bool)
    requires InsideOk(e) && Shown(e) && names != [] && names[0] == e.name && Reaches(e, names, isDir)
    requires |above| + |names| <= MAX_DEPTH
    ensures Found(above + names, isDir) in Block(e, above)
    decreases |names|, 0
  {
    if |names| == 1 {
      assert names == [e.name];
    } else {
      SortedInside(e);
      LeadsSame(Inside(e), SortByName(Inside(e)), names[1..], isDir);
      PreorderComplete(SortByName(Inside(e)), above + [e.name], names[1..], isDir);
      assert above + [e.name] + names[1..] == above + names;
    }
  }

  /** Whatever is visible within the depth is listed. */
  lemma {:induction false} PreorderComplete(es: seq<Entry>, above: seq<string>, names: seq<string>, isDir: bool)
    requires WellFormed(es) && Leads(es, names, isDir) && |above| + |names| <= MAX_DEPTH
    ensures Found(above + names, isDir) in Preorder(es, above)
    decreases |names|
  {
    var e :| e in es && e.name == names[0] && Shown(e) && Reaches(e, names, isDir);
    BlockComplete(e, above, names, isDir);
    BlockListed(es, above, e, Found(above + names, isDir));
  }

  // ------------------------------------------------------------- its order

  lemma {:induction false} DivergesLess(a: seq<string>, b: seq<string>, k: nat)
    requires k < |a| && k < |b| && a[..k] == b[..k] && NameLess(a[k], b[k])
    ensures PathLess(a, b)
  {
    if k > 0 {
      assert a[0] == a[..k][0] == b[..k][0] == b[0];
      assert a[1..][..k - 1] == a[..k][1..] && b[1..][..k - 1] == b[..k][1..];
      DivergesLess(a[1..], b[1..], k - 1);
    }
  }

  lemma {:induction false} ExtensionLess(a: seq<string>, b: seq<string>)
    requires a <= b && |a| < |b|
    ensures PathLess(a, b)
  {
    if a != [] { ExtensionLess(a[1..], b[1..]); }
  }

  lemma IncreasingJoin(a: seq<Found>, b: seq<Found>)
    requires Increasing(a) && Increasing(b) && forall x, y :: x in a && y in b ==> PathLess(x.names, y.names)
    ensures Increasing(a + b)
  {
  }

  lemma {:induction false} BlockIncreasing(e: Entry, above: seq<string>)
    requires |above| < MAX_DEPTH && InsideOk(e)
    ensures Increasing(Block(e, above))
    decreases MAX_DEPTH - |above|, 0
  {
    var names := above + [e.name];
    if Shown(e) && e.node.Directory? && |names| < MAX_DEPTH {
      var es := SortByName(Inside(e));
      SortedInside(e);
      PreorderIncreasing(es, names);
      forall y | y in Preorder(es, names) ensures PathLess(names, y.names) {
        PreorderSound(es, names, y);
        ExtensionLess(names, y.names);
      }
      IncreasingJoin([Found(names, true)], Preorder(es, names));
    }
  }

  /** The listing increases strictly, name by name along the path. */
  lemma {:induction false} PreorderIncreasing(es: seq<Entry>, above: seq<string>)
    requires |above| < MAX_DEPTH && WellFormed(es) && Ascending(es)
    ensures Increasing(Preorder(es, above))
    decreases MAX_DEPTH - |above|, |es|
  {
    if es != [] {
      BlockIncreasing(es[0], above);
      PreorderIncreasing(es[1..], above);
      forall x, y | x in Block(es[0], above) && y in Preorder(es[1..], above) ensures PathLess(x.names, y.names) {
        BlockSound(es[0], above, x);
        PreorderSound(es[1..], above, y);
        assert y.names[|above|..][0] == y.names[|above|];
        assert x.names[..|above|] == y.names[..|above|];
        DivergesLess(x.names, y.names, |above|);
      }
      IncreasingJoin(Block(es[0], above), Preorder(es[1..], above));
    }
  }

  /** The full listing holds exactly the visible entries to depth four, each once, in strictly increasing
      path order; the order in which directories are scanned plays no part. */
  lemma ListingExact(root: seq<Entry>, f: Found)
    requires WellFormed(root)
    ensures Increasing(Listing(root))
    ensures f in Listing(root) <==> 1 <= |f.names| <= MAX_DEPTH && Leads(root, f.names, f.isDir)
  {
    var es := SortByName(root);
    SortWellFormed(root);
    PreorderIncreasing(es, []);
    if f in Listing(root) {
      PreorderSound(es, [], f);
      assert f.names[0..] == f.names;
      LeadsSame(es, root, f.names, f.isDir);
    }
    if |f.names| <= MAX_DEPTH && Leads(root, f.names, f.isDir) {
      LeadsSame(root, es, f.names, f.isDir);
      PreorderComplete(es, [], f.names, f.isDir);
      assert [] + f.names == f.names;
    }
  }
}
