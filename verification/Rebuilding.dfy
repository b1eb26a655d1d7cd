/** Setting every printed line again, from nothing, rebuilds the settings. */
module Rebuilding {
  import opened Options
  import opened Keys
  import opened Settings
  import opened Printing
  import Cuts
  import Words

  // ------------------------------------------------------------ tidy settings

  /** Keys without dots, none empty and none twice, no list of tables, and no white space at
      the end of a key that ends a line's key. */
  predicate Tidy(es: Entries) {
    && (forall i, j :: 0 <= i < j < |es| ==> es[i].key != es[j].key)
    && (forall i :: 0 <= i < |es| ==> TidyEntry(es[i]))
  }

  predicate TidyEntry(e: Entry) {
    Part(e.key) && TidyValue(e.value) && (!(e.value.Table? && e.value.entries != []) ==> EndsDark(e.key))
  }

  predicate TidyValue(v: Value) {
    match v
    case Scalar(_) => true
    case Array(items) => !AllTables(items)
    case Table(inner) => Tidy(inner)
  }

  /** Tidy settings whose own keys, which begin the lines' keys, begin without white space. */
  predicate TidySettings(es: Entries) {
    Tidy(es) && forall i :: 0 <= i < |es| ==> StartsDark(es[i].key)
  }

  ghost predicate NeatLeaves(leaves: seq<Leaf>) {
    forall i :: 0 <= i < |leaves| ==> NeatPath(leaves[i].path)
  }

  ghost predicate LeavesStartDark(leaves: seq<Leaf>) {
    forall i :: 0 <= i < |leaves| ==> leaves[i].path != [] && StartsDark(leaves[i].path[0])
  }

  lemma NeatUnder(k: string, leaves: seq<Leaf>)
    requires Part(k) && forall i :: 0 <= i < |leaves| ==> NeatPath(leaves[i].path) || (leaves[i].path == [] && EndsDark(k))
    ensures NeatLeaves(Under([k], leaves))
  {
  }

  lemma {:induction false} LeavesAreNeat(es: Entries)
    requires Tidy(es)
    ensures NeatLeaves(Leaves(es)) && (es != [] ==> Leaves(es) != [])
    decreases es, 1
  {
    if es != [] {
      assert TidyEntry(es[0]);
      LeavesOfAreNeat(es[0]);
      LeavesAreNeat(es[1..]);
    }
  }

  lemma {:induction false} LeavesOfAreNeat(e: Entry)
    requires TidyEntry(e)
    ensures NeatLeaves(Under([e.key], LeavesOf(e.value))) && LeavesOf(e.value) != []
    decreases e, 0
  {
    if e.value.Table? && e.value.entries != [] {
      LeavesAreNeat(e.value.entries);
    }
    NeatUnder(e.key, LeavesOf(e.value));
  }

  lemma {:induction false} LeavesBegin(es: Entries)
    requires TidySettings(es)
    ensures LeavesStartDark(Leaves(es))
  {
    if es != [] {
      LeavesBegin(es[1..]);
      assert forall i :: 0 <= i < |Under([es[0].key], LeavesOf(es[0].value))| ==>
        Under([es[0].key], LeavesOf(es[0].value))[i].path[0] == es[0].key;
    }
  }

  // ------------------------------------------------------------ setting again

  /** A value set at a path. */
  function SetPath(es: Entries, path: seq<string>, v: Value): (r: Entries)
    requires path != []
  {
    Descend(es, path[..|path| - 1], true, Insert(path[|path| - 1], v)).0
  }

  function Replay(es: Entries, leaves: seq<Leaf>): (r: Entries)
    requires forall i :: 0 <= i < |leaves| ==> leaves[i].path != []
    decreases |leaves|
  {
    if leaves == [] then es else Replay(SetPath(es, leaves[0].path, leaves[0].value), leaves[1..])
  }

  lemma {:induction false} ReplayJoin(es: Entries, a: seq<Leaf>, b: seq<Leaf>)
    requires forall i :: 0 <= i < |a| ==> a[i].path != []
    requires forall i :: 0 <= i < |b| ==> b[i].path != []
    ensures Replay(es, a + b) == Replay(Replay(es, a), b)
    decreases |a|
  {
    if a == [] {
      Cuts.Nothing(b);
    } else {
      Cuts.TailOfJoin(a, b);
      ReplayJoin(SetPath(es, a[0].path, a[0].value), a[1..], b);
    }
  }

  /** Setting a path below a table, or below nothing, sets it in that table. */
  lemma SetPathDown(es: Entries, k: string, inner: Entries, p: seq<string>, v: Value)
    requires p != [] && (Get(es, k) == Some(Table(inner)) || (Get(es, k).None? && inner == []))
    ensures SetPath(es, [k] + p, v) == Put(es, k, Table(SetPath(inner, p, v)))
  {
    var path := [k] + p;
    assert path[..|path| - 1] == [k] + p[..|p| - 1];
    assert path[..|path| - 1][1..] == p[..|p| - 1];
  }

  lemma {:induction false} PutPut(es: Entries, k: string, a: Value, b: Value)
    ensures Put(Put(es, k, a), k, b) == Put(es, k, b)
  {
    if es != [] && es[0].key != k {
      PutPut(es[1..], k, a, b);
    }
  }

  lemma {:induction false} ReplayUnder(es: Entries, k: string, inner: Entries, leaves: seq<Leaf>)
    requires Get(es, k) == Some(Table(inner)) || (Get(es, k).None? && inner == [] && leaves != [])
    requires forall i :: 0 <= i < |leaves| ==> leaves[i].path != []
    ensures Replay(es, Under([k], leaves)) == Put(es, k, Table(Replay(inner, leaves)))
    decreases |leaves|
  {
    if leaves == [] {
      PutSame(es, k);
    } else {
      var p, v := leaves[0].path, leaves[0].value;
      SetPathDown(es, k, inner, p, v);
      var es', inner' := SetPath(es, [k] + p, v), SetPath(inner, p, v);
      GetPut(es, k, Table(inner'), k);
      ReplayUnder(es', k, inner', leaves[1..]);
      assert Under([k], leaves)[1..] == Under([k], leaves[1..]);
      PutPut(es, k, Table(inner'), Table(Replay(inner', leaves[1..])));
    }
  }

  lemma {:induction false} PutNew(es: Entries, k: string, v: Value)
    requires forall i :: 0 <= i < |es| ==> es[i].key != k
    ensures Put(es, k, v) == es + [Entry(k, v)] && Get(es, k).None?
  {
    if es != [] {
      PutNew(es[1..], k, v);
    }
  }

  /** One entry's lines, set again, put the entry at the end. */
  lemma {:induction false} ReplayEntry(es: Entries, e: Entry)
    requires forall i :: 0 <= i < |es| ==> es[i].key != e.key
    requires NeatLeaves(Under([e.key], LeavesOf(e.value))) && TidyValue(e.value)
    requires e.value.Table? && e.value.entries != [] ==>
               NeatLeaves(Leaves(e.value.entries)) && Leaves(e.value.entries) != []
               && Replay([], Leaves(e.value.entries)) == e.value.entries
    ensures Replay(es, Under([e.key], LeavesOf(e.value))) == es + [e]
  {
    PutNew(es, e.key, e.value);
    if e.value.Table? && e.value.entries != [] {
      ReplayUnder(es, e.key, [], Leaves(e.value.entries));
    } else {
      var leaves := Under([e.key], LeavesOf(e.value));
      assert leaves[0].path == [e.key] && leaves[1..] == [];
      assert [e.key][..0] == [];
      assert Replay(es, leaves) == Replay(Put(es, e.key, e.value), []);
    }
  }

  lemma NeatFront(front: seq<Leaf>, rest: seq<Leaf>)
    requires NeatLeaves(front + rest)
    ensures NeatLeaves(front)
  {
    forall i | 0 <= i < |front|
      ensures NeatPath(front[i].path)
    {
      assert (front + rest)[i] == front[i];
    }
  }

  /** No key of the one is a key of the other. */
  predicate Apart(before: Entries, es: Entries) {
    forall i, j :: 0 <= i < |before| && 0 <= j < |es| ==> before[i].key != es[j].key
  }

  lemma TidyTail(before: Entries, es: Entries)
    requires Tidy(es) && es != [] && Apart(before, es)
    ensures Tidy(es[1..]) && TidyEntry(es[0])
    ensures forall i :: 0 <= i < |before| ==> before[i].key != es[0].key
    ensures Apart(before + [es[0]], es[1..])
  {
    forall i, j | 0 <= i < |before + [es[0]]| && 0 <= j < |es[1..]|
      ensures (before + [es[0]])[i].key != es[1..][j].key
    {
      assert es[1..][j] == es[j + 1];
    }
  }

  lemma {:induction false} ReplayTable(v: Value)
    requires v.Table? && v.entries != [] && TidyValue(v)
    ensures NeatLeaves(Leaves(v.entries)) && Leaves(v.entries) != []
    ensures Replay([], Leaves(v.entries)) == v.entries
    decreases v, 0
  {
    LeavesAreNeat(v.entries);
    Replays([], v.entries);
    Cuts.Nothing(v.entries);
  }

  /** Set again after what is there already, the leaves of some tidy entries are those entries. */
  lemma {:induction false} Replays(before: Entries, es: Entries)
    requires Tidy(es) && Apart(before, es)
    ensures NeatLeaves(Leaves(es)) && Replay(before, Leaves(es)) == before + es
    decreases es, 1
  {
    LeavesAreNeat(es);
    if es == [] {
      Cuts.Nothing(before);
    } else {
      var e, rest := es[0], es[1..];
      TidyTail(before, es);
      if e.value.Table? && e.value.entries != [] {
        ReplayTable(e.value);
      }
      var front := Under([e.key], LeavesOf(e.value));
      LeavesAreNeat(rest);
      NeatFront(front, Leaves(rest));
      ReplayEntry(before, e);
      ReplayJoin(before, front, Leaves(rest));
      Replays(before + [e], rest);
      Cuts.JoinAssociates(before, [e], rest);
      Cuts.HeadAndTail(es);
    }
  }

  // ------------------------------------------------------------ as text

  function SetAll(es: Entries, lines: seq<Line>): (r: Entries)
    decreases |lines|
  {
    if lines == [] then es else SetAll(SetIn(es, lines[0].key, lines[0].value).0, lines[1..])
  }

  lemma {:induction false} SetAllReplays(es: Entries, lines: seq<Line>, leaves: seq<Leaf>)
    requires Names(lines, leaves) && NeatLeaves(leaves) && LeavesStartDark(leaves)
    ensures SetAll(es, lines) == Replay(es, leaves)
    decreases |lines|
  {
    if lines != [] {
      assert NeatPath(leaves[0].path);
      NeatPathIsRead(leaves[0].path);
      SetAllReplays(SetPath(es, leaves[0].path, leaves[0].value), lines[1..], leaves[1..]);
    }
  }

  // ------------------------------------------------------ nothing else is rebuilt

  /** What a line says: nothing that is printed on lines of its own. */
  predicate LineValue(v: Value) {
    TidyValue(v) && !(v.Table? && v.entries != [])
  }

  ghost predicate LineValues(lines: seq<Line>) {
    forall i :: 0 <= i < |lines| ==> LineValue(lines[i].value)
  }

  lemma {:induction false} FlattenedLines(prefix: string, es: Entries)
    ensures LineValues(Flattened(prefix, es))
    decreases es, 0
  {
    if es != [] {
      PrintedLines(KeyUnder(prefix, es[0].key), es[0].value);
      FlattenedLines(prefix, es[1..]);
    }
  }

  lemma {:induction false} PrintedLines(key: string, v: Value)
    ensures LineValues(Printed(key, v))
    decreases v, 1
  {
    if v.Table? && v.entries != [] {
      FlattenedLines(key, v.entries);
    } else if v.Array? && AllTables(v.items) {
      ItemsLines(key, v.items, 0);
    } else {
      assert LineValue(v);
    }
  }

  lemma {:induction false} ItemsLines(key: string, items: seq<Value>, n: nat)
    requires n <= |items| && forall i :: 0 <= i < |items| ==> items[i].Table?
    ensures LineValues(PrintedItems(key, items, n))
    decreases items, |items| - n
  {
    if n < |items| {
      FlattenedLines(key + "." + Decimal(n + 1), items[n].entries);
      ItemsLines(key, items, n + 1);
    }
  }

  lemma {:induction false} PutTidy(es: Entries, k: string, v: Value)
    requires Tidy(es) && TidyEntry(Entry(k, v))
    ensures Tidy(Put(es, k, v))
    ensures forall i :: 0 <= i < |Put(es, k, v)| ==> Put(es, k, v)[i].key == k || HasKey(es, Put(es, k, v)[i].key)
  {
    if es != [] && es[0].key != k {
      PutTidy(es[1..], k, v);
      var r, rest := Put(es, k, v), Put(es[1..], k, v);
      forall i | 0 <= i < |r|
        ensures TidyEntry(r[i]) && (r[i].key == k || HasKey(es, r[i].key)) && (i > 0 ==> r[i].key != r[0].key)
      {
        if i == 0 {
          assert es[0].key == r[0].key;
        } else if rest[i - 1].key != k {
          var j :| 0 <= j < |es[1..]| && es[1..][j].key == rest[i - 1].key;
          assert es[j + 1].key == r[i].key;
        }
      }
    }
  }

  ghost predicate HasKey(es: Entries, k: string) {
    exists i :: 0 <= i < |es| && es[i].key == k
  }

  lemma {:induction false} GetTidy(es: Entries, k: string)
    requires Tidy(es) && Get(es, k).Some?
    ensures TidyEntry(Entry(k, Get(es, k).value)) && HasKey(es, k)
  {
    assert es[0].key == k ==> TidyEntry(es[0]);
    if es[0].key != k {
      GetTidy(es[1..], k);
      var i :| 0 <= i < |es[1..]| && es[1..][i].key == k;
      assert es[i + 1].key == k;
    }
  }

  /** The slot a set goes through is as tidy as what is there. */
  lemma SlotTidy(es: Entries, parts: seq<string>)
    requires Tidy(es) && parts != [] && Part(parts[0])
    ensures var v := Slot(es, parts, true); TidyValue(v) && (v.Array? ==> EndsDark(parts[0]))
  {
    if Get(es, parts[0]).Some? {
      GetTidy(es, parts[0]);
    }
  }

  lemma StillAList(items: seq<Value>, i: nat, now: Value)
    requires i < |items| && items[i].Table? && !AllTables(items)
    ensures !AllTables(items[i := now])
  {
    var j :| 0 <= j < |items| && !items[j].Table?;
    assert items[i := now][j] == items[j];
  }

  ghost predicate Parts(parts: seq<string>) {
    forall i :: 0 <= i < |parts| ==> Part(parts[i])
  }

  /** A set keeps tidy tables tidy, and leaves no table empty. */
  lemma {:induction false} DescendTidy(es: Entries, parts: seq<string>, last: string, v: Value)
    requires Tidy(es) && Parts(parts) && Part(last) && EndsDark(last) && LineValue(v)
    ensures var r := Descend(es, parts, true, Insert(last, v)).0;
            && Tidy(r) && r != []
            && forall i :: 0 <= i < |r| ==> r[i].key == (parts + [last])[0] || HasKey(es, r[i].key)
    decreases |parts|
  {
    if parts == [] {
      PutTidy(es, last, v);
    } else {
      SlotTidy(es, parts);
      match Slot(es, parts, true) {
        case Table(inner) =>
          DescendTidy(inner, parts[1..], last, v);
          PutTidy(es, parts[0], Table(Descend(inner, parts[1..], true, Insert(last, v)).0));
        case Scalar(_) =>
          DescendTidy([], parts[1..], last, v);
          PutTidy(es, parts[0], Table(Descend([], parts[1..], true, Insert(last, v)).0));
        case Array(items) =>
          var i := if |parts| > 1 then Picked(items, parts[1]) else None;
          if i.Some? && items[i.value].Table? {
            var now := Table(Descend(items[i.value].entries, parts[2..], true, Insert(last, v)).0);
            StillAList(items, i.value, now);
            PutTidy(es, parts[0], Array(items[i.value := now]));
          } else {
            PutTidy(es, parts[0], Array(items));
          }
      }
    }
  }

  lemma {:induction false} DottedEnds(path: seq<string>)
    requires path != [] && forall i :: 0 <= i < |path| ==> path[i] != ""
    ensures var s, last := Dotted(path), path[|path| - 1];
            s != "" && s[0] == path[0][0] && s[|s| - 1] == last[|last| - 1]
  {
    if |path| > 1 {
      DottedEnds(path[1..]);
    }
  }

  /** The parts a typed key is read as. */
  lemma PathIsNeat(key: string)
    requires PathOf(key).Path?
    ensures var p := PathOf(key); NeatPath(p.parents + [p.last]) && StartsDark((p.parents + [p.last])[0])
  {
    var p := PathOf(key);
    PathIsTheKey(key);
    DottedSplit(Words.Trimmed(key));
    DottedEnds(p.parents + [p.last]);
  }

  /** Whatever is typed, a set of what a line says keeps tidy settings tidy. */
  lemma SetKeepsTidy(es: Entries, key: string, v: Value)
    requires TidySettings(es) && LineValue(v)
    ensures TidySettings(SetIn(es, key, v).0)
  {
    if PathOf(key).Path? {
      var p := PathOf(key);
      PathIsNeat(key);
      var path := p.parents + [p.last];
      assert forall i :: 0 <= i < |p.parents| ==> p.parents[i] == path[i];
      assert Part(path[|path| - 1]);
      DescendTidy(es, p.parents, p.last, v);
    }
  }

  lemma {:induction false} SetAllKeepsTidy(es: Entries, lines: seq<Line>)
    requires TidySettings(es) && LineValues(lines)
    ensures TidySettings(SetAll(es, lines))
    decreases |lines|
  {
    if lines != [] {
      SetKeepsTidy(es, lines[0].key, lines[0].value);
      SetAllKeepsTidy(SetIn(es, lines[0].key, lines[0].value).0, lines[1..]);
    }
  }

  /** Settings, printed and set again line by line from nothing, are the same settings in
      the same order exactly when they are tidy. */
  lemma PrintedRebuilds(es: Entries)
    ensures SetAll([], Flattened("", es)) == es <==> TidySettings(es)
  {
    FlattenedLines("", es);
    SetAllKeepsTidy([], Flattened("", es));
    if TidySettings(es) {
      TidyRebuilds(es);
    }
  }

  lemma TidyRebuilds(es: Entries)
    requires TidySettings(es)
    ensures SetAll([], Flattened("", es)) == es
  {
    LeavesBegin(es);
    TopNamesWhen(es);
    LeavesAreNeat(es);
    SetAllReplays([], Flattened("", es), Leaves(es));
    Replays([], es);
    Cuts.Nothing(es);
  }

  // ------------------------------------------------------------ a failing input

  lemma ThreeParts(a: string, b: string, c: string)
    requires Part(a) && Part(b) && Part(c) && StartsDark(a) && EndsDark(c)
    ensures PathOf(a + "." + b + "." + c) == Path([a, b], c)
  {
    DottedMore([a], b);
    DottedMore([a, b], c);
    assert [a] + [b] == [a, b] && [a, b] + [c] == [a, b, c];
    NeatPathIsRead([a, b, c]);
    assert [a, b, c][..2] == [a, b];
  }

  lemma ListIsPrinted(v: Value)
    requires v.Scalar?
    ensures Flattened("", [Entry("x", Array([Table([Entry("y", v)])]))]) == [Line("x" + "." + Decimal(1) + "." + "y", v)]
  {
    var inner, prefix := [Entry("y", v)], "x" + "." + Decimal(1);
    var items := [Table(inner)];
    var es := [Entry("x", Array(items))];
    assert inner[1..] == [] && es[1..] == [];
    assert Flattened(prefix, inner[1..]) == [] && Printed(prefix + "." + "y", v) == [Line(prefix + "." + "y", v)];
    assert Flattened(prefix, inner) == [Line(prefix + "." + "y", v)];
    assert AllTables(items) && PrintedItems("x", items, 1) == [];
    assert PrintedItems("x", items, 0) == [Line(prefix + "." + "y", v)];
    assert Printed("x", Array(items)) == [Line(prefix + "." + "y", v)];
    assert Flattened("", es[1..]) == [];
  }

  /** A list of tables comes back as a table whose keys are the numbers. */
  lemma ListIsNotRebuilt(v: Value)
    requires v.Scalar?
    ensures var es := [Entry("x", Array([Table([Entry("y", v)])]))];
            && SetAll([], Flattened("", es)) == [Entry("x", Table([Entry(Decimal(1), Table([Entry("y", v)]))]))]
            && !TidySettings(es)
  {
    var es := [Entry("x", Array([Table([Entry("y", v)])]))];
    var key := "x" + "." + Decimal(1) + "." + "y";
    ListIsPrinted(v);
    DecimalParses(1);
    ThreeParts("x", Decimal(1), "y");
    var parts := ["x", Decimal(1)];
    assert parts[1..] == [Decimal(1)] && parts[1..][1..] == [];
    assert Descend([], [], true, Insert("y", v)).0 == [Entry("y", v)];
    assert Descend([], [Decimal(1)], true, Insert("y", v)).0 == [Entry(Decimal(1), Table([Entry("y", v)]))];
    assert SetIn([], key, v).0 == [Entry("x", Table([Entry(Decimal(1), Table([Entry("y", v)]))]))];
    assert [Line(key, v)][1..] == [];
    assert AllTables([Table([Entry("y", v)])]);
    assert !TidyEntry(es[0]);
  }
}
