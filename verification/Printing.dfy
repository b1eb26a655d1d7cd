/** Settings printed one to a line, as they are set again. */
module Printing {
  import opened Options
  import opened Keys
  import opened Settings
  import opened Cuts
  import Words

  datatype Line = Line(key: string, value: Value)

  /** A printed value and the parts that lead to it. */
  datatype Leaf = Leaf(path: seq<string>, value: Value)

  predicate AllTables(items: seq<Value>) {
    items != [] && forall i :: 0 <= i < |items| ==> items[i].Table?
  }

  // ------------------------------------------------------------ printing

  function KeyUnder(prefix: string, key: string): (k: string) {
    if prefix == "" then key else prefix + "." + key
  }

  function Flattened(prefix: string, es: Entries): (lines: seq<Line>)
    decreases es, 0
  {
    if es == [] then []
    else Printed(KeyUnder(prefix, es[0].key), es[0].value) + Flattened(prefix, es[1..])
  }

  function Printed(key: string, v: Value): (lines: seq<Line>)
    decreases v, 1
  {
    match v
    case Scalar(_) => [Line(key, v)]
    case Table(inner) => if inner == [] then [Line(key, v)] else Flattened(key, inner)
    case Array(items) => if AllTables(items) then PrintedItems(key, items, 0) else [Line(key, v)]
  }

  function PrintedItems(key: string, items: seq<Value>, n: nat): (lines: seq<Line>)
    requires n <= |items| && forall i :: 0 <= i < |items| ==> items[i].Table?
    decreases items, |items| - n
  {
    if n == |items| then []
    else Flattened(key + "." + Decimal(n + 1), items[n].entries) + PrintedItems(key, items, n + 1)
  }

  /** Prints the settings of a table, pushing line after line. */
  method Flatten(prefix: string, es: Entries, out: seq<Line>) returns (r: seq<Line>)
    ensures r == out + Flattened(prefix, es)
    decreases es
  {
    r := out;
    Cuts.Nothing(out);
    var i := 0;
    while i < |es|
      invariant 0 <= i <= |es| && r + Flattened(prefix, es[i..]) == out + Flattened(prefix, es)
      decreases |es| - i
    {
      var key := KeyUnder(prefix, es[i].key);
      ghost var was, printed := r, Printed(key, es[i].value);
      match es[i].value {
        case Table(inner) =>
          if inner != [] {
            r := Flatten(key, inner, r);
          } else {
            r := r + [Line(key, es[i].value)];
          }
        case Array(items) =>
          if AllTables(items) {
            r := FlattenItems(key, items, r);
          } else {
            r := r + [Line(key, es[i].value)];
          }
        case Scalar(_) =>
          r := r + [Line(key, es[i].value)];
      }
      assert es[i..][1..] == es[i + 1..];
      JoinAssociates(was, printed, Flattened(prefix, es[i + 1..]));
      i := i + 1;
    }
    Cuts.Nothing(r);
  }

  method FlattenItems(key: string, items: seq<Value>, out: seq<Line>) returns (r: seq<Line>)
    requires forall i :: 0 <= i < |items| ==> items[i].Table?
    ensures r == out + PrintedItems(key, items, 0)
    decreases items
  {
    r := out;
    var n := 0;
    while n < |items|
      invariant 0 <= n <= |items| && r + PrintedItems(key, items, n) == out + PrintedItems(key, items, 0)
      decreases |items| - n
    {
      ghost var was := r;
      r := Flatten(key + "." + Decimal(n + 1), items[n].entries, r);
      JoinAssociates(was, Flattened(key + "." + Decimal(n + 1), items[n].entries), PrintedItems(key, items, n + 1));
      n := n + 1;
    }
    Cuts.Nothing(r);
  }

  // ------------------------------------------------------------ what is printed

  function Under(pre: seq<string>, leaves: seq<Leaf>): (r: seq<Leaf>)
    ensures |r| == |leaves|
  {
    seq(|leaves|, i requires 0 <= i < |leaves| => Leaf(pre + leaves[i].path, leaves[i].value))
  }

  function Leaves(es: Entries): (leaves: seq<Leaf>)
    decreases es, 0
  {
    if es == [] then [] else Under([es[0].key], LeavesOf(es[0].value)) + Leaves(es[1..])
  }

  function LeavesOf(v: Value): (leaves: seq<Leaf>)
    decreases v, 1
  {
    match v
    case Scalar(_) => [Leaf([], v)]
    case Table(inner) => if inner == [] then [Leaf([], v)] else Leaves(inner)
    case Array(items) => if AllTables(items) then ItemLeaves(items, 0) else [Leaf([], v)]
  }

  function ItemLeaves(items: seq<Value>, n: nat): (leaves: seq<Leaf>)
    requires n <= |items| && forall i :: 0 <= i < |items| ==> items[i].Table?
    decreases items, |items| - n
  {
    if n == |items| then []
    else Under([Decimal(n + 1)], Leaves(items[n].entries)) + ItemLeaves(items, n + 1)
  }

  lemma UnderJoins(pre: seq<string>, a: seq<Leaf>, b: seq<Leaf>)
    ensures Under(pre, a + b) == Under(pre, a) + Under(pre, b)
  {
  }

  lemma UnderUnder(pre: seq<string>, mid: seq<string>, a: seq<Leaf>)
    ensures Under(pre, Under(mid, a)) == Under(pre + mid, a)
  {
    forall i | 0 <= i < |a|
      ensures Under(pre, Under(mid, a))[i] == Under(pre + mid, a)[i]
    {
      JoinAssociates(pre, mid, a[i].path);
    }
  }

  // ------------------------------------------------------------ keys name paths

  /** The lines that name each value by its whole path. */
  ghost predicate Names(lines: seq<Line>, leaves: seq<Leaf>) {
    && |lines| == |leaves|
    && forall i :: 0 <= i < |lines| ==>
         leaves[i].path != [] && lines[i] == Line(Dotted(leaves[i].path), leaves[i].value)
  }

  lemma NamesJoin(a: seq<Line>, b: seq<Leaf>, c: seq<Line>, d: seq<Leaf>)
    requires |a| == |b|
    ensures Names(a + c, b + d) <==> Names(a, b) && Names(c, d)
  {
    if Names(a + c, b + d) {
      forall i | 0 <= i < |a|
        ensures b[i].path != [] && a[i] == Line(Dotted(b[i].path), b[i].value)
      {
        assert (a + c)[i] == a[i] && (b + d)[i] == b[i];
      }
      forall i | 0 <= i < |c|
        ensures d[i].path != [] && c[i] == Line(Dotted(d[i].path), d[i].value)
      {
        assert (a + c)[|a| + i] == c[i] && (b + d)[|a| + i] == d[i];
      }
    }
  }

  /** Below a prefix that is not empty, every line names its value by its whole path. */
  lemma {:induction false} FlattenedNames(pre: seq<string>, es: Entries)
    requires pre != [] && Dotted(pre) != ""
    ensures Names(Flattened(Dotted(pre), es), Under(pre, Leaves(es)))
    decreases es, 0
  {
    if es != [] {
      var k := es[0].key;
      DottedMore(pre, k);
      PrintedNames(pre + [k], es[0].value);
      FlattenedNames(pre, es[1..]);
      UnderUnder(pre, [k], LeavesOf(es[0].value));
      UnderJoins(pre, Under([k], LeavesOf(es[0].value)), Leaves(es[1..]));
      NamesJoin(Printed(Dotted(pre + [k]), es[0].value), Under(pre + [k], LeavesOf(es[0].value)),
                Flattened(Dotted(pre), es[1..]), Under(pre, Leaves(es[1..])));
    }
  }

  lemma {:induction false} PrintedNames(pre: seq<string>, v: Value)
    requires pre != [] && (Dotted(pre) != "" || !v.Table? || v.entries == [])
    ensures Names(Printed(Dotted(pre), v), Under(pre, LeavesOf(v)))
    decreases v, 1
  {
    Cuts.Nothing(pre);
    match v
    case Scalar(_) =>
    case Table(inner) =>
      if inner != [] {
        FlattenedNames(pre, inner);
      }
    case Array(items) =>
      if AllTables(items) {
        ItemsNames(pre, items, 0);
      }
  }

  lemma {:induction false} ItemsNames(pre: seq<string>, items: seq<Value>, n: nat)
    requires pre != [] && n <= |items| && forall i :: 0 <= i < |items| ==> items[i].Table?
    ensures Names(PrintedItems(Dotted(pre), items, n), Under(pre, ItemLeaves(items, n)))
    decreases items, |items| - n
  {
    if n < |items| {
      var k := Decimal(n + 1);
      DottedMore(pre, k);
      FlattenedNames(pre + [k], items[n].entries);
      ItemsNames(pre, items, n + 1);
      UnderUnder(pre, [k], Leaves(items[n].entries));
      UnderJoins(pre, Under([k], Leaves(items[n].entries)), ItemLeaves(items, n + 1));
      NamesJoin(Flattened(Dotted(pre + [k]), items[n].entries), Under(pre + [k], Leaves(items[n].entries)),
                PrintedItems(Dotted(pre), items, n + 1), Under(pre, ItemLeaves(items, n + 1)));
    }
  }

  // -------------------------------------------- an empty key at the top

  /** A line's key is shorter than the path it should name. */
  ghost predicate Short(lines: seq<Line>, leaves: seq<Leaf>) {
    && |lines| == |leaves|
    && forall i :: 0 <= i < |lines| ==> leaves[i].path != [] && |lines[i].key| < |Dotted(leaves[i].path)|
  }

  lemma ShortJoin(a: seq<Line>, b: seq<Leaf>, c: seq<Line>, d: seq<Leaf>)
    requires Short(a, b) && Short(c, d)
    ensures Short(a + c, b + d)
  {
  }

  /** Printed under a prefix shorter than the way there, or none, every key is too short. */
  lemma {:induction false} FlattenedShort(s: string, pre: seq<string>, es: Entries)
    requires pre != [] && (s == "" || |s| < |Dotted(pre)|)
    ensures Short(Flattened(s, es), Under(pre, Leaves(es)))
    decreases es, 0
  {
    if es != [] {
      var k := es[0].key;
      DottedMore(pre, k);
      PrintedShort(KeyUnder(s, k), pre + [k], es[0].value);
      FlattenedShort(s, pre, es[1..]);
      UnderUnder(pre, [k], LeavesOf(es[0].value));
      UnderJoins(pre, Under([k], LeavesOf(es[0].value)), Leaves(es[1..]));
      ShortJoin(Printed(KeyUnder(s, k), es[0].value), Under(pre + [k], LeavesOf(es[0].value)),
                Flattened(s, es[1..]), Under(pre, Leaves(es[1..])));
    }
  }

  lemma {:induction false} PrintedShort(s: string, pre: seq<string>, v: Value)
    requires pre != [] && |s| < |Dotted(pre)|
    ensures Short(Printed(s, v), Under(pre, LeavesOf(v)))
    decreases v, 1
  {
    Cuts.Nothing(pre);
    match v
    case Scalar(_) =>
    case Table(inner) =>
      if inner != [] {
        FlattenedShort(s, pre, inner);
      }
    case Array(items) =>
      if AllTables(items) {
        ItemsShort(s, pre, items, 0);
      }
  }

  lemma {:induction false} ItemsShort(s: string, pre: seq<string>, items: seq<Value>, n: nat)
    requires pre != [] && |s| < |Dotted(pre)|
    requires n <= |items| && forall i :: 0 <= i < |items| ==> items[i].Table?
    ensures Short(PrintedItems(s, items, n), Under(pre, ItemLeaves(items, n)))
    decreases items, |items| - n
  {
    if n < |items| {
      var k := Decimal(n + 1);
      DottedMore(pre, k);
      FlattenedShort(s + "." + k, pre + [k], items[n].entries);
      ItemsShort(s, pre, items, n + 1);
      UnderUnder(pre, [k], Leaves(items[n].entries));
      UnderJoins(pre, Under([k], Leaves(items[n].entries)), ItemLeaves(items, n + 1));
      ShortJoin(Flattened(s + "." + k, items[n].entries), Under(pre + [k], Leaves(items[n].entries)),
                PrintedItems(s, items, n + 1), Under(pre, ItemLeaves(items, n + 1)));
    }
  }

  /** The entry is not a table under an empty key that has anything to print. */
  predicate PrintsWell(e: Entry) {
    !(e.key == "" && e.value.Table? && e.value.entries != [] && Leaves(e.value.entries) != [])
  }

  lemma TopEntryNames(e: Entry)
    ensures |Printed(e.key, e.value)| == |LeavesOf(e.value)|
    ensures Names(Printed(e.key, e.value), Under([e.key], LeavesOf(e.value))) <==> PrintsWell(e)
  {
    var pre := [e.key];
    if e.key == "" && e.value.Table? && e.value.entries != [] {
      FlattenedShort("", pre, e.value.entries);
      var lines, leaves := Printed(e.key, e.value), Under(pre, LeavesOf(e.value));
      if leaves != [] {
        assert |lines[0].key| < |Dotted(leaves[0].path)|;
      }
    } else {
      PrintedNames(pre, e.value);
    }
  }

  /** Every printed line names its value by its whole path, exactly when no table that has
      anything to print stands under an empty key at the top. */
  lemma {:induction false} TopNamesWhen(es: Entries)
    ensures |Flattened("", es)| == |Leaves(es)|
    ensures Names(Flattened("", es), Leaves(es)) <==> forall i :: 0 <= i < |es| ==> PrintsWell(es[i])
  {
    if es != [] {
      TopEntryNames(es[0]);
      TopNamesWhen(es[1..]);
      NamesJoin(Printed(es[0].key, es[0].value), Under([es[0].key], LeavesOf(es[0].value)),
                Flattened("", es[1..]), Leaves(es[1..]));
      assert forall i :: 0 < i < |es| ==> es[i] == es[1..][i - 1];
      assert forall i :: 0 <= i < |es| - 1 ==> es[1..][i] == es[i + 1];
    }
  }

  // ------------------------------------------- what is printed can be looked up

  /** No dots in keys, no key twice, and lists no longer than the machine counts. */
  predicate Proper(es: Entries) {
    && (forall i, j :: 0 <= i < j < |es| ==> es[i].key != es[j].key)
    && (forall i :: 0 <= i < |es| ==> DotFree(es[i].key) && ProperValue(es[i].value))
  }

  predicate ProperValue(v: Value) {
    match v
    case Scalar(_) => true
    case Table(inner) => Proper(inner)
    case Array(items) => |items| <= USIZE_MAX && forall i :: 0 <= i < |items| ==> ProperValue(items[i])
  }

  lemma ProperTail(es: Entries)
    requires Proper(es) && es != []
    ensures Proper(es[1..]) && ProperValue(es[0].value) && DotFree(es[0].key)
    ensures forall i :: 0 <= i < |es[1..]| ==> es[1..][i].key != es[0].key
  {
  }

  ghost predicate FoundIn(es: Entries, leaves: seq<Leaf>) {
    forall i :: 0 <= i < |leaves| ==>
      leaves[i].path != [] && AllDotFree(leaves[i].path) && LookupIn(es, leaves[i].path) == Some(leaves[i].value)
  }

  ghost predicate FoundAt(v: Value, leaves: seq<Leaf>) {
    forall i :: 0 <= i < |leaves| ==>
      AllDotFree(leaves[i].path) && LookupAt(v, leaves[i].path) == Some(leaves[i].value)
  }

  /** Each leaf begins with a key of the table. */
  lemma {:induction false} LeavesBegin(es: Entries)
    ensures forall i :: 0 <= i < |Leaves(es)| ==>
              Leaves(es)[i].path != [] && exists j :: 0 <= j < |es| && es[j].key == Leaves(es)[i].path[0]
  {
    if es != [] {
      LeavesBegin(es[1..]);
      var front := Under([es[0].key], LeavesOf(es[0].value));
      forall i | 0 <= i < |Leaves(es)|
        ensures Leaves(es)[i].path != [] && exists j :: 0 <= j < |es| && es[j].key == Leaves(es)[i].path[0]
      {
        if i >= |front| {
          var j :| 0 <= j < |es[1..]| && es[1..][j].key == Leaves(es[1..])[i - |front|].path[0];
          assert es[j + 1] == es[1..][j];
        } else {
          assert Leaves(es)[i] == front[i];
        }
      }
    }
  }

  lemma {:induction false} LeavesFound(es: Entries)
    requires Proper(es)
    ensures FoundIn(es, Leaves(es))
    decreases es, 0
  {
    if es != [] {
      ProperTail(es);
      LeavesOfFound(es[0].value);
      LeavesFound(es[1..]);
      LeavesBegin(es[1..]);
      var front, rest := Under([es[0].key], LeavesOf(es[0].value)), Leaves(es[1..]);
      forall i | 0 <= i < |Leaves(es)|
        ensures Leaves(es)[i].path != [] && AllDotFree(Leaves(es)[i].path)
                && LookupIn(es, Leaves(es)[i].path) == Some(Leaves(es)[i].value)
      {
        if i < |front| {
          assert Leaves(es)[i] == front[i];
          assert front[i].path[1..] == LeavesOf(es[0].value)[i].path;
        } else {
          assert Leaves(es)[i] == rest[i - |front|];
        }
      }
    }
  }

  lemma {:induction false} LeavesOfFound(v: Value)
    requires ProperValue(v)
    ensures FoundAt(v, LeavesOf(v))
    decreases v, 1
  {
    match v
    case Scalar(_) =>
    case Table(inner) =>
      if inner != [] {
        LeavesFound(inner);
      }
    case Array(items) =>
      if AllTables(items) {
        ItemLeavesFound(items, 0);
      }
  }

  lemma {:induction false} ItemLeavesFound(items: seq<Value>, n: nat)
    requires n <= |items| <= USIZE_MAX && forall i :: 0 <= i < |items| ==> items[i].Table? && ProperValue(items[i])
    ensures FoundAt(Array(items), ItemLeaves(items, n))
    decreases items, |items| - n
  {
    if n < |items| {
      LeavesFound(items[n].entries);
      ItemLeavesFound(items, n + 1);
      DecimalParses(n + 1);
      var inner := Leaves(items[n].entries);
      var front, rest := Under([Decimal(n + 1)], inner), ItemLeaves(items, n + 1);
      forall i | 0 <= i < |ItemLeaves(items, n)|
        ensures AllDotFree(ItemLeaves(items, n)[i].path)
                && LookupAt(Array(items), ItemLeaves(items, n)[i].path) == Some(ItemLeaves(items, n)[i].value)
      {
        if i < |front| {
          assert ItemLeaves(items, n)[i] == front[i];
          assert front[i].path[1..] == inner[i].path;
          assert LookupAt(items[n], inner[i].path) == LookupIn(items[n].entries, inner[i].path);
        } else {
          assert ItemLeaves(items, n)[i] == rest[i - |front|];
        }
      }
    }
  }

  // ------------------------------------------------------ no key twice

  ghost predicate Distinct(leaves: seq<Leaf>) {
    forall i, j :: 0 <= i < j < |leaves| ==> leaves[i].path != leaves[j].path
  }

  lemma UnderDistinct(k: string, a: seq<Leaf>)
    requires Distinct(a)
    ensures Distinct(Under([k], a))
  {
    forall i, j | 0 <= i < j < |a|
      ensures Under([k], a)[i].path != Under([k], a)[j].path
    {
      assert ([k] + a[i].path)[1..] == a[i].path && ([k] + a[j].path)[1..] == a[j].path;
    }
  }

  lemma DistinctJoin(k: string, a: seq<Leaf>, b: seq<Leaf>)
    requires Distinct(a) && Distinct(b)
    requires forall i :: 0 <= i < |b| ==> b[i].path != [] && b[i].path[0] != k
    ensures Distinct(Under([k], a) + b)
  {
    UnderDistinct(k, a);
    var front := Under([k], a);
    forall i, j | 0 <= i < j < |front + b|
      ensures (front + b)[i].path != (front + b)[j].path
    {
      if i < |front| <= j {
        assert (front + b)[i].path[0] == k;
      }
    }
  }

  lemma {:induction false} LeavesDistinct(es: Entries)
    requires Proper(es)
    ensures Distinct(Leaves(es))
    decreases es, 0
  {
    if es != [] {
      ProperTail(es);
      LeavesOfDistinct(es[0].value);
      LeavesDistinct(es[1..]);
      LeavesBegin(es[1..]);
      DistinctJoin(es[0].key, LeavesOf(es[0].value), Leaves(es[1..]));
    }
  }

  lemma {:induction false} LeavesOfDistinct(v: Value)
    requires ProperValue(v)
    ensures Distinct(LeavesOf(v))
    decreases v, 1
  {
    match v
    case Scalar(_) =>
    case Table(inner) =>
      if inner != [] {
        LeavesDistinct(inner);
      }
    case Array(items) =>
      if AllTables(items) {
        ItemLeavesDistinct(items, 0);
      }
  }

  lemma {:induction false} ItemLeavesDistinct(items: seq<Value>, n: nat)
    requires n <= |items| <= USIZE_MAX && forall i :: 0 <= i < |items| ==> items[i].Table? && ProperValue(items[i])
    ensures Distinct(ItemLeaves(items, n))
    ensures forall i :: 0 <= i < |ItemLeaves(items, n)| ==>
              ItemLeaves(items, n)[i].path != [] && Digits(ItemLeaves(items, n)[i].path[0])
              && n < Number(ItemLeaves(items, n)[i].path[0])
    decreases items, |items| - n
  {
    if n < |items| {
      LeavesDistinct(items[n].entries);
      ItemLeavesDistinct(items, n + 1);
      DecimalIsDigits(n + 1);
      DistinctJoin(Decimal(n + 1), Leaves(items[n].entries), ItemLeaves(items, n + 1));
    }
  }

  /** Every printed key looks up to its printed value, and no key is printed twice. */
  ghost predicate Printable(es: Entries, lines: seq<Line>) {
    && (forall i :: 0 <= i < |lines| ==> Lookup(es, lines[i].key) == Some(lines[i].value))
    && (forall i, j :: 0 <= i < j < |lines| ==> lines[i].key != lines[j].key)
  }

  lemma NamedIsPrintable(es: Entries, lines: seq<Line>, leaves: seq<Leaf>)
    requires Names(lines, leaves) && FoundIn(es, leaves) && Distinct(leaves)
    ensures Printable(es, lines)
  {
    forall i | 0 <= i < |lines|
      ensures Lookup(es, lines[i].key) == Some(lines[i].value) && Split(lines[i].key) == leaves[i].path
    {
      assert AllDotFree(leaves[i].path);
      SplitDotted(leaves[i].path);
    }
    forall i, j | 0 <= i < j < |lines|
      ensures lines[i].key != lines[j].key
    {
      assert Split(lines[i].key) == leaves[i].path && Split(lines[j].key) == leaves[j].path;
    }
  }

  /** With dot-free keys, and nothing to print under an empty key at the top, what is printed
      can be looked up. */
  lemma PrintedLooksUp(es: Entries)
    requires Proper(es) && forall i :: 0 <= i < |es| ==> PrintsWell(es[i])
    ensures Printable(es, Flattened("", es))
  {
    TopNamesWhen(es);
    LeavesFound(es);
    LeavesDistinct(es);
    NamedIsPrintable(es, Flattened("", es), Leaves(es));
  }

  /** With a table under an empty key at the top it may not be: the line names nothing. */
  lemma EmptyKeyMisprints()
    ensures var es := [Entry("", Table([Entry("a", Scalar("1"))]))];
            Proper(es) && Flattened("", es) == [Line("a", Scalar("1"))] && Lookup(es, "a").None?
  {
    var inner := [Entry("a", Scalar("1"))];
    var es := [Entry("", Table(inner))];
    assert es[1..] == [] && inner[1..] == [];
    assert Flattened("", inner) == Printed("a", Scalar("1")) + Flattened("", []);
    assert Flattened("", es) == Printed("", Table(inner)) + Flattened("", []);
    assert Printed("", Table(inner)) == Flattened("", inner);
    SplitOfWord("a");
    assert Get(es, "a").None?;
  }

  // ------------------------------------------------------ under one key

  datatype Asked = Shown(lines: seq<Line>) | NoSuchKey

  /** Every setting under a key, or all of them. */
  function LinesFor(es: Entries, key: Option<string>): (r: Asked) {
    var k := if key.Some? then Words.Trimmed(key.value) else "";
    if k == "" then Shown(Flattened("", es))
    else
      match Lookup(es, k)
      case None => NoSuchKey
      case Some(Table(inner)) => Shown(Flattened(k, inner))
      case Some(v) => Shown([Line(k, v)])
  }

  lemma {:induction false} LookupThrough(v: Value, parts: seq<string>, more: seq<string>)
    requires LookupAt(v, parts).Some?
    ensures LookupAt(v, parts + more) == LookupAt(LookupAt(v, parts).value, more)
    decreases |parts|
  {
    if parts == [] {
      assert parts + more == more;
    } else {
      assert (parts + more)[1..] == parts[1..] + more;
      match v
      case Scalar(_) =>
      case Table(es) => LookupThrough(Get(es, parts[0]).value, parts[1..], more);
      case Array(items) => LookupThrough(items[Picked(items, parts[0]).value], parts[1..], more);
    }
  }

  /** Asked for one key, every line is right, whatever stands under an empty key. */
  lemma LinesUnderAKey(es: Entries, key: string)
    requires Proper(es) && Words.Trimmed(key) != "" && LinesFor(es, Some(key)).Shown?
    ensures Printable(es, LinesFor(es, Some(key)).lines)
  {
    var k := Words.Trimmed(key);
    var parts := Split(k);
    DottedSplit(k);
    var v := Lookup(es, k).value;
    if v.Table? {
      assert LookupAt(Table(es), parts) == Some(v);
      LookedUpIsProper(Table(es), parts);
      LeavesFound(v.entries);
      LeavesDistinct(v.entries);
      FlattenedNames(parts, v.entries);
      var leaves := Leaves(v.entries);
      var all := Under(parts, leaves);
      forall i | 0 <= i < |all|
        ensures all[i].path != [] && AllDotFree(all[i].path) && LookupIn(es, all[i].path) == Some(all[i].value)
      {
        LookupThrough(Table(es), parts, leaves[i].path);
      }
      forall i, j | 0 <= i < j < |all|
        ensures all[i].path != all[j].path
      {
        assert all[i].path[|parts|..] == leaves[i].path && all[j].path[|parts|..] == leaves[j].path;
      }
      NamedIsPrintable(es, Flattened(k, v.entries), all);
    }
  }

  lemma {:induction false} LookedUpIsProper(v: Value, parts: seq<string>)
    requires ProperValue(v) && LookupAt(v, parts).Some?
    ensures ProperValue(LookupAt(v, parts).value)
    decreases |parts|
  {
    if parts != [] {
      match v
      case Scalar(_) =>
      case Table(es) =>
        GetIsProper(es, parts[0]);
        LookedUpIsProper(Get(es, parts[0]).value, parts[1..]);
      case Array(items) =>
        LookedUpIsProper(items[Picked(items, parts[0]).value], parts[1..]);
    }
  }

  lemma {:induction false} GetIsProper(es: Entries, key: string)
    requires Proper(es) && Get(es, key).Some?
    ensures ProperValue(Get(es, key).value)
  {
    if es[0].key != key {
      ProperTail(es);
      GetIsProper(es[1..], key);
    }
  }
}
