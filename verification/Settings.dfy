/** Settings kept in nested tables and lists of tables, read and changed by dotted key. */
module Settings {
  import opened Options
  import opened Keys
  import Words

  /** A scalar is kept as it is written. */
  datatype Value = Scalar(text: string) | Array(items: seq<Value>) | Table(entries: Entries)

  datatype Entry = Entry(key: string, value: Value)

  /** A table's entries, in order, no key twice. */
  type Entries = seq<Entry>

  // ------------------------------------------------------------ one table

  function Get(es: Entries, key: string): (v: Option<Value>) {
    if es == [] then None
    else if es[0].key == key then Some(es[0].value)
    else Get(es[1..], key)
  }

  /** A value put in the place of the one there, or else at the end. */
  function Put(es: Entries, key: string, v: Value): (r: Entries)
    ensures r != []
  {
    if es == [] then [Entry(key, v)]
    else if es[0].key == key then [Entry(key, v)] + es[1..]
    else [es[0]] + Put(es[1..], key, v)
  }

  function Without(es: Entries, key: string): (r: Entries) {
    if es == [] then []
    else if es[0].key == key then Without(es[1..], key)
    else [es[0]] + Without(es[1..], key)
  }

  lemma {:induction false} GetPut(es: Entries, key: string, v: Value, other: string)
    ensures Get(Put(es, key, v), other) == if other == key then Some(v) else Get(es, other)
  {
    if es != [] && es[0].key != key {
      GetPut(es[1..], key, v, other);
    }
  }

  lemma {:induction false} GetWithout(es: Entries, key: string, other: string)
    ensures Get(Without(es, key), other) == if other == key then None else Get(es, other)
  {
    if es != [] {
      GetWithout(es[1..], key, other);
    }
  }

  // ------------------------------------------------------------ looking up

  /** The item a part picks of a list, numbered from 1. */
  function Picked(items: seq<Value>, part: string): (i: Option<nat>)
    ensures i.Some? ==> i.value < |items|
  {
    match Parse(part)
    case None => None
    case Some(n) => if 1 <= n <= |items| then Some(n - 1) else None
  }

  function LookupAt(v: Value, parts: seq<string>): (r: Option<Value>)
    decreases |parts|
  {
    if parts == [] then Some(v)
    else
      match v
      case Scalar(_) => None
      case Table(es) => LookupIn(es, parts)
      case Array(items) =>
        match Picked(items, parts[0])
        case None => None
        case Some(i) => LookupAt(items[i], parts[1..])
  }

  function LookupIn(es: Entries, parts: seq<string>): (r: Option<Value>)
    requires parts != []
    decreases |parts|, 0
  {
    match Get(es, parts[0])
    case None => None
    case Some(v) => LookupAt(v, parts[1..])
  }

  /** What a key leads to, through tables by name and lists by number. */
  function Lookup(es: Entries, key: string): (r: Option<Value>) {
    LookupIn(es, Split(key))
  }

  // ------------------------------------------------------------ changing

  datatype Edit = Insert(key: string, value: Value) | Remove(key: string)

  /** What came of a change: the value that was there before, or nothing to change, or a
      list no number picks a table of. */
  datatype Outcome = Reached(before: Option<Value>) | Nothing | Refused

  predicate IsTable(v: Value) {
    v.Table?
  }

  predicate HasTable(items: seq<Value>) {
    exists i :: 0 <= i < |items| && IsTable(items[i])
  }

  function Apply(es: Entries, edit: Edit): (r: Entries) {
    match edit
    case Insert(key, value) => Put(es, key, value)
    case Remove(key) => Without(es, key)
  }

  predicate Numbered(parts: seq<string>) {
    parts != [] && Parse(parts[0]).Some?
  }

  /** What a set goes through at a part: an empty table for what is missing; for a list without
      tables, unless a number follows, a table with the list under `steps`. */
  function Slot(es: Entries, parts: seq<string>, make: bool): (v: Value)
    requires parts != []
  {
    var v := match Get(es, parts[0]) { case None => Table([]) case Some(v) => v };
    if make && v.Array? && !Numbered(parts[1..]) && !HasTable(v.items) then Table([Entry("steps", v)]) else v
  }

  /** The change made in the table that `parts` lead to, and what the tables become. */
  function Descend(es: Entries, parts: seq<string>, make: bool, edit: Edit): (r: (Entries, Outcome))
    decreases |parts|
  {
    if parts == [] then (Apply(es, edit), Reached(Get(es, edit.key)))
    else if !make && Get(es, parts[0]).None? then (es, Nothing)
    else
      match Slot(es, parts, make)
      case Table(inner) =>
        var (inner', out) := Descend(inner, parts[1..], make, edit);
        (Put(es, parts[0], Table(inner')), out)
      case Array(items) =>
        var i := if |parts| > 1 then Picked(items, parts[1]) else None;
        if i.Some? && items[i.value].Table? then
          var (inner', out) := Descend(items[i.value].entries, parts[2..], make, edit);
          (Put(es, parts[0], Array(items[i.value := Table(inner')])), out)
        else (Put(es, parts[0], Array(items)), Refused)
      case Scalar(_) =>
        if make then
          var (inner', out) := Descend([], parts[1..], make, edit);
          (Put(es, parts[0], Table(inner')), out)
        else (es, Nothing)
  }

  datatype Result = Ok(before: Option<Value>) | Err

  /** `key` set to `value`: the tables after, and the value it replaced. */
  function SetIn(es: Entries, key: string, value: Value): (r: (Entries, Result)) {
    match PathOf(key)
    case NotAName => (es, Err)
    case Path(parents, last) =>
      var (es', out) := Descend(es, parents, true, Insert(last, value));
      (es', if out.Reached? then Ok(out.before) else Err)
  }

  /** `key` taken out: the tables after, and whether it was there. */
  function UnsetIn(es: Entries, key: string): (r: (Entries, Result)) {
    match PathOf(key)
    case NotAName => (es, Err)
    case Path(parents, last) =>
      var (es', out) := Descend(es, parents, false, Remove(last));
      (es', match out case Reached(before) => Ok(before) case Nothing => Ok(None) case Refused => Err)
  }

  // ------------------------------------------------- what a change leaves there

  lemma ThroughList(items: seq<Value>, i: nat, now: Value, q: seq<string>)
    requires i < |items| && q != []
    ensures LookupAt(Array(items[i := now]), q) ==
            if Picked(items, q[0]) == Some(i) then LookupAt(now, q[1..]) else LookupAt(Array(items), q)
  {
    assert Picked(items[i := now], q[0]) == Picked(items, q[0]);
  }

  /** After the change, the key leads to what the edit says. */
  lemma {:induction false} DescendLooksUp(es: Entries, parts: seq<string>, make: bool, edit: Edit)
    requires Descend(es, parts, make, edit).1.Reached?
    ensures LookupIn(Descend(es, parts, make, edit).0, parts + [edit.key]) == if edit.Insert? then Some(edit.value) else None
    decreases |parts|
  {
    var whole := parts + [edit.key];
    if parts == [] {
      if edit.Insert? {
        GetPut(es, edit.key, edit.value, edit.key);
      } else {
        GetWithout(es, edit.key, edit.key);
      }
    } else {
      var slot := Slot(es, parts, make);
      assert whole[1..] == parts[1..] + [edit.key];
      if slot.Table? || slot.Scalar? {
        var inner := if slot.Table? then slot.entries else [];
        DescendLooksUp(inner, parts[1..], make, edit);
        GetPut(es, parts[0], Table(Descend(inner, parts[1..], make, edit).0), parts[0]);
      } else {
        DescendLooksUpInList(es, parts, make, edit, slot.items);
      }
    }
  }

  lemma {:induction false} DescendLooksUpInList(es: Entries, parts: seq<string>, make: bool, edit: Edit, items: seq<Value>)
    requires Descend(es, parts, make, edit).1.Reached?
    requires parts != [] && (make || Get(es, parts[0]).Some?) && Slot(es, parts, make) == Array(items)
    ensures LookupIn(Descend(es, parts, make, edit).0, parts + [edit.key]) == if edit.Insert? then Some(edit.value) else None
    decreases |parts|, 0
  {
    var i := Picked(items, parts[1]).value;
    var inner, whole := items[i].entries, parts + [edit.key];
    DescendLooksUp(inner, parts[2..], make, edit);
    var now := Table(Descend(inner, parts[2..], make, edit).0);
    GetPut(es, parts[0], Array(items[i := now]), parts[0]);
    ThroughList(items, i, now, whole[1..]);
    assert whole[1..][1..] == parts[2..] + [edit.key];
  }

  // -------------------------------------------------------- set, unset, look up

  /** The key that `SetIn` and `UnsetIn` take a typed key for. */
  lemma PathIsTheKey(key: string)
    requires PathOf(key).Path?
    ensures var p := PathOf(key); Split(Words.Trimmed(key)) == p.parents + [p.last]
  {
    var parts := Split(Words.Trimmed(key));
    assert parts == parts[..|parts| - 1] + [parts[|parts| - 1]];
  }

  /** What was set is there. */
  lemma SetLooksUp(es: Entries, key: string, value: Value)
    requires SetIn(es, key, value).1.Ok?
    ensures Lookup(SetIn(es, key, value).0, Words.Trimmed(key)) == Some(value)
  {
    var p := PathOf(key);
    PathIsTheKey(key);
    DescendLooksUp(es, p.parents, true, Insert(p.last, value));
  }

  /** With nothing to change, nothing is there, and nothing is changed. */
  lemma {:induction false} NothingThere(es: Entries, parts: seq<string>, edit: Edit)
    requires edit.Remove? && Descend(es, parts, false, edit).1.Nothing?
    ensures LookupIn(es, parts + [edit.key]).None?
    decreases |parts|
  {
    if parts != [] && Get(es, parts[0]).Some? {
      var whole := parts + [edit.key];
      assert whole[1..] == parts[1..] + [edit.key];
      match Slot(es, parts, false)
      case Table(inner) => NothingThere(inner, parts[1..], edit);
      case Scalar(_) =>
      case Array(items) =>
        var i := Picked(items, parts[1]).value;
        NothingThere(items[i].entries, parts[2..], edit);
        assert whole[1..][1..] == parts[2..] + [edit.key];
        assert LookupAt(Array(items), whole[1..]) == LookupAt(items[i], whole[1..][1..]);
    }
  }

  // ------------------------------------------------------ what a change leaves alone

  /** The walk turns a list into a table, or replaces a scalar. */
  predicate Converts(es: Entries, parts: seq<string>)
    decreases |parts|
  {
    parts != [] && Get(es, parts[0]).Some? &&
    match Get(es, parts[0]).value
    case Table(inner) => Converts(inner, parts[1..])
    case Scalar(_) => true
    case Array(items) =>
      if !Numbered(parts[1..]) && !HasTable(items) then true
      else if |parts| == 1 || Picked(items, parts[1]).None? then false
      else
        var item := items[Picked(items, parts[1]).value];
        item.Table? && Converts(item.entries, parts[2..])
  }

  /** The same part, or the same number. */
  predicate Alike(a: string, b: string) {
    a == b || (Parse(a).Some? && Parse(a) == Parse(b))
  }

  /** Neither of two keys leads to or through the other. */
  predicate Unrelated(p: seq<string>, q: seq<string>) {
    p != [] && q != [] && (!Alike(p[0], q[0]) || Unrelated(p[1..], q[1..]))
  }

  /** A change that converts nothing on its way leaves every unrelated key as it was. */
  lemma {:induction false} OthersStay(es: Entries, parts: seq<string>, make: bool, edit: Edit, q: seq<string>)
    requires make ==> !Converts(es, parts)
    requires Unrelated(parts + [edit.key], q)
    ensures LookupIn(Descend(es, parts, make, edit).0, q) == LookupIn(es, q)
    decreases |parts|
  {
    var whole := parts + [edit.key];
    var r := Descend(es, parts, make, edit);
    if parts == [] {
      if edit.Insert? {
        GetPut(es, edit.key, edit.value, q[0]);
      } else {
        GetWithout(es, edit.key, q[0]);
      }
    } else if !(!make && Get(es, parts[0]).None?) {
      var slot := Slot(es, parts, make);
      assert whole[1..] == parts[1..] + [edit.key];
      match slot
      case Scalar(_) =>
      case Table(inner) =>
        GetPut(es, parts[0], Table(Descend(inner, parts[1..], make, edit).0), q[0]);
        if q[0] == parts[0] {
          OthersStay(inner, parts[1..], make, edit, q[1..]);
        }
      case Array(items) =>
        OthersStayInList(es, parts, make, edit, q, items);
    }
  }

  lemma {:induction false} OthersStayInList(es: Entries, parts: seq<string>, make: bool, edit: Edit, q: seq<string>, items: seq<Value>)
    requires make ==> !Converts(es, parts)
    requires Unrelated(parts + [edit.key], q) && parts != [] && Get(es, parts[0]) == Some(Array(items))
    requires make ==> Numbered(parts[1..]) || HasTable(items)
    ensures LookupIn(Descend(es, parts, make, edit).0, q) == LookupIn(es, q)
    decreases |parts|, 0
  {
    var whole := parts + [edit.key];
    var i := if |parts| > 1 then Picked(items, parts[1]) else None;
    if i.Some? && items[i.value].Table? {
      var inner := items[i.value].entries;
      var now := Table(Descend(inner, parts[2..], make, edit).0);
      GetPut(es, parts[0], Array(items[i.value := now]), q[0]);
      if q[0] == parts[0] {
        var p', q' := whole[1..], q[1..];
        assert Unrelated(p', q') && p'[0] == parts[1] && p'[1..] == parts[2..] + [edit.key];
        ThroughList(items, i.value, now, q');
        if Picked(items, q'[0]) == i {
          assert Alike(p'[0], q'[0]);
          OthersStay(inner, parts[2..], make, edit, q'[1..]);
          assert LookupAt(now, q'[1..]) == LookupAt(Table(inner), q'[1..]);
        }
        assert LookupAt(Array(items[i.value := now]), q') == LookupAt(Array(items), q');
      }
    } else {
      GetPut(es, parts[0], Array(items), q[0]);
    }
  }

  /** A key unrelated to the one set keeps its value, if the way to it converts nothing. */
  lemma SetLeavesOthers(es: Entries, key: string, value: Value, other: string)
    requires PathOf(key).Path? && !Converts(es, PathOf(key).parents)
    requires Unrelated(Split(Words.Trimmed(key)), Split(other))
    ensures Lookup(SetIn(es, key, value).0, other) == Lookup(es, other)
  {
    var p := PathOf(key);
    PathIsTheKey(key);
    OthersStay(es, p.parents, true, Insert(p.last, value), Split(other));
  }

  /** A key unrelated to the one taken out keeps its value. */
  lemma UnsetLeavesOthers(es: Entries, key: string, other: string)
    requires Unrelated(Split(Words.Trimmed(key)), Split(other))
    ensures Lookup(UnsetIn(es, key).0, other) == Lookup(es, other)
  {
    var p := PathOf(key);
    if p.Path? {
      PathIsTheKey(key);
      OthersStay(es, p.parents, false, Remove(p.last), Split(other));
    }
  }

  // -------------------------------------------------- what was there before

  /** What a change says was there is what looking up the key gave, if it converts nothing. */
  lemma {:induction false} BeforeIsLookedUp(es: Entries, parts: seq<string>, make: bool, edit: Edit)
    requires Descend(es, parts, make, edit).1.Reached?
    requires make ==> !Converts(es, parts)
    ensures Descend(es, parts, make, edit).1 == Reached(LookupIn(es, parts + [edit.key]))
    decreases |parts|
  {
    if parts != [] {
      var whole := parts + [edit.key];
      assert whole[1..] == parts[1..] + [edit.key];
      match Slot(es, parts, make)
      case Scalar(_) =>
      case Table(inner) =>
        BeforeIsLookedUp(inner, parts[1..], make, edit);
      case Array(items) =>
        BeforeIsLookedUp(items[Picked(items, parts[1]).value].entries, parts[2..], make, edit);
        assert whole[1..][1..] == parts[2..] + [edit.key];
        assert LookupAt(Array(items), whole[1..]) == LookupAt(items[Picked(items, parts[1]).value], whole[1..][1..]);
    }
  }

  /** After a successful unset the key leads to nothing, and the answer says whether it did. */
  lemma UnsetLooksUp(es: Entries, key: string)
    requires UnsetIn(es, key).1.Ok?
    ensures Lookup(UnsetIn(es, key).0, Words.Trimmed(key)).None?
    ensures UnsetIn(es, key).1 == Ok(Lookup(es, Words.Trimmed(key)))
  {
    var p := PathOf(key);
    PathIsTheKey(key);
    if Descend(es, p.parents, false, Remove(p.last)).1.Reached? {
      DescendLooksUp(es, p.parents, false, Remove(p.last));
      BeforeIsLookedUp(es, p.parents, false, Remove(p.last));
    } else {
      NothingThere(es, p.parents, Remove(p.last));
      ElseUnchanged(es, p.parents, false, Remove(p.last));
    }
  }

  lemma {:induction false} PutSame(es: Entries, key: string)
    requires Get(es, key).Some?
    ensures Put(es, key, Get(es, key).value) == es
  {
    if es[0].key != key {
      PutSame(es[1..], key);
    }
  }

  /** A change that does not come about leaves everything as it was, unless it converted a
      list or a scalar on its way. */
  lemma {:induction false} ElseUnchanged(es: Entries, parts: seq<string>, make: bool, edit: Edit)
    requires !Descend(es, parts, make, edit).1.Reached?
    requires make ==> !Converts(es, parts)
    ensures Descend(es, parts, make, edit).0 == es
    decreases |parts|
  {
    if !(!make && Get(es, parts[0]).None?) {
      match Slot(es, parts, make)
      case Scalar(_) =>
      case Table(inner) =>
        ElseUnchanged(inner, parts[1..], make, edit);
        if Get(es, parts[0]).Some? {
          PutSame(es, parts[0]);
        }
      case Array(items) =>
        var i := if |parts| > 1 then Picked(items, parts[1]) else None;
        PutSame(es, parts[0]);
        if i.Some? && items[i.value].Table? {
          ElseUnchanged(items[i.value].entries, parts[2..], make, edit);
          assert items[i.value := items[i.value]] == items;
        }
    }
  }

  // ------------------------------------------------------ lists turned into tables

  /** The first list the walk turns into a table: the way to it, and its items. */
  function ListInWay(es: Entries, parts: seq<string>): (r: Option<(seq<string>, seq<Value>)>)
    decreases |parts|
    ensures r.Some? ==> 0 < |r.value.0| <= |parts|
  {
    if parts == [] || Get(es, parts[0]).None? then None
    else
      match Get(es, parts[0]).value
      case Scalar(_) => None
      case Table(inner) => Led(parts[..1], ListInWay(inner, parts[1..]))
      case Array(items) =>
        if !Numbered(parts[1..]) && !HasTable(items) then Some((parts[..1], items))
        else if |parts| == 1 || Picked(items, parts[1]).None? then None
        else
          var item := items[Picked(items, parts[1]).value];
          if item.Table? then Led(parts[..2], ListInWay(item.entries, parts[2..])) else None
  }

  function Led(way: seq<string>, r: Option<(seq<string>, seq<Value>)>): (s: Option<(seq<string>, seq<Value>)>) {
    match r
    case None => None
    case Some((rest, items)) => Some((way + rest, items))
  }

  lemma OtherKeysStay(es: Entries, parts: seq<string>, make: bool, edit: Edit, k: string)
    requires k != (parts + [edit.key])[0]
    ensures Get(Descend(es, parts, make, edit).0, k) == Get(es, k)
  {
    if parts == [] {
      if edit.Insert? {
        GetPut(es, edit.key, edit.value, k);
      } else {
        GetWithout(es, edit.key, k);
      }
    } else {
      forall v
        ensures Get(Put(es, parts[0], v), k) == Get(es, k)
      {
        GetPut(es, parts[0], v, k);
      }
    }
  }

  /** What the walk leaves of a list it turned into a table: it is a table now, and its
      items are at `steps` unless the change went there. */
  ghost predicate Converted(es: Entries, r: Entries, whole: seq<string>, way: seq<string>, items: seq<Value>) {
    && 0 < |way| < |whole|
    && LookupIn(es, way) == Some(Array(items))
    && LookupIn(r, way).Some? && LookupIn(r, way).value.Table?
    && (whole[|way|] != "steps" ==> LookupIn(r, way + ["steps"]) == Some(Array(items)))
  }

  /** A list in the way becomes a table, and keeps its items there as `steps`. */
  lemma {:induction false} ListKeepsItsSteps(es: Entries, parts: seq<string>, edit: Edit)
    requires ListInWay(es, parts).Some?
    ensures var (way, items) := ListInWay(es, parts).value;
            Converted(es, Descend(es, parts, true, edit).0, parts + [edit.key], way, items)
    decreases |parts|
  {
    var (way, items) := ListInWay(es, parts).value;
    match Get(es, parts[0]).value
    case Table(inner) =>
      ListKeepsItsSteps(inner, parts[1..], edit);
      var (rest, _) := ListInWay(inner, parts[1..]).value;
      GetPut(es, parts[0], Table(Descend(inner, parts[1..], true, edit).0), parts[0]);
      assert way[1..] == rest && (way + ["steps"])[1..] == rest + ["steps"];
      assert (parts + [edit.key])[1..] == parts[1..] + [edit.key];
    case Array(list) =>
      if !Numbered(parts[1..]) && !HasTable(list) {
        ConvertedHere(es, parts, edit, list);
      } else {
        ListKeepsItsSteps(list[Picked(list, parts[1]).value].entries, parts[2..], edit);
        ConvertedWithin(es, parts, edit, list);
      }
  }

  lemma ConvertedHere(es: Entries, parts: seq<string>, edit: Edit, list: seq<Value>)
    requires parts != [] && Get(es, parts[0]) == Some(Array(list)) && !Numbered(parts[1..]) && !HasTable(list)
    ensures Converted(es, Descend(es, parts, true, edit).0, parts + [edit.key], parts[..1], list)
  {
    var whole, way := parts + [edit.key], parts[..1];
    var made := [Entry("steps", Array(list))];
    var now := Descend(made, parts[1..], true, edit).0;
    var r := Descend(es, parts, true, edit).0;
    GetPut(es, parts[0], Table(now), parts[0]);
    assert way[1..] == [];
    assert whole[1..] == parts[1..] + [edit.key];
    if whole[1] != "steps" {
      OtherKeysStay(made, parts[1..], true, edit, "steps");
      assert (way + ["steps"])[1..] == ["steps"] && ["steps"][1..] == [];
      assert LookupIn(r, way + ["steps"]) == LookupAt(Table(now), ["steps"]);
      assert LookupAt(Table(now), ["steps"]) == LookupAt(Get(now, "steps").value, []);
    }
  }

  lemma ConvertedWithin(es: Entries, parts: seq<string>, edit: Edit, list: seq<Value>)
    requires |parts| > 1 && Get(es, parts[0]) == Some(Array(list)) && (Numbered(parts[1..]) || HasTable(list))
    requires Picked(list, parts[1]).Some? && list[Picked(list, parts[1]).value].Table?
    requires var inner := list[Picked(list, parts[1]).value].entries;
             && ListInWay(inner, parts[2..]).Some?
             && var (rest, items) := ListInWay(inner, parts[2..]).value;
                Converted(inner, Descend(inner, parts[2..], true, edit).0, parts[2..] + [edit.key], rest, items)
    ensures var (way, items) := ListInWay(es, parts).value;
            Converted(es, Descend(es, parts, true, edit).0, parts + [edit.key], way, items)
  {
    var i := Picked(list, parts[1]).value;
    var inner := list[i].entries;
    var (way, items) := ListInWay(es, parts).value;
    var (rest, _) := ListInWay(inner, parts[2..]).value;
    var now := Table(Descend(inner, parts[2..], true, edit).0);
    GetPut(es, parts[0], Array(list[i := now]), parts[0]);
    assert (parts + [edit.key])[2..] == parts[2..] + [edit.key];
    LookedUpWithin(es, parts, list, i, way, rest);
    LookedUpWithin(Descend(es, parts, true, edit).0, parts, list[i := now], i, way, rest);
    LookedUpWithin(Descend(es, parts, true, edit).0, parts, list[i := now], i, way + ["steps"], rest + ["steps"]);
  }

  /** Looking up through an item of a list. */
  lemma LookedUpWithin(es: Entries, parts: seq<string>, list: seq<Value>, i: nat, way: seq<string>, rest: seq<string>)
    requires |parts| > 1 && Get(es, parts[0]) == Some(Array(list)) && Picked(list, parts[1]) == Some(i)
    requires list[i].Table? && way == parts[..2] + rest && rest != []
    ensures LookupIn(es, way) == LookupIn(list[i].entries, rest)
  {
    assert way[1..][0] == parts[1] && way[1..][1..] == rest;
    assert LookupAt(Array(list), way[1..]) == LookupAt(list[i], way[1..][1..]);
  }

  // ------------------------------------------------------ a set that fails

  /** A change made from nothing always comes about. */
  lemma {:induction false} FreshIsReached(parts: seq<string>, edit: Edit)
    ensures Descend([], parts, true, edit).1.Reached?
  {
    if parts != [] {
      FreshIsReached(parts[1..], edit);
    }
  }

  lemma {:induction false} RefusedConverts(es: Entries, parts: seq<string>, edit: Edit)
    requires !Descend(es, parts, true, edit).1.Reached?
    ensures Converts(es, parts) <==> ListInWay(es, parts).Some?
    decreases |parts|
  {
    match Slot(es, parts, true)
    case Scalar(_) => FreshIsReached(parts[1..], edit);
    case Table(inner) =>
      if Get(es, parts[0]).Some? && Get(es, parts[0]).value.Table? {
        RefusedConverts(inner, parts[1..], edit);
      } else if Get(es, parts[0]).None? {
        FreshIsReached(parts[1..], edit);
      }
    case Array(items) =>
      if |parts| > 1 && Picked(items, parts[1]).Some? && items[Picked(items, parts[1]).value].Table? {
        RefusedConverts(items[Picked(items, parts[1]).value].entries, parts[2..], edit);
      }
  }

  /** A set that fails leaves the tables as they were exactly when it turned no list into a
      table on its way. */
  lemma FailedSetUnchanged(es: Entries, key: string, value: Value)
    requires SetIn(es, key, value).1.Err? && PathOf(key).Path?
    ensures SetIn(es, key, value).0 == es <==> ListInWay(es, PathOf(key).parents).None?
  {
    var p := PathOf(key);
    var edit := Insert(p.last, value);
    RefusedConverts(es, p.parents, edit);
    if ListInWay(es, p.parents).None? {
      ElseUnchanged(es, p.parents, true, edit);
    } else {
      ListKeepsItsSteps(es, p.parents, edit);
    }
  }

  lemma FourParts(a: string, b: string, c: string, d: string)
    requires Part(a) && Part(b) && Part(c) && Part(d) && StartsDark(a) && EndsDark(d)
    ensures PathOf(a + "." + b + "." + c + "." + d) == Path([a, b, c], d)
  {
    DottedMore([a], b);
    DottedMore([a, b], c);
    DottedMore([a, b, c], d);
    assert [a] + [b] == [a, b] && [a, b] + [c] == [a, b, c] && [a, b, c] + [d] == [a, b, c, d];
    NeatPathIsRead([a, b, c, d]);
    assert [a, b, c, d][..3] == [a, b, c];
  }

  lemma SuchAKey()
    ensures PathOf("x.steps.1.y") == Path(["x", "steps", "1"], "y")
  {
    FourParts("x", "steps", "1", "y");
    assert "x" + "." + "steps" == "x.steps";
    assert "x.steps" + "." + "1" == "x.steps.1";
    assert "x.steps.1" + "." + "y" == "x.steps.1.y";
  }

  lemma SuchAList()
    ensures var es := [Entry("x", Array([Scalar("1")]))];
            Descend(es, ["x", "steps", "1"], true, Insert("y", Scalar("2"))) ==
            ([Entry("x", Table([Entry("steps", Array([Scalar("1")]))]))], Refused)
  {
    var es := [Entry("x", Array([Scalar("1")]))];
    var made := [Entry("steps", Array([Scalar("1")]))];
    assert Number("1") == Number("1"[..0]) * 10 + DigitOf('1');
    assert Parse("1") == Some(1) && Parse("steps").None? by {
      assert !IsDigit("steps"[0]);
    }
    var edit := Insert("y", Scalar("2"));
    assert ["x", "steps", "1"][1..] == ["steps", "1"] && ["steps", "1"][1..] == ["1"];
    assert Slot(made, ["steps", "1"], true) == Array([Scalar("1")]);
    assert Picked([Scalar("1")], "1") == Some(0);
    PutSame(made, "steps");
    assert Descend(made, ["steps", "1"], true, edit) == (made, Refused);
    assert !HasTable([Scalar("1")]);
    assert Slot(es, ["x", "steps", "1"], true) == Table(made);
    assert es[1..] == [] && Put(es, "x", Table(made)) == [Entry("x", Table(made))];
  }

  /** Such a list: setting `x.steps.1.y` where `x` is a list of one scalar fails, and yet
      leaves `x` a table. */
  lemma FailedSetMayChange()
    ensures SetIn([Entry("x", Array([Scalar("1")]))], "x.steps.1.y", Scalar("2")) ==
            ([Entry("x", Table([Entry("steps", Array([Scalar("1")]))]))], Err)
  {
    SuchAKey();
    SuchAList();
  }
}
