/** The difference of two projections, and a copy kept up to date by such differences. */
module Changes {
  import opened Json
  import opened Happenings
  import opened Options

  type Fields = map<string, Value>

  // ------------------------------------------------------------ what counts the clock

  function WithoutSeconds(v: Value): (r: Value) {
    if v.Object? then Object(v.fields - {"seconds_left"}) else v
  }

  function SteadyTimer(fs: Fields, key: string): (r: Fields) {
    if key in fs then fs[key := WithoutSeconds(fs[key])] else fs
  }

  /** The fields with the countdowns of timers and effects removed. */
  function Steady(fs: Fields): (r: Fields)
    ensures r.Keys == fs.Keys
  {
    var timed := SteadyTimer(SteadyTimer(fs, "roundtime"), "cast_roundtime");
    if "effects" in timed && timed["effects"].Array? then
      var items := timed["effects"].items;
      timed["effects" := Array(seq(|items|, i requires 0 <= i < |items| => WithoutSeconds(items[i])))]
    else timed
  }

  const CLOCK_ONLY: set<string> := {"cursor", "captured_unix_ms", "clock"}

  /** What a projection says besides the clock. */
  function Told(fs: Fields): (r: Fields)
    ensures r.Keys == fs.Keys - CLOCK_ONLY
  {
    Steady(fs) - CLOCK_ONLY
  }

  /** The fields of `after` that differ from `before`, or all of them when there is none. */
  function ChangedFields(before: Option<Fields>, after: Fields): (r: Fields) {
    var was, now := if before.Some? then Steady(before.value) else map[], Steady(after);
    map k | k in now && k !in CLOCK_ONLY && !(k in was && was[k] == now[k]) :: now[k]
  }

  /** What is said of a change; none when nothing but the clock moved. */
  function ChangedOf(before: Fields, after: Fields): (h: Option<Happening>) {
    var fields := ChangedFields(Some(before), after);
    if fields == map[] then None else Some(Happening.Changed(fields))
  }

  /** Nothing is said exactly when everything the later projection tells, the earlier told too. */
  lemma SilentWhen(before: Fields, after: Fields)
    ensures ChangedOf(before, after).None? <==>
            forall k :: k in Told(after) ==> k in Told(before) && Told(before)[k] == Told(after)[k]
  {
    var fields := ChangedFields(Some(before), after);
    if fields != map[] {
      var k :| k in fields;
      assert k in Told(after);
    } else {
      forall k | k in Told(after)
        ensures k in Told(before) && Told(before)[k] == Told(after)[k]
      {
        assert k !in fields;
      }
    }
  }

  // ------------------------------------------------------------ the copy

  /** The runner's copy after a run of projections: the first whole, then each change merged in. */
  function Copy(states: seq<Fields>): (copy: Fields)
    requires states != []
  {
    if |states| == 1 then ChangedFields(None, states[0])
    else
      var front := states[..|states| - 1];
      Copy(front) + ChangedFields(Some(front[|front| - 1]), states[|states| - 1])
  }

  ghost predicate Holds(copy: Fields, told: Fields) {
    forall k :: k in told ==> k in copy && copy[k] == told[k]
  }

  ghost predicate EverTold(states: seq<Fields>, k: string) {
    exists i :: 0 <= i < |states| && k in Told(states[i])
  }

  /** A copy that holds the last projection holds the next once the change is merged in. */
  lemma MergedHolds(copy: Fields, before: Fields, after: Fields)
    requires Holds(copy, Told(before))
    ensures var now := copy + ChangedFields(Some(before), after);
            Holds(now, Told(after)) && now.Keys == copy.Keys + Told(after).Keys
  {
    var sent := ChangedFields(Some(before), after);
    forall k | k in Told(after)
      ensures k in copy + sent && (copy + sent)[k] == Told(after)[k]
    {
      if k !in sent {
        assert k in Told(before);
      }
    }
    assert forall k :: k in sent ==> k in Told(after);
    assert forall k :: k in (copy + sent).Keys <==> k in copy || k in sent;
  }

  lemma FirstCopy(first: Fields)
    ensures ChangedFields(None, first) == Told(first)
  {
  }

  /** The copy holds what the last projection told. */
  lemma {:induction false} CopyHolds(states: seq<Fields>)
    requires states != []
    ensures Holds(Copy(states), Told(states[|states| - 1]))
  {
    if |states| == 1 {
      FirstCopy(states[0]);
    } else {
      var front := states[..|states| - 1];
      CopyHolds(front);
      MergedHolds(Copy(front), front[|front| - 1], states[|states| - 1]);
    }
  }

  /** The copy has every field any projection told. */
  lemma {:induction false} CopyHasAll(states: seq<Fields>, k: string)
    requires states != []
    ensures k in Copy(states) <==> EverTold(states, k)
  {
    EverToldMore(states, k);
    var front := states[..|states| - 1];
    if |states| == 1 {
      FirstCopy(states[0]);
    } else {
      CopyHasAll(front, k);
      CopyHolds(front);
      MergedHolds(Copy(front), front[|front| - 1], states[|states| - 1]);
      assert k in Copy(states).Keys <==> k in Copy(front).Keys + Told(states[|states| - 1]).Keys;
    }
  }

  lemma EverToldMore(states: seq<Fields>, k: string)
    requires states != []
    ensures EverTold(states, k) <==> EverTold(states[..|states| - 1], k) || k in Told(states[|states| - 1])
  {
    var front := states[..|states| - 1];
    if EverTold(front, k) {
      var i :| 0 <= i < |front| && k in Told(front[i]);
      assert k in Told(states[i]);
    }
    if EverTold(states, k) {
      var i :| 0 <= i < |states| && k in Told(states[i]);
      assert i < |front| ==> k in Told(front[i]);
    }
  }

  lemma SameFields(a: Fields, b: Fields)
    requires Holds(a, b) && forall k :: k in a ==> k in b
    ensures a == b
  {
  }

  /** The copy is what the last projection tells exactly when no field told before has gone:
      a change names no field that went away. */
  lemma CopyIsTheLastWhen(states: seq<Fields>)
    requires states != []
    ensures Copy(states) == Told(states[|states| - 1]) <==>
            forall k :: EverTold(states, k) ==> k in Told(states[|states| - 1])
  {
    CopyHolds(states);
    forall k
      ensures k in Copy(states) <==> EverTold(states, k)
    {
      CopyHasAll(states, k);
    }
    var copy, last := Copy(states), Told(states[|states| - 1]);
    if copy == last {
      forall k | EverTold(states, k)
        ensures k in last
      {
        assert k in copy;
      }
    }
    if forall k :: EverTold(states, k) ==> k in last {
      SameFields(copy, last);
    }
  }

  /** Projections of one kind have one set of fields, so the copy is always what the last
      of them tells. */
  lemma CopyIsTheLast(states: seq<Fields>)
    requires states != [] && forall i :: 0 <= i < |states| ==> states[i].Keys == states[0].Keys
    ensures Copy(states) == Told(states[|states| - 1])
  {
    var last := Told(states[|states| - 1]);
    forall k | EverTold(states, k)
      ensures k in last
    {
      var i :| 0 <= i < |states| && k in Told(states[i]);
      assert states[i].Keys == states[0].Keys;
    }
    CopyIsTheLastWhen(states);
  }

  // ------------------------------------------------------------ ids in order

  /** `a` comes before `b`, character by character. */
  predicate Before(a: string, b: string) {
    b != [] && (a == [] || a[0] < b[0] || (a[0] == b[0] && Before(a[1..], b[1..])))
  }

  lemma {:induction false} OneIsBefore(a: string, b: string)
    requires a != b
    ensures Before(a, b) || Before(b, a)
  {
    if a != [] && b != [] && a[0] == b[0] {
      assert a == [a[0]] + a[1..] && b == [b[0]] + b[1..];
      OneIsBefore(a[1..], b[1..]);
    }
  }

  lemma {:induction false} BeforeAll(a: string, b: string, c: string)
    requires Before(a, b) && Before(b, c)
    ensures Before(a, c)
  {
    if a != [] && a[0] == b[0] && b[0] == c[0] {
      BeforeAll(a[1..], b[1..], c[1..]);
    }
  }

  lemma {:induction false} NotBeforeItself(a: string)
    ensures !Before(a, a)
  {
    if a != [] {
      NotBeforeItself(a[1..]);
    }
  }

  ghost predicate BeforeThem(id: string, ids: set<string>) {
    forall x :: x in ids ==> Before(id, x)
  }

  /** The first of some ids. */
  method First(ids: set<string>) returns (id: string)
    requires ids != {}
    ensures id in ids && BeforeThem(id, ids - {id})
  {
    id :| id in ids;
    var todo := ids - {id};
    while todo != {}
      invariant todo <= ids && id in ids - todo && BeforeThem(id, ids - todo - {id})
    {
      var x :| x in todo;
      todo := todo - {x};
      if Before(x, id) {
        forall y | y in ids - todo - {x}
          ensures Before(x, y)
        {
          if y != id {
            BeforeAll(x, id, y);
          }
        }
        id := x;
      } else {
        OneIsBefore(id, x);
      }
    }
    assert ids - todo - {id} == ids - {id};
  }

  // ------------------------------------------------------------ statuses

  type Statuses = map<string, bool>

  function StatusOf(s: Statuses, id: string): (on: Option<bool>) {
    if id in s then Some(s[id]) else None
  }

  /** The status changes, each once. */
  ghost predicate StatusChanges(was: Statuses, now: Statuses, ids: set<string>, out: seq<Happening>) {
    && (forall i :: 0 <= i < |out| ==>
          out[i].Status? && out[i].id in ids && out[i].now == StatusOf(now, out[i].id) && StatusOf(was, out[i].id) != out[i].now)
    && (forall id :: id in ids && StatusOf(was, id) != StatusOf(now, id) ==> exists i :: 0 <= i < |out| && out[i].id == id)
  }

  ghost predicate ByOrderOfId(out: seq<Happening>) {
    forall i, j :: 0 <= i < j < |out| ==> out[i].Status? && out[j].Status? && Before(out[i].id, out[j].id)
  }

  /** One more id is looked at. */
  lemma OneMoreStatus(was: Statuses, now: Statuses, ids: set<string>, out: seq<Happening>, id: string, todo: set<string>)
    requires StatusChanges(was, now, ids, out) && ByOrderOfId(out)
    requires id in todo && BeforeThem(id, todo - {id}) && forall i :: 0 <= i < |out| ==> BeforeThem(out[i].id, todo)
    ensures var r := if StatusOf(was, id) != StatusOf(now, id) then out + [Status(id, StatusOf(now, id))] else out;
            && StatusChanges(was, now, ids + {id}, r) && ByOrderOfId(r)
            && forall i :: 0 <= i < |r| ==> BeforeThem(r[i].id, todo - {id})
  {
    LookedAt(was, now, ids, out, id);
    if StatusOf(was, id) != StatusOf(now, id) {
      StatusInOrder(out, Status(id, StatusOf(now, id)), todo);
    }
  }

  /** A status that comes before all to come goes last of those said. */
  lemma StatusInOrder(out: seq<Happening>, h: Happening, todo: set<string>)
    requires ByOrderOfId(out) && forall i :: 0 <= i < |out| ==> out[i].Status? && BeforeThem(out[i].id, todo)
    requires h.Status? && h.id in todo && BeforeThem(h.id, todo - {h.id})
    ensures ByOrderOfId(out + [h]) && forall i :: 0 <= i < |out + [h]| ==> BeforeThem((out + [h])[i].id, todo - {h.id})
  {
    forall i | 0 <= i < |out|
      ensures Before(out[i].id, h.id) && BeforeThem(out[i].id, todo - {h.id})
    {
      assert BeforeThem(out[i].id, todo);
    }
  }

  lemma LookedAt(was: Statuses, now: Statuses, ids: set<string>, out: seq<Happening>, id: string)
    requires StatusChanges(was, now, ids, out)
    ensures var r := if StatusOf(was, id) != StatusOf(now, id) then out + [Status(id, StatusOf(now, id))] else out;
            StatusChanges(was, now, ids + {id}, r)
  {
    var r := if StatusOf(was, id) != StatusOf(now, id) then out + [Status(id, StatusOf(now, id))] else out;
    forall x | x in ids + {id} && StatusOf(was, x) != StatusOf(now, x)
      ensures exists i :: 0 <= i < |r| && r[i].id == x
    {
      if x in ids {
        var i :| 0 <= i < |out| && out[i].id == x;
        assert r[i].id == x;
      } else {
        assert r[|out|].id == x;
      }
    }
  }

  /** Says of each status that differs what it is now, in the order of the ids. */
  method DiffStatuses(was: Statuses, now: Statuses) returns (out: seq<Happening>)
    ensures StatusChanges(was, now, was.Keys + now.Keys, out)
    ensures ByOrderOfId(out)
  {
    out := [];
    var ids := was.Keys + now.Keys;
    var todo := ids;
    while todo != {}
      invariant todo <= ids && StatusChanges(was, now, ids - todo, out)
      invariant ByOrderOfId(out) && forall i :: 0 <= i < |out| ==> BeforeThem(out[i].id, todo)
    {
      var id := First(todo);
      OneMoreStatus(was, now, ids - todo, out, id, todo);
      if StatusOf(was, id) != StatusOf(now, id) {
        out := out + [Status(id, StatusOf(now, id))];
      }
      assert ids - (todo - {id}) == (ids - todo) + {id};
      todo := todo - {id};
    }
    assert ids - todo == ids;
  }

  function ApplyStatus(s: Statuses, h: Happening): (r: Statuses) {
    match h
    case Status(id, Some(on)) => s[id := on]
    case Status(id, None) => s - {id}
    case _ => s
  }

  function ApplyStatuses(s: Statuses, out: seq<Happening>): (r: Statuses) {
    if out == [] then s else ApplyStatus(ApplyStatuses(s, out[..|out| - 1]), out[|out| - 1])
  }

  /** What one id comes to once the changes are applied. */
  lemma {:induction false} AppliedStatus(was: Statuses, now: Statuses, ids: set<string>, out: seq<Happening>, id: string)
    requires forall i :: 0 <= i < |out| ==> out[i].Status? && out[i].now == StatusOf(now, out[i].id)
    ensures StatusOf(ApplyStatuses(was, out), id) ==
            if exists i :: 0 <= i < |out| && out[i].id == id then StatusOf(now, id) else StatusOf(was, id)
  {
    if out != [] {
      var front := out[..|out| - 1];
      AppliedStatus(was, now, ids, front, id);
      assert forall i :: 0 <= i < |front| ==> front[i] == out[i];
    }
  }

  /** The changes, applied in whatever order to what was, give what is. */
  lemma StatusesFollow(was: Statuses, now: Statuses, out: seq<Happening>)
    requires StatusChanges(was, now, was.Keys + now.Keys, out)
    ensures ApplyStatuses(was, out) == now
  {
    var r := ApplyStatuses(was, out);
    forall id
      ensures StatusOf(r, id) == StatusOf(now, id)
    {
      AppliedStatus(was, now, was.Keys + now.Keys, out, id);
    }
    forall id
      ensures id in r <==> id in now
    {
      assert StatusOf(r, id) == StatusOf(now, id);
    }
    forall id | id in r
      ensures r[id] == now[id]
    {
      assert StatusOf(r, id) == StatusOf(now, id);
    }
  }

  // ------------------------------------------------------------ the room

  datatype Creature = Creature(id: string, name: string, dead: bool)

  /** The room, and the creatures in it when the game has said. */
  datatype Room = Room(id: Option<string>, title: Option<string>, creatures: Option<seq<Creature>>)

  type Creatures = map<string, Creature>

  /** The creatures by id, the last listed of one id. */
  function ById(list: seq<Creature>): (r: Creatures) {
    if list == [] then map[] else ById(list[..|list| - 1])[list[|list| - 1].id := list[|list| - 1]]
  }

  predicate HasMoved(before: Room, after: Room) {
    before.id != after.id || (after.id.None? && before.title != after.title)
  }

  /** What one id among the creatures comes to. */
  function CreatureChange(was: Creatures, now: Creatures, id: string): (h: Option<Happening>) {
    if id in now then
      if id !in was then Some(Arrived(id, now[id].name))
      else if !was[id].dead && now[id].dead then Some(CreatureDied(id, now[id].name))
      else None
    else if id in was then Some(Left(id, was[id].name))
    else None
  }

  ghost predicate SaidOf(out: seq<Happening>, h: Happening) {
    exists i :: 0 <= i < |out| && out[i] == h
  }

  ghost predicate IsChange(was: Creatures, now: Creatures, ids: set<string>, h: Happening) {
    exists id :: id in ids && CreatureChange(was, now, id) == Some(h)
  }

  /** Exactly the changes of the creatures with these ids are said. */
  ghost predicate CreatureChanges(was: Creatures, now: Creatures, ids: set<string>, out: seq<Happening>) {
    && (forall i :: 0 <= i < |out| ==> IsChange(was, now, ids, out[i]))
    && (forall id :: id in ids && CreatureChange(was, now, id).Some? ==> SaidOf(out, CreatureChange(was, now, id).value))
  }

  lemma OneMoreCreature(was: Creatures, now: Creatures, ids: set<string>, out: seq<Happening>, id: string)
    requires CreatureChanges(was, now, ids, out)
    ensures var h := CreatureChange(was, now, id);
            CreatureChanges(was, now, ids + {id}, if h.Some? then out + [h.value] else out)
  {
    var h := CreatureChange(was, now, id);
    var r := if h.Some? then out + [h.value] else out;
    forall x | x in ids + {id} && CreatureChange(was, now, x).Some?
      ensures SaidOf(r, CreatureChange(was, now, x).value)
    {
      if x == id {
        assert r[|out|] == h.value;
      } else {
        var i :| 0 <= i < |out| && out[i] == CreatureChange(was, now, x).value;
        assert r[i] == out[i];
      }
    }
    forall i | 0 <= i < |r|
      ensures IsChange(was, now, ids + {id}, r[i])
    {
      if i < |out| {
        assert IsChange(was, now, ids, out[i]);
        var x :| x in ids && CreatureChange(was, now, x) == Some(out[i]);
        assert x in ids + {id};
      } else {
        assert id in ids + {id};
      }
    }
  }

  /** Those here now come first, then those gone, each in the order of the ids. */
  ghost predicate HereThenGone(out: seq<Happening>) {
    && (forall i :: 0 <= i < |out| ==> OfCreature(out[i]))
    && (forall i, j :: 0 <= i < j < |out| ==> Follows(out[i], out[j]))
  }

  predicate OfCreature(h: Happening) {
    h.Arrived? || h.CreatureDied? || h.Left?
  }

  predicate Follows(h: Happening, next: Happening)
    requires OfCreature(h) && OfCreature(next)
  {
    if h.Left? then next.Left? && Before(h.id, next.id) else next.Left? || Before(h.id, next.id)
  }

  /** What is said in that order is said once. */
  lemma SaidOnce(out: seq<Happening>, i: nat, j: nat)
    requires HereThenGone(out) && i < j < |out|
    ensures out[i] != out[j]
  {
    assert Follows(out[i], out[j]);
    NotBeforeItself(out[i].id);
  }

  /** Everything said so far comes before what is said of the ids still to come. */
  ghost predicate Ahead(out: seq<Happening>, todo: set<string>, gone: bool) {
    forall i :: 0 <= i < |out| ==>
      OfCreature(out[i]) && (out[i].Left? ==> gone) && (out[i].Left? == gone ==> BeforeThem(out[i].id, todo))
  }

  lemma OneMoreSaid(out: seq<Happening>, h: Happening, todo: set<string>, gone: bool)
    requires HereThenGone(out) && Ahead(out, todo, gone)
    requires OfCreature(h) && h.Left? == gone && h.id in todo && BeforeThem(h.id, todo - {h.id})
    ensures HereThenGone(out + [h]) && Ahead(out + [h], todo - {h.id}, gone)
  {
    forall i | 0 <= i < |out|
      ensures Follows(out[i], h)
    {
      assert out[i].Left? == gone ==> BeforeThem(out[i].id, todo);
    }
  }

  /** Says who came and who died, of those here now. */
  method DiffHere(was: Creatures, now: Creatures) returns (out: seq<Happening>)
    ensures CreatureChanges(was, now, now.Keys, out)
    ensures HereThenGone(out) && Ahead(out, {}, false)
  {
    out := [];
    var todo := now.Keys;
    while todo != {}
      invariant todo <= now.Keys && CreatureChanges(was, now, now.Keys - todo, out)
      invariant HereThenGone(out) && Ahead(out, todo, false)
    {
      var id := First(todo);
      OneMoreCreature(was, now, now.Keys - todo, out, id);
      if id !in was {
        OneMoreSaid(out, Arrived(id, now[id].name), todo, false);
        out := out + [Arrived(id, now[id].name)];
      } else if !was[id].dead && now[id].dead {
        OneMoreSaid(out, CreatureDied(id, now[id].name), todo, false);
        out := out + [CreatureDied(id, now[id].name)];
      }
      assert now.Keys - (todo - {id}) == now.Keys - todo + {id};
      todo := todo - {id};
    }
    assert now.Keys - todo == now.Keys;
  }

  /** Says who came, died and left, between two stated lists of one room. */
  method DiffCreatures(was: Creatures, now: Creatures) returns (out: seq<Happening>)
    ensures CreatureChanges(was, now, was.Keys + now.Keys, out)
    ensures HereThenGone(out)
  {
    out := DiffHere(was, now);
    ghost var done := now.Keys;
    var todo := was.Keys;
    while todo != {}
      invariant todo <= was.Keys && done == now.Keys + (was.Keys - todo) && CreatureChanges(was, now, done, out)
      invariant HereThenGone(out) && Ahead(out, todo, true)
    {
      var id := First(todo);
      if id !in now {
        OneMoreCreature(was, now, done, out, id);
        OneMoreSaid(out, Left(id, was[id].name), todo, true);
        out := out + [Left(id, was[id].name)];
      } else {
        assert done + {id} == done;
      }
      todo, done := todo - {id}, done + {id};
    }
    assert done == was.Keys + now.Keys;
  }

  /** What is said of the room: a move, which hides the rest, or who came and went; nothing
      of creatures when either list was not stated. */
  method DiffRoom(before: Room, after: Room) returns (out: seq<Happening>)
    ensures HasMoved(before, after) ==> out == [Moved(before.id, after.id, after.title)]
    ensures !HasMoved(before, after) && (before.creatures.None? || after.creatures.None?) ==> out == []
    ensures !HasMoved(before, after) && before.creatures.Some? && after.creatures.Some? ==>
              var was, now := ById(before.creatures.value), ById(after.creatures.value);
              CreatureChanges(was, now, was.Keys + now.Keys, out) && HereThenGone(out)
  {
    if HasMoved(before, after) {
      return [Moved(before.id, after.id, after.title)];
    }
    if before.creatures.None? || after.creatures.None? {
      return [];
    }
    out := DiffCreatures(ById(before.creatures.value), ById(after.creatures.value));
  }

  function ApplyPresence(here: set<string>, h: Happening): (r: set<string>) {
    match h
    case Arrived(id, _) => here + {id}
    case Left(id, _) => here - {id}
    case _ => here
  }

  function ApplyAllPresence(here: set<string>, out: seq<Happening>): (r: set<string>) {
    if out == [] then here else ApplyPresence(ApplyAllPresence(here, out[..|out| - 1]), out[|out| - 1])
  }

  ghost predicate Came(out: seq<Happening>, id: string) {
    exists i :: 0 <= i < |out| && out[i].Arrived? && out[i].id == id
  }

  ghost predicate Went(out: seq<Happening>, id: string) {
    exists i :: 0 <= i < |out| && out[i].Left? && out[i].id == id
  }

  lemma {:induction false} AppliedPresence(here: set<string>, out: seq<Happening>, id: string)
    requires !(Came(out, id) && Went(out, id))
    ensures id in ApplyAllPresence(here, out) <==> Came(out, id) || (id in here && !Went(out, id))
  {
    if out != [] {
      var front, h := out[..|out| - 1], out[|out| - 1];
      assert forall i :: 0 <= i < |front| ==> front[i] == out[i];
      assert Came(out, id) <==> Came(front, id) || (h.Arrived? && h.id == id);
      assert Went(out, id) <==> Went(front, id) || (h.Left? && h.id == id);
      AppliedPresence(here, front, id);
    }
  }

  /** Who is here now is who was here, less who left, with who arrived. */
  lemma PresenceFollows(was: Creatures, now: Creatures, out: seq<Happening>)
    requires CreatureChanges(was, now, was.Keys + now.Keys, out)
    ensures ApplyAllPresence(was.Keys, out) == now.Keys
  {
    forall id
      ensures id in ApplyAllPresence(was.Keys, out) <==> id in now
    {
      CameAndWent(was, now, out, id);
      AppliedPresence(was.Keys, out, id);
    }
  }

  lemma CameAndWent(was: Creatures, now: Creatures, out: seq<Happening>, id: string)
    requires CreatureChanges(was, now, was.Keys + now.Keys, out)
    ensures Came(out, id) <==> id in now && id !in was
    ensures Went(out, id) <==> id in was && id !in now
  {
    if Came(out, id) || Went(out, id) {
      ChangeOfId(was, now, out, id);
    }
    if id in was.Keys + now.Keys && CreatureChange(was, now, id).Some? {
      var h := CreatureChange(was, now, id).value;
      assert SaidOf(out, h);
      var i :| 0 <= i < |out| && out[i] == h;
      assert out[i].Arrived? || out[i].Left? ==> out[i].id == id;
    }
  }

  /** What is said of an id is its own change. */
  lemma ChangeOfId(was: Creatures, now: Creatures, out: seq<Happening>, id: string)
    requires CreatureChanges(was, now, was.Keys + now.Keys, out)
    ensures Came(out, id) ==> id in now && id !in was
    ensures Went(out, id) ==> id in was && id !in now
  {
    if Came(out, id) {
      var i :| 0 <= i < |out| && out[i].Arrived? && out[i].id == id;
      assert IsChange(was, now, was.Keys + now.Keys, out[i]);
    }
    if Went(out, id) {
      var i :| 0 <= i < |out| && out[i].Left? && out[i].id == id;
      assert IsChange(was, now, was.Keys + now.Keys, out[i]);
    }
  }
}
