/**
 * The priority-list editor of the web client: normalization of a list of
 * (group, priority) items, adding, removing and dragging items, the
 * options still on offer, and the colour of a group's tag.
 *
 * An item is a GroupPriority whose group is "" when the source's group is
 * falsy and whose priority is 0 when the source's priority is falsy; those
 * are the only readings normalization makes of an item.
 */
module PrioritiesSelector {
  import opened Wrappers
  import opened TokenRecord
  import opened Text
  import Lists

  /** Most items the editor lets a user add. */
  const MaxGroupPriorities := 10

  function PriorityOf(p: GroupPriority): int {
    p.priority
  }

  /** The group names of the items, in order. */
  function Groups(ps: seq<GroupPriority>): (gs: seq<string>)
    ensures |gs| == |ps|
    ensures forall i | 0 <= i < |ps| :: gs[i] == ps[i].group
  {
    seq(|ps|, i requires 0 <= i < |ps| => ps[i].group)
  }

  /** The groups numbered 1..n in order. */
  function Numbered(gs: seq<string>): (ps: seq<GroupPriority>)
    ensures |ps| == |gs|
    ensures forall i | 0 <= i < |gs| :: ps[i] == GroupPriority(gs[i], i + 1)
  {
    seq(|gs|, i requires 0 <= i < |gs| => GroupPriority(gs[i], i + 1))
  }

  /** What normalization produces: distinct non-empty groups numbered 1..n. */
  predicate NormalForm(ps: seq<GroupPriority>) {
    && (forall i | 0 <= i < |ps| :: ps[i].group != "" && ps[i].priority == i + 1)
    && Lists.Distinct(Groups(ps))
  }

  /** The numbered items of distinct non-empty groups are in normal form and name those groups. */
  lemma NumberedNormal(gs: seq<string>)
    requires Lists.Distinct(gs) && forall i | 0 <= i < |gs| :: gs[i] != ""
    ensures NormalForm(Numbered(gs))
    ensures Groups(Numbered(gs)) == gs
  {
    assert Groups(Numbered(gs)) == gs;
  }

  /** The list normalization walks: the items, stably sorted by priority when asked. */
  function Ordered(list: seq<GroupPriority>, sortByPriority: bool): (c: seq<GroupPriority>)
    ensures multiset(c) == multiset(list)
    ensures sortByPriority ==> Lists.SortedBy(c, PriorityOf)
    ensures !sortByPriority ==> c == list
    ensures sortByPriority ==> forall k :: Lists.WithKey(c, PriorityOf, k) == Lists.WithKey(list, PriorityOf, k)
  {
    if sortByPriority then
      forall k ensures Lists.WithKey(Lists.SortBy(list, PriorityOf), PriorityOf, k) == Lists.WithKey(list, PriorityOf, k) {
        Lists.SortByStable(list, PriorityOf, k);
      }
      Lists.SortBy(list, PriorityOf)
    else list
  }

  /**
   * normalizePriorities: nothing for a non-array; otherwise the first item
   * of every non-empty group (after the optional sort), renumbered 1..n.
   */
  function Normalized(list: Option<seq<GroupPriority>>, sortByPriority: bool): (r: seq<GroupPriority>)
    ensures list.None? ==> r == []
    ensures NormalForm(r)
    ensures list.Some? ==> |r| <= |list.value|
    ensures list.Some? ==> forall i | 0 <= i < |r| :: exists k | 0 <= k < |list.value| :: list.value[k].group == r[i].group
    ensures list.Some? ==> forall k | 0 <= k < |list.value| && list.value[k].group != "" :: list.value[k].group in Groups(r)
  {
    if list.None? then []
    else
      var c := Ordered(list.value, sortByPriority);
      var kept := Lists.KeepFirst(Groups(c));
      NumberedNormal(kept);
      forall i | 0 <= i < |kept| ensures exists k | 0 <= k < |list.value| :: list.value[k].group == kept[i] {
        var t :| 0 <= t < |c| && Groups(c)[t] == kept[i];
        assert c[t] in multiset(list.value);
      }
      forall k | 0 <= k < |list.value| && list.value[k].group != "" ensures list.value[k].group in kept {
        assert list.value[k] in multiset(c);
      }
      Numbered(kept)
  }

  /** Numbering one more group gives it the next priority. */
  lemma NumberedSnoc(gs: seq<string>, g: string)
    ensures Numbered(gs + [g]) == Numbered(gs) + [GroupPriority(g, |gs| + 1)]
  {
  }

  /** One more item extends the kept groups by its group, unless empty or already kept. */
  lemma NormalizeStep(c: seq<GroupPriority>, i: nat)
    requires i < |c|
    ensures var before := Lists.KeepFirst(Groups(c[..i]));
      var g := c[i].group;
      Lists.KeepFirst(Groups(c[..i + 1])) == if g == "" || g in before then before else before + [g]
  {
    GroupsSnoc(c, i);
    Lists.KeepFirstSnoc(Groups(c[..i]), c[i].group);
  }

  /** The groups of one more item are those before it and its own. */
  lemma GroupsSnoc(c: seq<GroupPriority>, i: nat)
    requires i < |c|
    ensures Groups(c[..i + 1]) == Groups(c[..i]) + [c[i].group]
  {
    assert c[..i + 1] == c[..i] + [c[i]];
    GroupsAppend(c[..i], c[i]);
  }

  /** The groups of a list with one more item. */
  lemma GroupsAppend(q: seq<GroupPriority>, x: GroupPriority)
    ensures Groups(q + [x]) == Groups(q) + [x.group]
  {
    var a := Groups(q + [x]);
    var b := Groups(q) + [x.group];
    assert |a| == |b|;
    forall k | 0 <= k < |a| ensures a[k] == b[k] {
      if k < |q| {
        assert (q + [x])[k] == q[k];
      }
    }
  }

  /** The forEach of normalizePriorities, over a clone sorted first when asked. */
  method NormalizePriorities(list: Option<seq<GroupPriority>>, sortByPriority: bool) returns (result: seq<GroupPriority>)
    ensures result == Normalized(list, sortByPriority)
  {
    if list.None? {
      return [];
    }
    var cloned := Ordered(list.value, sortByPriority);
    result := NumberFirstOfEach(cloned);
  }

  /** The forEach of normalizePriorities: the first item of every non-empty group, numbered 1..n. */
  method NumberFirstOfEach(cloned: seq<GroupPriority>) returns (result: seq<GroupPriority>)
    ensures result == Numbered(Lists.KeepFirst(Groups(cloned)))
  {
    result := [];
    var seen: set<string> := {};
    for i := 0 to |cloned|
      invariant result == Numbered(Lists.KeepFirst(Groups(cloned[..i])))
      invariant forall g :: g in seen <==> g in Lists.KeepFirst(Groups(cloned[..i]))
    {
      var item := cloned[i];
      ghost var kept := Lists.KeepFirst(Groups(cloned[..i]));
      NormalizeStep(cloned, i);
      if item.group == "" {
        continue;
      }
      if item.group in seen {
        continue;
      }
      NumberedSnoc(kept, item.group);
      seen := seen + {item.group};
      result := result + [GroupPriority(item.group, |result| + 1)];
      assert Lists.KeepFirst(Groups(cloned[..i + 1])) == kept + [item.group];
    }
    assert cloned[..|cloned|] == cloned;
  }

  /** A list in normal form is sorted by priority. */
  lemma NormalFormSorted(ps: seq<GroupPriority>)
    requires NormalForm(ps)
    ensures Lists.SortedBy(ps, PriorityOf)
  {
  }

  /** Normalization leaves a list in normal form as it is, sorted or not. */
  lemma NormalFormFixed(ps: seq<GroupPriority>, sortByPriority: bool)
    requires NormalForm(ps)
    ensures Normalized(Some(ps), sortByPriority) == ps
  {
    if sortByPriority {
      NormalFormSorted(ps);
      Lists.SortBySorted(ps, PriorityOf);
    }
    assert Ordered(ps, sortByPriority) == ps;
    Lists.KeepFirstKeepsDistinct(Groups(ps));
    assert Numbered(Groups(ps)) == ps;
  }

  /** Normalizing twice is normalizing once. */
  lemma NormalizeIdempotent(list: Option<seq<GroupPriority>>, first: bool, second: bool)
    ensures Normalized(Some(Normalized(list, first)), second) == Normalized(list, first)
  {
    NormalFormFixed(Normalized(list, first), second);
  }

  /** Without the sort, the kept groups appear in the order of their first occurrence in the input. */
  lemma UnsortedKeepsInputOrder(list: seq<GroupPriority>)
    ensures var r := Normalized(Some(list), false);
      forall i, j | 0 <= i < j < |r| ::
        Lists.IndexOf(Groups(list), r[i].group) < Lists.IndexOf(Groups(list), r[j].group)
  {
    Lists.KeepFirstOrder(Groups(list));
  }

  /**
   * With the sort, groups come out in order of their lowest priority: every
   * item of a later group has a priority no smaller than some item of an
   * earlier group.
   */
  lemma SortedLowestPriorityFirst(list: seq<GroupPriority>, i: nat, j: nat, k: nat)
    requires var r := Normalized(Some(list), true); i < j < |r|
    requires k < |list| && list[k].group == Normalized(Some(list), true)[j].group
    ensures exists m | 0 <= m < |list| ::
      && list[m].group == Normalized(Some(list), true)[i].group
      && (list[m].priority < list[k].priority || (list[m].priority == list[k].priority && m < k))
  {
    var r := Normalized(Some(list), true);
    var c := Ordered(list, true);
    var gs := Groups(c);
    var kept := Lists.KeepFirst(gs);
    assert r[i].group == kept[i] && r[j].group == kept[j];
    Lists.KeepFirstOrder(gs);
    var pi := Lists.IndexOf(gs, kept[i]);
    var pj := Lists.IndexOf(gs, kept[j]);
    assert pi < pj;
    assert list[k] in multiset(c);
    var t :| 0 <= t < |c| && c[t] == list[k];
    assert gs[t] == kept[j];
    assert pj <= t;
    assert c[pi].priority <= c[t].priority;
    if c[pi].priority < c[t].priority {
      assert c[pi] in multiset(list);
      var m :| 0 <= m < |list| && list[m] == c[pi];
      assert list[m].group == r[i].group;
    } else {
      forall u | 0 <= u <= pi ensures c[u].group != kept[j] {
        assert gs[u] == c[u].group;
        if u < pi { assert gs[u] in gs[..pj]; } else { assert kept[i] != kept[j]; }
      }
      TieKeepsInputOrder(list, c, pi, t, k);
      var m :| 0 <= m < k && list[m] == c[pi];
      assert list[m].group == r[i].group;
    }
  }

  /**
   * Two items of equal priority, the first sorted ahead of every item of the
   * second's group: the stable sort found the first earlier in the input.
   */
  lemma TieKeepsInputOrder(list: seq<GroupPriority>, c: seq<GroupPriority>, pi: nat, t: nat, k: nat)
    requires forall p :: Lists.WithKey(c, PriorityOf, p) == Lists.WithKey(list, PriorityOf, p)
    requires pi < t < |c| && k < |list| && c[t] == list[k] && c[pi].priority == c[t].priority
    requires forall u | 0 <= u <= pi :: c[u].group != list[k].group
    ensures exists m | 0 <= m < k :: list[m] == c[pi]
  {
    var p := c[t].priority;
    var a := Lists.WithKey(c[..pi], PriorityOf, p);
    var h := Lists.WithKey(list[..k], PriorityOf, p);
    Lists.WithKeySplitAt(c, PriorityOf, p, pi);
    Lists.WithKeySplitAt(list, PriorityOf, p, k);
    Lists.WithKeyMember(c[..pi], PriorityOf, p, list[k]);
    assert list[k] !in c[..pi];
    Lists.EarlierInBoth(a, c[pi], Lists.WithKey(c[pi + 1..], PriorityOf, p),
                        h, list[k], Lists.WithKey(list[k + 1..], PriorityOf, p));
    Lists.WithKeyMember(list[..k], PriorityOf, p, c[pi]);
    var m :| 0 <= m < k && list[..k][m] == c[pi];
  }

  /** The items with position `index` dropped; an index out of range drops nothing. */
  function Without(items: seq<GroupPriority>, index: int): (r: seq<GroupPriority>)
    ensures 0 <= index < |items| ==> |r| == |items| - 1
    ensures 0 <= index < |items| ==> forall k | 0 <= k < |r| :: r[k] == (if k < index then items[k] else items[k + 1])
    ensures !(0 <= index < |items|) ==> r == items
  {
    if 0 <= index < |items| then items[..index] + items[index + 1..] else items
  }

  /** The index of the first item of group `g`, or -1. */
  function FindIndex(items: seq<GroupPriority>, g: string): (k: int)
    ensures -1 <= k < |items|
    ensures k == -1 <==> g !in Groups(items)
    ensures k >= 0 ==> items[k].group == g && g !in Groups(items[..k])
  {
    var k := Lists.FirstWhere(items, (p: GroupPriority) => p.group == g);
    if k == |items| then -1 else k
  }

  /**
   * dnd-kit's arrayMove, taken with its documented meaning: remove the
   * element at `from` and insert it at `to`.
   */
  function ArrayMove<T>(s: seq<T>, from: nat, to: nat): (r: seq<T>)
    requires from < |s| && to < |s|
    ensures |r| == |s|
    ensures r[to] == s[from]
    ensures multiset(r) == multiset(s)
  {
    var rest := s[..from] + s[from + 1..];
    assert s == s[..from] + [s[from]] + s[from + 1..];
    assert multiset(s) == multiset(rest) + multiset{s[from]};
    assert rest[..to] + rest[to..] == rest;
    var r := rest[..to] + [s[from]] + rest[to..];
    assert multiset(r) == multiset(rest[..to]) + multiset{s[from]} + multiset(rest[to..]);
    r
  }

  /** Moving an element back from where it was put restores the list. */
  lemma ArrayMoveInverse<T>(s: seq<T>, from: nat, to: nat)
    requires from < |s| && to < |s|
    ensures ArrayMove(ArrayMove(s, from, to), to, from) == s
  {
    var r := ArrayMove(s, from, to);
    var rest := s[..from] + s[from + 1..];
    assert r[..to] + r[to + 1..] == rest;
    assert rest[..from] + [s[from]] + rest[from..] == s;
  }

  /** The position of `s` that lands at position `k` of ArrayMove(s, from, to). */
  function MoveSource(from: nat, to: nat, k: nat): nat {
    if k == to then from
    else
      var m := if k < to then k else k - 1;
      if m < from then m else m + 1
  }

  /** Each position of a moved list holds the element its source position held. */
  lemma ArrayMoveAt<T>(s: seq<T>, from: nat, to: nat, k: nat)
    requires from < |s| && to < |s| && k < |s|
    ensures MoveSource(from, to, k) < |s|
    ensures ArrayMove(s, from, to)[k] == s[MoveSource(from, to, k)]
  {
    var rest := s[..from] + s[from + 1..];
    assert forall m | 0 <= m < |rest| :: rest[m] == if m < from then s[m] else s[m + 1];
  }

  /** Moving an element keeps the elements pairwise distinct. */
  lemma ArrayMoveDistinct<T>(s: seq<T>, from: nat, to: nat)
    requires from < |s| && to < |s| && Lists.Distinct(s)
    ensures Lists.Distinct(ArrayMove(s, from, to))
  {
    var r := ArrayMove(s, from, to);
    forall i, j | 0 <= i < j < |r| ensures r[i] != r[j] {
      ArrayMoveAt(s, from, to, i);
      ArrayMoveAt(s, from, to, j);
      assert MoveSource(from, to, i) != MoveSource(from, to, j);
    }
  }

  /** Renumbering items whose groups are distinct and non-empty keeps the groups in order. */
  lemma RenumberDistinct(r: seq<GroupPriority>)
    requires Lists.Distinct(Groups(r)) && forall i | 0 <= i < |r| :: r[i].group != ""
    ensures Normalized(Some(r), false) == Numbered(Groups(r))
    ensures Groups(Normalized(Some(r), false)) == Groups(r)
  {
    Lists.KeepFirstKeepsDistinct(Groups(r));
    NumberedNormal(Groups(r));
  }

  /**
   * handleAddGroup's new list: unchanged for an empty value or a full list,
   * else the value appended and the list normalized in its order.
   */
  function AddedItems(items: seq<GroupPriority>, groupValue: string): (r: seq<GroupPriority>)
    ensures groupValue == "" || |items| >= MaxGroupPriorities ==> r == items
  {
    if groupValue == "" || |items| >= MaxGroupPriorities then items
    else Normalized(Some(items + [GroupPriority(groupValue, |items| + 1)]), false)
  }

  /** Adding a new group to a normalized list appends it at the next priority; adding a present one changes nothing. */
  lemma AddAppends(items: seq<GroupPriority>, groupValue: string)
    requires NormalForm(items)
    requires groupValue != "" && |items| < MaxGroupPriorities
    ensures groupValue !in Groups(items) ==>
      AddedItems(items, groupValue) == items + [GroupPriority(groupValue, |items| + 1)]
    ensures groupValue in Groups(items) ==> AddedItems(items, groupValue) == items
  {
    var p := GroupPriority(groupValue, |items| + 1);
    var gs := Groups(items);
    NormalFormFixed(items, false);
    assert Numbered(Lists.KeepFirst(gs)) == items;
    GroupsAppend(items, p);
    Lists.KeepFirstSnoc(gs, groupValue);
    assert AddedItems(items, groupValue) == Numbered(Lists.KeepFirst(gs + [groupValue]));
    Lists.KeepFirstKeepsDistinct(gs);
    if groupValue !in gs {
      NumberedSnoc(gs, groupValue);
    }
  }

  /** handleRemove's new list: the item at `index` dropped, the rest renumbered. */
  function RemovedItems(items: seq<GroupPriority>, index: int): (r: seq<GroupPriority>)
    ensures NormalForm(items) ==> NormalForm(r)
  {
    Normalized(Some(Without(items, index)), false)
  }

  /** Removing drops exactly the group at `index`; the others keep their order. */
  lemma RemoveDropsOne(items: seq<GroupPriority>, index: int)
    requires NormalForm(items)
    ensures 0 <= index < |items| ==>
      Groups(RemovedItems(items, index)) == Groups(items)[..index] + Groups(items)[index + 1..]
    ensures !(0 <= index < |items|) ==> RemovedItems(items, index) == items
  {
    var w := Without(items, index);
    if 0 <= index < |items| {
      assert Groups(w) == Groups(items)[..index] + Groups(items)[index + 1..];
      forall i, j | 0 <= i < j < |w| ensures w[i].group != w[j].group {
        var a := if i < index then i else i + 1;
        var b := if j < index then j else j + 1;
        assert w[i] == items[a] && w[j] == items[b];
        assert Groups(items)[a] != Groups(items)[b];
      }
      RenumberDistinct(w);
    } else {
      NormalFormFixed(items, false);
    }
  }

  /** A drag's end: the group dragged and the group it was dropped on, if any. */
  datatype DragEnd = DragEnd(active: string, over: Option<string>)

  /** The indices of a drag that moves something, or None when handleDragEnd does nothing. */
  function DragMove(items: seq<GroupPriority>, event: DragEnd): (m: Option<(nat, nat)>)
    ensures m.Some? <==>
      event.over.Some? && event.active != event.over.value
      && event.active in Groups(items) && event.over.value in Groups(items)
    ensures m.Some? ==>
      && m.value.0 < |items| && m.value.1 < |items|
      && items[m.value.0].group == event.active && items[m.value.1].group == event.over.value
  {
    if event.over.None? || event.active == event.over.value then None
    else
      var oldIndex := FindIndex(items, event.active);
      var newIndex := FindIndex(items, event.over.value);
      if oldIndex != -1 && newIndex != -1 then Some((oldIndex as nat, newIndex as nat)) else None
  }

  /** handleDragEnd's new list, or None when it does nothing. */
  function DraggedItems(items: seq<GroupPriority>, event: DragEnd): (r: Option<seq<GroupPriority>>)
    ensures r.Some? <==> DragMove(items, event).Some?
  {
    match DragMove(items, event)
    case None => None
    case Some((from, to)) => Some(Normalized(Some(ArrayMove(items, from, to)), false))
  }

  /** A drag moves the dragged group to the drop target's place and keeps the same groups. */
  lemma DragMovesGroup(items: seq<GroupPriority>, event: DragEnd)
    requires NormalForm(items)
    requires DraggedItems(items, event).Some?
    ensures var from := DragMove(items, event).value.0;
      var to := DragMove(items, event).value.1;
      var r := DraggedItems(items, event).value;
      && NormalForm(r)
      && Groups(r) == ArrayMove(Groups(items), from, to)
      && r[to].group == event.active
      && multiset(Groups(r)) == multiset(Groups(items))
  {
    var (from, to) := DragMove(items, event).value;
    var moved := ArrayMove(items, from, to);
    GroupsOfMove(items, from, to);
    ArrayMoveDistinct(Groups(items), from, to);
    RenumberDistinct(moved);
  }

  /** Moving items moves their groups the same way; no group becomes empty. */
  lemma GroupsOfMove(items: seq<GroupPriority>, from: nat, to: nat)
    requires from < |items| && to < |items|
    requires forall i | 0 <= i < |items| :: items[i].group != ""
    ensures Groups(ArrayMove(items, from, to)) == ArrayMove(Groups(items), from, to)
    ensures forall k | 0 <= k < |items| :: ArrayMove(items, from, to)[k].group != ""
  {
    var moved := ArrayMove(items, from, to);
    var movedGroups := ArrayMove(Groups(items), from, to);
    forall k | 0 <= k < |moved| ensures moved[k].group == movedGroups[k] && moved[k].group != "" {
      ArrayMoveAt(items, from, to, k);
      ArrayMoveAt(Groups(items), from, to, k);
    }
    assert Groups(moved) == movedGroups;
  }

  /** availableOptions: the available group values not already selected, in their order. */
  function AvailableOptions(available: seq<string>, items: seq<GroupPriority>): (r: seq<string>)
    ensures forall v :: v in r <==> v in available && v !in Groups(items)
    ensures |r| <= |available|
  {
    if available == [] then []
    else
      var rest := AvailableOptions(available[1..], items);
      if available[0] in Groups(items) then rest else [available[0]] + rest
  }

  /**
   * The options keep the order of `available`: those of a concatenation are
   * those of each part (with AvailableOptionsSingle, the unselected values in order).
   */
  lemma {:induction false} AvailableOptionsAppend(a: seq<string>, b: seq<string>, items: seq<GroupPriority>)
    ensures AvailableOptions(a + b, items) == AvailableOptions(a, items) + AvailableOptions(b, items)
  {
    if a != [] {
      assert (a + b)[0] == a[0];
      assert (a + b)[1..] == a[1..] + b;
      AvailableOptionsAppend(a[1..], b, items);
    } else {
      assert a + b == b;
    }
  }

  /** One value is offered exactly when it is not selected. */
  lemma AvailableOptionsSingle(v: string, items: seq<GroupPriority>)
    ensures AvailableOptions([v], items) == if v in Groups(items) then [] else [v]
  {
    assert [v][1..] == [];
  }

  /** canAddMore: enabled, fewer than ten items, and some option left. */
  function CanAddMore(disabled: bool, items: seq<GroupPriority>, available: seq<string>): (b: bool)
    ensures b <==> !disabled && |items| < MaxGroupPriorities &&
                   exists v :: v in available && v !in Groups(items)
  {
    var options := AvailableOptions(available, items);
    assert options != [] ==> options[0] in options;
    !disabled && |items| < MaxGroupPriorities && |options| > 0
  }

  /** When more can be added, adding an offered group appends it. */
  lemma OfferedGroupIsAppended(disabled: bool, items: seq<GroupPriority>, available: seq<string>, v: string)
    requires NormalForm(items)
    requires CanAddMore(disabled, items, available)
    requires v in AvailableOptions(available, items) && v != ""
    ensures AddedItems(items, v) == items + [GroupPriority(v, |items| + 1)]
  {
    AddAppends(items, v);
  }

  /** The tag colours getGroupColor can return. */
  datatype Color = Green | Purple | Blue | Orange | Cyan | LightBlue | Yellow | Grey

  /** The colour names the tag component receives. */
  function ColorName(c: Color): string {
    match c
    case Green => "green"
    case Purple => "purple"
    case Blue => "blue"
    case Orange => "orange"
    case Cyan => "cyan"
    case LightBlue => "light-blue"
    case Yellow => "yellow"
    case Grey => "grey"
  }

  /** The colour table of the tags, in declaration order. */
  const ColorMap: seq<(string, Color)> := [
    ("default", Green),
    ("claude", Purple),
    ("openai", Blue),
    ("gemini", Orange),
    ("gf", Cyan),
    ("official", LightBlue),
    ("aws", Yellow)
  ]

  /** The lower-cased value looked up; an absent value reads as "". */
  function LowerValue(groupValue: Option<string>): string {
    if groupValue.Some? then AsciiLower(groupValue.value) else ""
  }

  /** The colour of the first key contained in the lower-cased value, or grey. */
  function GroupColor(groupValue: Option<string>): (color: Color)
    ensures color == Grey <==> forall j | 0 <= j < |ColorMap| :: !Contains(LowerValue(groupValue), ColorMap[j].0)
    ensures color != Grey ==> exists k | 0 <= k < |ColorMap| ::
      color == ColorMap[k].1 && Contains(LowerValue(groupValue), ColorMap[k].0)
      && forall j | 0 <= j < k :: !Contains(LowerValue(groupValue), ColorMap[j].0)
  {
    var k := FirstKeyFrom(LowerValue(groupValue), 0);
    if k < |ColorMap| then ColorMap[k].1 else Grey
  }

  /** The index of the first key from `i` on contained in `lower`, or the table size. */
  function FirstKeyFrom(lower: string, i: nat): (k: nat)
    requires i <= |ColorMap|
    ensures i <= k <= |ColorMap|
    ensures forall j | i <= j < k :: !Contains(lower, ColorMap[j].0)
    ensures k < |ColorMap| ==> Contains(lower, ColorMap[k].0)
    decreases |ColorMap| - i
  {
    if i == |ColorMap| || Contains(lower, ColorMap[i].0) then i else FirstKeyFrom(lower, i + 1)
  }

  /** getGroupColor: scans the table in order and stops at the first key contained in the value. */
  method GetGroupColor(groupValue: Option<string>) returns (color: Color)
    ensures color == GroupColor(groupValue)
  {
    var lowerValue := LowerValue(groupValue);
    for i := 0 to |ColorMap|
      invariant forall j | 0 <= j < i :: !Contains(lowerValue, ColorMap[j].0)
    {
      var (key, c) := ColorMap[i];
      if Contains(lowerValue, key) {
        GroupColorAt(groupValue, i);
        return c;
      }
    }
    return Grey;
  }

  /** The colour of the first matching key; GroupColor is grey when none matches. */
  lemma GroupColorAt(groupValue: Option<string>, i: nat)
    requires i < |ColorMap| && Contains(LowerValue(groupValue), ColorMap[i].0)
    requires forall j | 0 <= j < i :: !Contains(LowerValue(groupValue), ColorMap[j].0)
    ensures GroupColor(groupValue) == ColorMap[i].1
  {
    var k := FirstKeyFrom(LowerValue(groupValue), 0);
    assert k == i;
  }

  /** A name holding "default" is green whatever else it holds, as that key is tried first. */
  lemma DefaultIsGreen(g: string)
    requires Contains(AsciiLower(g), "default")
    ensures GroupColor(Some(g)) == Green
  {
  }

  /**
   * The editor's list state. Every change goes through updateItems, which
   * renumbers the new list in its own order and hands it to onChange.
   */
  class Editor {
    var items: seq<GroupPriority>

    predicate Valid()
      reads this
    {
      NormalForm(items)
    }

    /** The initial state: the value normalized with the sort. */
    constructor(value: Option<seq<GroupPriority>>)
      ensures Valid()
      ensures items == Normalized(value, true)
    {
      var normalized := NormalizePriorities(value, true);
      items := normalized;
    }

    /** updateItems: normalizes without the sort, stores, and returns what onChange receives. */
    method UpdateItems(newItems: seq<GroupPriority>) returns (emitted: seq<GroupPriority>)
      modifies this
      ensures items == Normalized(Some(newItems), false) && emitted == items
      ensures Valid()
    {
      var normalized := NormalizePriorities(Some(newItems), false);
      items := normalized;
      emitted := normalized;
    }

    /** handleAddGroup; None means the list was left alone and onChange not called. */
    method HandleAddGroup(groupValue: string) returns (emitted: Option<seq<GroupPriority>>)
      requires Valid()
      modifies this
      ensures Valid()
      ensures items == AddedItems(old(items), groupValue)
      ensures emitted.None? <==> groupValue == "" || |old(items)| >= MaxGroupPriorities
      ensures emitted.Some? ==> emitted.value == items
    {
      if groupValue == "" || |items| >= MaxGroupPriorities {
        return None;
      }
      var newItems := items + [GroupPriority(groupValue, |items| + 1)];
      var normalized := UpdateItems(newItems);
      emitted := Some(normalized);
    }

    /** handleRemove. */
    method HandleRemove(index: int) returns (emitted: seq<GroupPriority>)
      requires Valid()
      modifies this
      ensures Valid()
      ensures items == RemovedItems(old(items), index) && emitted == items
    {
      var newItems := Without(items, index);
      emitted := UpdateItems(newItems);
    }

    /** handleDragEnd; None means the drag did nothing. */
    method HandleDragEnd(event: DragEnd) returns (emitted: Option<seq<GroupPriority>>)
      requires Valid()
      modifies this
      ensures Valid()
      ensures DraggedItems(old(items), event).None? ==> items == old(items) && emitted.None?
      ensures DraggedItems(old(items), event).Some? ==>
        items == DraggedItems(old(items), event).value && emitted == Some(items)
    {
      if event.over.None? || event.active == event.over.value {
        return None;
      }
      var oldIndex := FindIndex(items, event.active);
      var newIndex := FindIndex(items, event.over.value);
      if oldIndex != -1 && newIndex != -1 {
        var newItems := ArrayMove(items, oldIndex as nat, newIndex as nat);
        var normalized := UpdateItems(newItems);
        emitted := Some(normalized);
      } else {
        emitted := None;
      }
    }
  }
}
