/**
 * The web client's group-priority codec: reading a token's stored list
 * (with the fallback to its single group), the one-line display, the
 * validator and the serializer.
 *
 * JSON.parse is an input that yields the parsed array, or None when the
 * text does not parse or is not an array; JSON.stringify's text is not
 * modelled, only the list it is given.
 */
module TokenTypes {
  import opened Wrappers
  import opened TokenRecord
  import opened Text
  import Lists

  /** Most groups the validator accepts. */
  const MaxGroups := 10

  /**
   * One element of a parsed array, as far as the codec looks at it. A
   * primitive element is NonObject; a null element is not modelled, since
   * reading its `group` throws. `group` is None unless it is a string,
   * `priority` is None unless it is an integral number.
   */
  datatype RawEntry = NonObject | Item(group: Option<string>, priority: Option<int>)

  /** The token fields the codec reads; None is an absent field. */
  datatype TokenView = TokenView(group: Option<string>, groupPriorities: Option<string>)

  function PriorityOf(p: GroupPriority): int {
    p.priority
  }

  /** The stable ascending sort of Array.prototype.sort with `a.priority - b.priority`. */
  function SortByPriority(ps: seq<GroupPriority>): (r: seq<GroupPriority>)
    ensures multiset(r) == multiset(ps)
    ensures Lists.SortedBy(r, PriorityOf)
    ensures forall k :: Lists.WithKey(r, PriorityOf, k) == Lists.WithKey(ps, PriorityOf, k)
  {
    forall k ensures Lists.WithKey(Lists.SortBy(ps, PriorityOf), PriorityOf, k) == Lists.WithKey(ps, PriorityOf, k) {
      Lists.SortByStable(ps, PriorityOf, k);
    }
    Lists.SortBy(ps, PriorityOf)
  }

  /** The filter of parseGroupPriorities: a non-blank string group and a priority of at least 1. */
  predicate ValidEntry(e: RawEntry) {
    e.Item? && e.group.Some? && JsTrim(e.group.value) != "" && e.priority.Some? && e.priority.value >= 1
  }

  /** The valid entries, in order, as priorities (group kept untrimmed). */
  function ValidEntries(items: seq<RawEntry>): (r: seq<GroupPriority>)
    ensures |r| <= |items|
  {
    if items == [] then []
    else
      var rest := ValidEntries(items[1..]);
      if ValidEntry(items[0]) then [GroupPriority(items[0].group.value, items[0].priority.value)] + rest
      else rest
  }

  /** Every valid entry of the input is among the kept priorities. */
  lemma {:induction false} ValidEntriesComplete(items: seq<RawEntry>)
    ensures forall i | 0 <= i < |items| && ValidEntry(items[i]) ::
      GroupPriority(items[i].group.value, items[i].priority.value) in ValidEntries(items)
  {
    if items != [] {
      ValidEntriesComplete(items[1..]);
      forall i | 1 <= i < |items| && ValidEntry(items[i])
        ensures GroupPriority(items[i].group.value, items[i].priority.value) in ValidEntries(items)
      {
        assert items[i] == items[1..][i - 1];
      }
    }
  }

  /** Every kept priority is read off a valid entry of the input. */
  lemma {:induction false} ValidEntriesSound(items: seq<RawEntry>)
    ensures forall p | p in ValidEntries(items) :: exists i | 0 <= i < |items| ::
      ValidEntry(items[i]) && p == GroupPriority(items[i].group.value, items[i].priority.value)
  {
    if items != [] {
      ValidEntriesSound(items[1..]);
      forall p | p in ValidEntries(items[1..]) ensures exists i | 0 <= i < |items| ::
        ValidEntry(items[i]) && p == GroupPriority(items[i].group.value, items[i].priority.value)
      {
        var j :| 0 <= j < |items[1..]| && ValidEntry(items[1..][j])
          && p == GroupPriority(items[1..][j].group.value, items[1..][j].priority.value);
        assert items[j + 1] == items[1..][j];
      }
    }
  }

  /**
   * The filter keeps order: filtering a concatenation filters each part, so
   * with ValidEntriesSingle the result is the input's valid subsequence.
   */
  lemma {:induction false} ValidEntriesAppend(a: seq<RawEntry>, b: seq<RawEntry>)
    ensures ValidEntries(a + b) == ValidEntries(a) + ValidEntries(b)
  {
    if a == [] {
      assert a + b == b;
    } else {
      assert (a + b)[0] == a[0];
      assert (a + b)[1..] == a[1..] + b;
      ValidEntriesAppend(a[1..], b);
    }
  }

  /** One entry is kept, as a priority, exactly when it is valid. */
  lemma ValidEntriesSingle(e: RawEntry)
    ensures ValidEntries([e]) == if ValidEntry(e) then [GroupPriority(e.group.value, e.priority.value)] else []
  {
    assert [e][1..] == [];
  }

  /** Every entry the filter keeps names a non-blank group at priority at least 1. */
  lemma {:induction false} ValidEntriesUsable(items: seq<RawEntry>)
    ensures forall i | 0 <= i < |ValidEntries(items)| :: UsablePriority(ValidEntries(items)[i])
  {
    if items != [] {
      ValidEntriesUsable(items[1..]);
    }
  }

  /** The filter keeps nothing exactly when no entry is valid. */
  lemma {:induction false} ValidEntriesEmptyIff(items: seq<RawEntry>)
    ensures ValidEntries(items) == [] <==> forall i | 0 <= i < |items| :: !ValidEntry(items[i])
  {
    if items != [] {
      ValidEntriesEmptyIff(items[1..]);
      if !ValidEntry(items[0]) {
        assert forall i | 1 <= i < |items| :: items[i] == items[1..][i - 1];
      }
    }
  }

  /** The entries a list of priorities is written as. */
  function RawOf(ps: seq<GroupPriority>): (items: seq<RawEntry>)
    ensures |items| == |ps|
    ensures forall i | 0 <= i < |ps| :: items[i] == Item(Some(ps[i].group), Some(ps[i].priority))
  {
    seq(|ps|, i requires 0 <= i < |ps| => Item(Some(ps[i].group), Some(ps[i].priority)))
  }

  /** Writing valid priorities out and filtering them back loses nothing. */
  lemma {:induction false} ValidEntriesOfRaw(ps: seq<GroupPriority>)
    requires forall i | 0 <= i < |ps| :: UsablePriority(ps[i])
    ensures ValidEntries(RawOf(ps)) == ps
  {
    if ps != [] {
      var raw := RawOf(ps);
      RawOfCons(ps);
      assert UsablePriority(ps[0]);
      ValidEntriesCons(raw);
      ValidEntriesOfRaw(ps[1..]);
      assert [ps[0]] + ps[1..] == ps;
    }
  }

  lemma ValidEntriesCons(items: seq<RawEntry>)
    requires items != [] && ValidEntry(items[0])
    ensures ValidEntries(items) == [GroupPriority(items[0].group.value, items[0].priority.value)] + ValidEntries(items[1..])
  {
  }

  lemma RawOfCons(ps: seq<GroupPriority>)
    requires ps != []
    ensures RawOf(ps)[0] == Item(Some(ps[0].group), Some(ps[0].priority))
    ensures RawOf(ps)[1..] == RawOf(ps[1..])
  {
    var a := RawOf(ps)[1..];
    var b := RawOf(ps[1..]);
    assert |a| == |b|;
    forall k | 0 <= k < |a| ensures a[k] == b[k] {
      assert ps[1..][k] == ps[k + 1];
    }
  }

  /** fallbackToGroupField: the trimmed group at priority 1, or nothing for a blank or absent group. */
  function FallbackToGroupField(group: Option<string>): (r: seq<GroupPriority>)
    ensures group.None? || AllSpace(group.value, IsJsSpace) ==> r == []
    ensures group.Some? && !AllSpace(group.value, IsJsSpace) ==>
      r == [GroupPriority(JsTrim(group.value), 1)] && r[0].group != "" && IsTrimmed(r[0].group, IsJsSpace)
  {
    if group.Some? && JsTrim(group.value) != "" then [GroupPriority(JsTrim(group.value), 1)] else []
  }

  /** group_priorities is present and not blank. */
  predicate HasPriorityText(token: TokenView) {
    token.groupPriorities.Some? && JsTrim(token.groupPriorities.value) != ""
  }

  /**
   * parseGroupPriorities: the valid entries of the stored array sorted by
   * priority; the single-group fallback when the text is blank or absent,
   * does not parse to an array, or holds no valid entry.
   */
  function ParseGroupPriorities(token: TokenView, jsonParse: string -> Option<seq<RawEntry>>): (r: seq<GroupPriority>)
    ensures !HasPriorityText(token) ==> r == FallbackToGroupField(token.group)
    ensures HasPriorityText(token) && jsonParse(token.groupPriorities.value).None? ==>
      r == FallbackToGroupField(token.group)
    ensures HasPriorityText(token) && jsonParse(token.groupPriorities.value).Some? ==>
      var valid := ValidEntries(jsonParse(token.groupPriorities.value).value);
      && (valid == [] ==> r == FallbackToGroupField(token.group))
      && (valid != [] ==> multiset(r) == multiset(valid) && Lists.SortedBy(r, PriorityOf)
                          && forall k :: Lists.WithKey(r, PriorityOf, k) == Lists.WithKey(valid, PriorityOf, k))
  {
    if HasPriorityText(token) then
      var parsed := jsonParse(token.groupPriorities.value);
      if parsed.None? then FallbackToGroupField(token.group)
      else
        var valid := ValidEntries(parsed.value);
        if |valid| == 0 then FallbackToGroupField(token.group)
        else SortByPriority(valid)
    else FallbackToGroupField(token.group)
  }

  /** Every priority the parser returns names a non-blank group at priority at least 1. */
  lemma ParsedEntriesValid(token: TokenView, jsonParse: string -> Option<seq<RawEntry>>)
    ensures var r := ParseGroupPriorities(token, jsonParse);
      forall i | 0 <= i < |r| :: UsablePriority(r[i])
  {
    var r := ParseGroupPriorities(token, jsonParse);
    if HasPriorityText(token) && jsonParse(token.groupPriorities.value).Some?
       && ValidEntries(jsonParse(token.groupPriorities.value).value) != [] {
      var parsed := jsonParse(token.groupPriorities.value).value;
      ValidEntriesUsable(parsed);
      assert r == SortByPriority(ValidEntries(parsed));
      PermutationKeepsUsable(r, ValidEntries(parsed));
    } else {
      assert r == FallbackToGroupField(token.group);
      FallbackUsable(token.group);
    }
  }

  /** The fallback entry, when there is one, is usable. */
  lemma FallbackUsable(group: Option<string>)
    ensures forall i | 0 <= i < |FallbackToGroupField(group)| :: UsablePriority(FallbackToGroupField(group)[i])
  {
    var r := FallbackToGroupField(group);
    if r != [] {
      assert IsTrimmed(r[0].group, IsJsSpace);
      assert JsTrim(r[0].group) == r[0].group;
    }
  }

  /** Display options; the defaults are no priorities, " > " and ten groups. */
  datatype DisplayOptions = DisplayOptions(showPriority: bool, separator: string, maxGroups: int)

  const DefaultDisplayOptions := DisplayOptions(false, " > ", 10)

  /** The end index Array.prototype.slice(0, end) uses on a list of `len` elements. */
  function SliceEnd(len: nat, end: int): (k: nat)
    ensures k <= len
    ensures end >= 0 ==> k == if end < len then end else len
    ensures end < 0 ==> k == if len + end < 0 then 0 else len + end
  {
    if end < 0 then (if len + end < 0 then 0 else len + end)
    else if end > len then len else end
  }

  /** One shown entry: the group, or `group(priority)`. */
  function Label(p: GroupPriority, showPriority: bool): string {
    if showPriority then p.group + "(" + IntToDecimal(p.priority) + ")" else p.group
  }

  /** The parts joined for display: the first maxGroups labels, then "..." exactly when there were more. */
  function DisplayParts(ps: seq<GroupPriority>, options: DisplayOptions): (parts: seq<string>)
    ensures var shown := SliceEnd(|ps|, options.maxGroups);
      && |parts| == shown + (if |ps| > options.maxGroups then 1 else 0)
      && (forall i | 0 <= i < shown :: parts[i] == Label(ps[i], options.showPriority))
      && (|ps| > options.maxGroups ==> parts[|parts| - 1] == "...")
  {
    var shown := ps[..SliceEnd(|ps|, options.maxGroups)];
    var labels := seq(|shown|, i requires 0 <= i < |shown| => Label(shown[i], options.showPriority));
    if |ps| > options.maxGroups then labels + ["..."] else labels
  }

  /** The display of a parsed list: "-" when empty, else the parts joined with the separator. */
  function FormatPriorities(ps: seq<GroupPriority>, options: DisplayOptions): (s: string)
    ensures ps == [] ==> s == "-"
    ensures ps != [] ==> s == Join(DisplayParts(ps, options), options.separator)
  {
    if |ps| == 0 then "-" else Join(DisplayParts(ps, options), options.separator)
  }

  /** formatGroupPrioritiesDisplay. */
  function FormatGroupPrioritiesDisplay(token: TokenView, jsonParse: string -> Option<seq<RawEntry>>,
                                        options: DisplayOptions): (s: string)
    ensures ParseGroupPriorities(token, jsonParse) == [] ==> s == "-"
    ensures ParseGroupPriorities(token, jsonParse) != [] ==>
      s == Join(DisplayParts(ParseGroupPriorities(token, jsonParse), options), options.separator)
  {
    FormatPriorities(ParseGroupPriorities(token, jsonParse), options)
  }

  /**
   * With a one-character separator that occurs in no label, the display
   * splits back into exactly its parts: the shown labels, then "..." when
   * entries were cut off.
   */
  lemma DisplaySplitsBack(ps: seq<GroupPriority>, options: DisplayOptions, c: char)
    requires ps != [] && options.separator == [c] && c != '.'
    requires forall i | 0 <= i < |ps| :: c !in Label(ps[i], options.showPriority)
    ensures Split(FormatPriorities(ps, options), c) == DisplayParts(ps, options)
  {
    var parts := DisplayParts(ps, options);
    assert |parts| > 0;
    forall i | 0 <= i < |parts| ensures c !in parts[i] {
      if i < SliceEnd(|ps|, options.maxGroups) {
        assert parts[i] == Label(ps[i], options.showPriority);
      } else {
        assert parts[i] == "...";
      }
    }
    JoinSplit(parts, c);
  }

  /** Joining parts free of `c` with `c` and splitting on `c` gives the parts back. */
  lemma {:induction false} JoinSplit(parts: seq<string>, c: char)
    requires |parts| > 0
    requires forall i | 0 <= i < |parts| :: c !in parts[i]
    ensures Split(Join(parts, [c]), c) == parts
  {
    if |parts| == 1 {
      SplitNone(parts[0], c);
    } else {
      JoinSplit(parts[1..], c);
      assert Join(parts, [c]) == parts[0] + [c] + Join(parts[1..], [c]);
      SplitAfterFirst(parts[0], c, Join(parts[1..], [c]));
      assert [parts[0]] + parts[1..] == parts;
    }
  }

  datatype ValidationError =
    | NotArray
    | TooMany
    | EmptyName
    | BadPriority
    | Duplicate(group: string)

  /** The error text the validator returns. */
  function ValidationMessage(e: ValidationError): (m: string)
    ensures |m| > 0
    ensures e.Duplicate? ==> Contains(m, e.group)
  {
    match e
    case NotArray => "分组优先级必须是数组"
    case TooMany => "最多支持10个分组"
    case EmptyName => "分组名称不能为空"
    case BadPriority => "优先级必须是大于0的整数"
    case Duplicate(g) =>
      var m := "分组 \"" + g + "\" 重复";
      assert OccursAt(m, g, 4) by {
        assert m[4..4 + |g|] == g;
      }
      m
  }

  /** The raw group names of the entries that carry one. */
  function SeenGroups(items: seq<RawEntry>): set<string> {
    set i | 0 <= i < |items| && items[i].Item? && items[i].group.Some? :: items[i].group.value
  }

  /** The verdict on one entry given the names accepted before it. */
  function EntryError(e: RawEntry, seen: set<string>): (r: Option<ValidationError>)
    ensures r.None? <==> ValidEntry(e) && e.group.value !in seen
  {
    if e.NonObject? || e.group.None? || JsTrim(e.group.value) == "" then Some(EmptyName)
    else if e.priority.None? || e.priority.value < 1 then Some(BadPriority)
    else if e.group.value in seen then Some(Duplicate(e.group.value))
    else None
  }

  /** The first error of the scan over the entries, in order. */
  function Check(items: seq<RawEntry>): Option<ValidationError> {
    if items == [] then None
    else
      var prefix := items[..|items| - 1];
      var prev := Check(prefix);
      if prev.Some? then prev else EntryError(items[|items| - 1], SeenGroups(prefix))
  }

  /** validateGroupPriorities as a function: None is `{valid: true}`. */
  function ValidationOf(input: Option<seq<RawEntry>>): Option<ValidationError> {
    if input.None? then Some(NotArray)
    else if |input.value| > MaxGroups then Some(TooMany)
    else Check(input.value)
  }

  /** An error in a prefix is the error of the whole scan. */
  lemma {:induction false} CheckKeepsFirstError(items: seq<RawEntry>, n: nat)
    requires n <= |items| && Check(items[..n]).Some?
    ensures Check(items) == Check(items[..n])
    decreases |items|
  {
    if n < |items| {
      var prefix := items[..|items| - 1];
      assert prefix[..n] == items[..n];
      CheckKeepsFirstError(prefix, n);
    } else {
      assert items[..n] == items;
    }
  }

  /** Accepting one more entry adds its name to the names seen. */
  lemma SeenGroupsStep(items: seq<RawEntry>, i: nat)
    requires i < |items| && items[i].Item? && items[i].group.Some?
    ensures SeenGroups(items[..i + 1]) == SeenGroups(items[..i]) + {items[i].group.value}
  {
    var a := items[..i + 1];
    forall g | g in SeenGroups(a) ensures g in SeenGroups(items[..i]) + {items[i].group.value} {
      var j :| 0 <= j < |a| && a[j].Item? && a[j].group.Some? && a[j].group.value == g;
      if j < i {
        assert items[..i][j] == a[j];
      }
    }
    forall g | g in SeenGroups(items[..i]) ensures g in SeenGroups(a) {
      var j :| 0 <= j < i && items[..i][j].Item? && items[..i][j].group.Some? && items[..i][j].group.value == g;
      assert a[j] == items[..i][j];
    }
    assert a[i] == items[i];
  }

  /** The validator: not an array, too many, then the first bad entry in order wins. */
  method ValidateGroupPriorities(input: Option<seq<RawEntry>>) returns (r: Option<ValidationError>)
    ensures r == ValidationOf(input)
  {
    if input.None? {
      return Some(NotArray);
    }
    var priorities := input.value;
    if |priorities| > MaxGroups {
      return Some(TooMany);
    }
    var groups: set<string> := {};
    for i := 0 to |priorities|
      invariant Check(priorities[..i]) == None
      invariant groups == SeenGroups(priorities[..i])
    {
      var p := priorities[i];
      assert priorities[..i + 1][..i] == priorities[..i];
      assert priorities[..i + 1][i] == p;
      var verdict := EntryError(p, groups);
      if verdict.Some? {
        CheckKeepsFirstError(priorities, i + 1);
        return verdict;
      }
      SeenGroupsStep(priorities, i);
      groups := groups + {p.group.value};
    }
    assert priorities[..|priorities|] == priorities;
    return None;
  }

  /** Every entry is valid and no raw group name repeats. */
  predicate WellFormedList(items: seq<RawEntry>) {
    && (forall i | 0 <= i < |items| :: ValidEntry(items[i]))
    && (forall i, j | 0 <= i < j < |items| :: items[i].group != items[j].group)
  }

  /** A list stays well formed with one more entry exactly when that entry is valid and its name is new. */
  lemma WellFormedSnoc(items: seq<RawEntry>)
    requires items != []
    ensures var prefix := items[..|items| - 1]; var e := items[|items| - 1];
      WellFormedList(items) <==>
        WellFormedList(prefix) && ValidEntry(e) && e.group.value !in SeenGroups(prefix)
  {
    var n := |items| - 1;
    var prefix := items[..n];
    var e := items[n];
    assert forall i | 0 <= i < n :: prefix[i] == items[i];
    if WellFormedList(prefix) && ValidEntry(e) && e.group.value !in SeenGroups(prefix) {
      forall i, j | 0 <= i < j < |items| ensures items[i].group != items[j].group {
        if j == n {
          assert items[i].group.value in SeenGroups(prefix);
        }
      }
    }
  }

  /** The scan finds nothing exactly when every entry is valid and the names are distinct. */
  lemma {:induction false} CheckClean(items: seq<RawEntry>)
    ensures Check(items) == None <==> WellFormedList(items)
  {
    if items != [] {
      CheckClean(items[..|items| - 1]);
      WellFormedSnoc(items);
    }
  }

  /** `{valid: true}` exactly for an array of at most ten valid entries with distinct names. */
  lemma ValidIff(input: Option<seq<RawEntry>>)
    ensures ValidationOf(input) == None <==>
      input.Some? && |input.value| <= MaxGroups && WellFormedList(input.value)
  {
    if input.Some? {
      CheckClean(input.value);
    }
  }

  /** The first reported error belongs to the first entry that fails, every earlier entry being accepted. */
  lemma {:induction false} FirstErrorWins(items: seq<RawEntry>)
    requires Check(items).Some?
    ensures exists i | 0 <= i < |items| ::
      Check(items[..i]) == None && Check(items) == EntryError(items[i], SeenGroups(items[..i]))
  {
    var n := |items| - 1;
    var prefix := items[..n];
    if Check(prefix).Some? {
      FirstErrorWins(prefix);
      var i :| 0 <= i < |prefix| &&
        Check(prefix[..i]) == None && Check(prefix) == EntryError(prefix[i], SeenGroups(prefix[..i]));
      assert prefix[..i] == items[..i] && prefix[i] == items[i];
      assert Check(items) == Check(prefix);
      assert Check(items[..i]) == None && Check(items) == EntryError(items[i], SeenGroups(items[..i]));
    } else {
      assert Check(items) == EntryError(items[n], SeenGroups(items[..n]));
      assert Check(items[..n]) == None;
    }
  }

  /** The entries as priorities; a missing name reads as "" and a missing priority as 0. */
  function PrioritiesOf(items: seq<RawEntry>): (ps: seq<GroupPriority>)
    ensures |ps| == |items|
    ensures forall i | 0 <= i < |items| && ValidEntry(items[i]) ::
      ps[i] == GroupPriority(items[i].group.value, items[i].priority.value)
  {
    seq(|items|, i requires 0 <= i < |items| =>
      var e := items[i];
      GroupPriority(if e.Item? && e.group.Some? then e.group.value else "",
                    if e.Item? && e.priority.Some? then e.priority.value else 0))
  }

  /** What serializeGroupPriorities produces: '' or the JSON text of a list. */
  datatype SerialText = EmptyText | Json(entries: seq<GroupPriority>)

  /**
   * serializeGroupPriorities: '' for an absent or empty list, the validation
   * error (thrown) for an invalid one, else the list sorted by priority.
   */
  function SerializeGroupPriorities(input: Option<seq<RawEntry>>): (r: Result<SerialText, ValidationError>)
    ensures r == Ok(EmptyText) <==> input.None? || input.value == []
    ensures r.Err? <==> input.Some? && input.value != [] && ValidationOf(input).Some?
    ensures r.Err? ==> Some(r.error) == ValidationOf(input)
    ensures r.Ok? && r.value.Json? ==>
      && input.Some? && ValidationOf(input) == None && WellFormedList(input.value)
      && multiset(r.value.entries) == multiset(PrioritiesOf(input.value))
      && Lists.SortedBy(r.value.entries, PriorityOf)
      && forall k :: Lists.WithKey(r.value.entries, PriorityOf, k) == Lists.WithKey(PrioritiesOf(input.value), PriorityOf, k)
  {
    if input.None? || |input.value| == 0 then Ok(EmptyText)
    else
      var v := ValidationOf(input);
      if v.Some? then Err(v.value)
      else
        ValidIff(input);
        Ok(Json(SortByPriority(PrioritiesOf(input.value))))
  }

  /** A name that is not blank and a priority of at least 1. */
  predicate UsablePriority(p: GroupPriority) {
    JsTrim(p.group) != "" && p.priority >= 1
  }

  /** A permutation of usable priorities holds only usable priorities. */
  lemma PermutationKeepsUsable(a: seq<GroupPriority>, b: seq<GroupPriority>)
    requires multiset(a) == multiset(b)
    requires forall i | 0 <= i < |b| :: UsablePriority(b[i])
    ensures |a| == |b|
    ensures forall i | 0 <= i < |a| :: UsablePriority(a[i])
  {
    assert |multiset(a)| == |multiset(b)|;
    forall i | 0 <= i < |a| ensures UsablePriority(a[i]) {
      assert a[i] in multiset(b);
    }
  }

  /** A serialized list has as many entries as its input, each with a non-blank name and a priority of at least 1. */
  lemma SerializedEntriesValid(items: seq<RawEntry>)
    requires SerializeGroupPriorities(Some(items)).Ok? && SerializeGroupPriorities(Some(items)).value.Json?
    ensures var entries := SerializeGroupPriorities(Some(items)).value.entries;
      && |entries| == |items| > 0
      && forall i | 0 <= i < |entries| :: UsablePriority(entries[i])
  {
    var entries := SerializeGroupPriorities(Some(items)).value.entries;
    var ps := PrioritiesOf(items);
    assert WellFormedList(items);
    assert forall i | 0 <= i < |ps| :: ValidEntry(items[i]) && ps[i] == GroupPriority(items[i].group.value, items[i].priority.value);
    PermutationKeepsUsable(entries, ps);
  }

  /**
   * Round trip: a stored list written by the serializer reads back as the
   * serialized list itself, given that JSON.parse returns what
   * JSON.stringify wrote.
   */
  lemma SerializeThenParse(items: seq<RawEntry>, group: Option<string>, text: string,
                           jsonParse: string -> Option<seq<RawEntry>>)
    requires SerializeGroupPriorities(Some(items)).Ok? && SerializeGroupPriorities(Some(items)).value.Json?
    requires JsTrim(text) != ""
    requires jsonParse(text) == Some(RawOf(SerializeGroupPriorities(Some(items)).value.entries))
    ensures ParseGroupPriorities(TokenView(group, Some(text)), jsonParse)
         == SerializeGroupPriorities(Some(items)).value.entries
  {
    var entries := SerializeGroupPriorities(Some(items)).value.entries;
    SerializedEntriesValid(items);
    ParseOfSortedRaw(entries, group, text, jsonParse);
  }

  /** A sorted non-empty list of usable priorities, stored as JSON, parses back to itself. */
  lemma ParseOfSortedRaw(entries: seq<GroupPriority>, group: Option<string>, text: string,
                         jsonParse: string -> Option<seq<RawEntry>>)
    requires |entries| > 0 && Lists.SortedBy(entries, PriorityOf)
    requires forall i | 0 <= i < |entries| :: UsablePriority(entries[i])
    requires JsTrim(text) != "" && jsonParse(text) == Some(RawOf(entries))
    ensures ParseGroupPriorities(TokenView(group, Some(text)), jsonParse) == entries
  {
    var token := TokenView(group, Some(text));
    assert HasPriorityText(token);
    ValidEntriesOfRaw(entries);
    Lists.SortBySorted(entries, PriorityOf);
    assert SortByPriority(entries) == entries;
  }
}
