/**
 * Group-priority channel selection for one inference request.
 *
 * A token carries an ordered list of groups. The selector asks the channel
 * store for a channel of each group in list order, expands the "auto"
 * sentinel into the user's auto groups, records the winning group in the
 * request context, and, when the token opts in, falls back to the user's
 * other usable groups, cheapest ratio first.
 *
 * The channel store, the auto-group settings, the usable-group resolver and
 * the ratio table are inputs (a Config value); the request context is a
 * class whose fields the selector writes.
 */
module ChannelSelect {
  import opened Wrappers
  import opened TokenRecord
  import Lists

  /** The sentinel group name that expands into the user's auto groups. */
  const Auto := "auto"

  /** An upstream channel; only its identity matters here. */
  datatype Channel = Channel(id: int)

  /** What the channel store answers for (group, model, retry): a channel or nothing, and an error or nothing. */
  datatype StoreReply = StoreReply(channel: Option<Channel>, err: Option<string>)

  datatype Config = Config(
    store: (string, string, int) -> StoreReply,  // randomChannelSelector
    autoGroups: seq<string>,                     // the global auto-groups setting
    userAutoGroups: string -> seq<string>,       // auto groups of a user group
    userUsableGroups: string -> set<string>,     // usable groups of a user group
    groupRatios: map<string, real>)              // group -> cost ratio

  datatype SelectError =
    | AutoGroupsDisabled      // "auto groups is not enabled"
    | StoreError(message: string)
    | AllGroupsFailed
    | NoAvailableGroup

  /** The outcome of asking for one group: channel, the group it was selected under, error. */
  datatype Attempt = Attempt(channel: Option<Channel>, group: string, err: Option<SelectError>)

  predicate Succeeded(a: Attempt) {
    a.err.None? && a.channel.Some?
  }

  /** The token's parsed priority list, or the parse failure. */
  datatype PriorityParse = Parsed(priorities: seq<GroupPriority>) | Malformed(message: string)

  /** A fallback candidate: a usable group and its ratio. */
  datatype Candidate = Candidate(group: string, ratio: real)

  /** The per-request context keys the selector reads and writes ("" is an unset string key). */
  class Context {
    const userGroup: string
    var usingGroup: string
    var selectedGroup: string
    var autoSmartGroupUsed: Option<bool>
    var autoGroup: Option<string>

    constructor (userGroup: string, usingGroup: string)
      ensures this.userGroup == userGroup && this.usingGroup == usingGroup
      ensures selectedGroup == "" && autoSmartGroupUsed == None && autoGroup == None
    {
      this.userGroup := userGroup;
      this.usingGroup := usingGroup;
      selectedGroup := "";
      autoSmartGroupUsed := None;
      autoGroup := None;
    }

    /** selected_group and using_group hold `group`, auto_smart_group_used holds `autoSmart`. */
    predicate Records(group: string, autoSmart: bool)
      reads this
    {
      selectedGroup == group && usingGroup == group && autoSmartGroupUsed == Some(autoSmart)
    }
  }

  /** A snapshot of the context keys the selector writes. */
  datatype Keys = Keys(selectedGroup: string, usingGroup: string, autoSmartGroupUsed: Option<bool>,
                       autoGroup: Option<string>)

  function KeysOf(c: Context): Keys
    reads c
  {
    Keys(c.selectedGroup, c.usingGroup, c.autoSmartGroupUsed, c.autoGroup)
  }

  /** The three selection keys agree between two snapshots. */
  predicate SameSelection(k: Keys, l: Keys) {
    k.selectedGroup == l.selectedGroup && k.usingGroup == l.usingGroup && k.autoSmartGroupUsed == l.autoSmartGroupUsed
  }

  /** The three selection keys are as they were on entry. */
  twostate predicate SelectionKept(c: Context)
    reads c
  {
    c.selectedGroup == old(c.selectedGroup) && c.usingGroup == old(c.usingGroup)
    && c.autoSmartGroupUsed == old(c.autoSmartGroupUsed)
  }

  /** The selection keys after recording `group`: an empty group records nothing. */
  twostate predicate SelectionAfter(c: Context, group: string, autoSmart: bool)
    reads c
  {
    if group == "" then SelectionKept(c) else c.Records(group, autoSmart)
  }

  /** The first non-empty name of `names`, or "" when all are empty. */
  function FirstNonEmpty(names: seq<string>): (g: string)
    ensures g == "" <==> forall i | 0 <= i < |names| :: names[i] == ""
    ensures g != "" ==> exists k | 0 <= k < |names| :: g == names[k] && forall j | 0 <= j < k :: names[j] == ""
  {
    if names == [] then ""
    else if names[0] != "" then names[0]
    else
      var g := FirstNonEmpty(names[1..]);
      assert g != "" ==> exists k | 0 <= k < |names| :: g == names[k] && forall j | 0 <= j < k :: names[j] == "" by {
        if g != "" {
          var k :| 0 <= k < |names[1..]| && g == names[1..][k] && forall j | 0 <= j < k :: names[1..][j] == "";
          assert g == names[k + 1] && forall j | 0 <= j < k + 1 :: names[j] == "";
        }
      }
      g
  }

  /** Index of the first of the user's auto groups whose store reply carries a channel. */
  function AutoHit(cfg: Config, userGroup: string, model: string, retry: int): (k: nat)
    ensures k <= |cfg.userAutoGroups(userGroup)|
    ensures forall j | 0 <= j < k :: cfg.store(cfg.userAutoGroups(userGroup)[j], model, retry).channel.None?
    ensures k < |cfg.userAutoGroups(userGroup)| ==>
      cfg.store(cfg.userAutoGroups(userGroup)[k], model, retry).channel.Some?
  {
    Lists.FirstWhere(cfg.userAutoGroups(userGroup), (g: string) => cfg.store(g, model, retry).channel.Some?)
  }

  /**
   * The outcome of one attempt on `group` (CacheGetRandomSatisfiedChannel).
   * A plain group passes the store's reply through, an error dropping the
   * channel. "auto" fails only when auto groups are disabled; otherwise it
   * ignores store errors and yields the first auto group with a channel, or
   * no channel and no error.
   */
  function AttemptOf(cfg: Config, userGroup: string, group: string, model: string, retry: int): (a: Attempt)
    ensures group != Auto ==>
      && a.group == group
      && (a.err.Some? <==> cfg.store(group, model, retry).err.Some?)
      && (Succeeded(a) <==> cfg.store(group, model, retry).err.None? && cfg.store(group, model, retry).channel.Some?)
      && (Succeeded(a) ==> a.channel == cfg.store(group, model, retry).channel)
    ensures group == Auto && cfg.autoGroups == [] ==> a == Attempt(None, Auto, Some(AutoGroupsDisabled))
    ensures group == Auto && cfg.autoGroups != [] ==>
      var autoGroups := cfg.userAutoGroups(userGroup);
      && a.err.None?
      && (a.channel.Some? <==> exists j | 0 <= j < |autoGroups| :: cfg.store(autoGroups[j], model, retry).channel.Some?)
      && (a.channel.None? ==> a.group == Auto)
      && (a.channel.Some? ==> exists k | 0 <= k < |autoGroups| ::
            && a.group == autoGroups[k]
            && a.channel == cfg.store(autoGroups[k], model, retry).channel
            && forall j | 0 <= j < k :: cfg.store(autoGroups[j], model, retry).channel.None?)
  {
    if group == Auto then
      if |cfg.autoGroups| == 0 then Attempt(None, group, Some(AutoGroupsDisabled))
      else
        var autoGroups := cfg.userAutoGroups(userGroup);
        var k := AutoHit(cfg, userGroup, model, retry);
        if k < |autoGroups| then Attempt(cfg.store(autoGroups[k], model, retry).channel, autoGroups[k], None)
        else Attempt(None, group, None)
    else
      var reply := cfg.store(group, model, retry);
      if reply.err.Some? then Attempt(None, group, Some(StoreError(reply.err.value)))
      else Attempt(reply.channel, group, None)
  }

  /** The auto_group key after an attempt on `group`: only a successful "auto" attempt writes it. */
  function AutoGroupAfter(cfg: Config, userGroup: string, group: string, model: string, retry: int,
                          before: Option<string>): (after: Option<string>)
    ensures !Succeeded(AttemptOf(cfg, userGroup, group, model, retry)) ==> after == before
    ensures group != Auto ==> after == before
    ensures group == Auto && Succeeded(AttemptOf(cfg, userGroup, group, model, retry)) ==>
      after == Some(AttemptOf(cfg, userGroup, group, model, retry).group)
  {
    var autoGroups := cfg.userAutoGroups(userGroup);
    var k := AutoHit(cfg, userGroup, model, retry);
    if group == Auto && |cfg.autoGroups| != 0 && k < |autoGroups| then Some(autoGroups[k]) else before
  }

  /** Index of the first priority entry whose attempt succeeds, or the list length. */
  function FirstSuccess(cfg: Config, userGroup: string, priorities: seq<GroupPriority>, model: string, retry: int): (k: nat)
    ensures k <= |priorities|
    ensures forall j | 0 <= j < k :: !Succeeded(AttemptOf(cfg, userGroup, priorities[j].group, model, retry))
    ensures k < |priorities| ==> Succeeded(AttemptOf(cfg, userGroup, priorities[k].group, model, retry))
  {
    Lists.FirstWhere(priorities, (p: GroupPriority) => Succeeded(AttemptOf(cfg, userGroup, p.group, model, retry)))
  }

  /** The groups named in a priority list. */
  function GroupsOf(priorities: seq<GroupPriority>): (groups: set<string>)
    ensures forall i | 0 <= i < |priorities| :: priorities[i].group in groups
    ensures forall g | g in groups :: exists i | 0 <= i < |priorities| :: priorities[i].group == g
  {
    set p | p in priorities :: p.group
  }

  /** Fallback candidates: usable groups of the user, not excluded, with a ratio entry. */
  function CandidateGroups(cfg: Config, userGroup: string, exclude: set<string>): (groups: set<string>)
    ensures forall g :: g in groups <==>
      g in cfg.userUsableGroups(userGroup) && g !in exclude && g in cfg.groupRatios
  {
    set g | g in cfg.userUsableGroups(userGroup) && g !in exclude && g in cfg.groupRatios
  }

  /** The state and result after one single-group attempt (selectChannelFromSingleGroup). */
  twostate predicate SingleGroupOutcome(c: Context, cfg: Config, group: string, model: string, retry: int,
                                        new channel: Option<Channel>, selectGroup: string, new err: Option<SelectError>)
    reads c
  {
    var a := AttemptOf(cfg, c.userGroup, group, model, retry);
    && Attempt(channel, selectGroup, err) == a
    && (if Succeeded(a) then SelectionAfter(c, a.group, false) else SelectionKept(c))
    && c.autoGroup == AutoGroupAfter(cfg, c.userGroup, group, model, retry, old(c.autoGroup))
  }

  /**
   * The state and result of the ratio fallback (selectChannelByRatio): no
   * candidate gives NoAvailableGroup; otherwise the winner is a candidate
   * whose attempt succeeds and every strictly cheaper candidate failed; when
   * every candidate fails the result is AllGroupsFailed. `before` holds
   * the context keys as they were when the fallback started.
   */
  predicate RatioFallbackOutcome(c: Context, before: Keys, cfg: Config, exclude: set<string>, model: string, retry: int,
                                 channel: Option<Channel>, selectGroup: string, err: Option<SelectError>)
    reads c
  {
    var candidates := CandidateGroups(cfg, c.userGroup, exclude);
    && (err == Some(NoAvailableGroup) <==> candidates == {})
    && (err == Some(AllGroupsFailed) <==>
          candidates != {} && forall g | g in candidates :: !Succeeded(AttemptOf(cfg, c.userGroup, g, model, retry)))
    && (err.Some? ==> channel.None? && selectGroup == "" && KeysOf(c) == before
                      && (err == Some(NoAvailableGroup) || err == Some(AllGroupsFailed)))
    && (err.None? ==> exists w | w in candidates ::
          && Succeeded(AttemptOf(cfg, c.userGroup, w, model, retry))
          && Attempt(channel, selectGroup, err) == AttemptOf(cfg, c.userGroup, w, model, retry)
          && (forall g | g in candidates && cfg.groupRatios[g] < cfg.groupRatios[w] ::
                !Succeeded(AttemptOf(cfg, c.userGroup, g, model, retry)))
          && (if selectGroup == "" then SameSelection(KeysOf(c), before) else c.Records(selectGroup, true))
          && c.autoGroup == AutoGroupAfter(cfg, c.userGroup, w, model, retry, before.autoGroup))
  }

  /** Records the selected group; an empty group leaves the context as it is. */
  method SetGroupSelectionContext(c: Context, group: string, autoSmart: bool)
    modifies c`selectedGroup, c`usingGroup, c`autoSmartGroupUsed
    ensures SelectionAfter(c, group, autoSmart)
  {
    if group == "" {
      return;
    }
    c.selectedGroup := group;
    c.usingGroup := group;
    if autoSmart {
      c.autoSmartGroupUsed := Some(true);
    } else {
      c.autoSmartGroupUsed := Some(false);
    }
  }

  method CacheGetRandomSatisfiedChannel(c: Context, cfg: Config, group: string, model: string, retry: int)
    returns (channel: Option<Channel>, selectGroup: string, err: Option<SelectError>)
    modifies c`autoGroup
    ensures Attempt(channel, selectGroup, err) == AttemptOf(cfg, c.userGroup, group, model, retry)
    ensures c.autoGroup == AutoGroupAfter(cfg, c.userGroup, group, model, retry, old(c.autoGroup))
  {
    selectGroup := group;
    var userGroup := c.userGroup;
    if group == Auto {
      if |cfg.autoGroups| == 0 {
        return None, selectGroup, Some(AutoGroupsDisabled);
      }
      var autoGroups := cfg.userAutoGroups(userGroup);
      channel := None;
      var i := 0;
      while i < |autoGroups|
        invariant 0 <= i <= |autoGroups|
        invariant forall j | 0 <= j < i :: cfg.store(autoGroups[j], model, retry).channel.None?
        invariant channel == None && selectGroup == group && c.autoGroup == old(c.autoGroup)
      {
        channel := cfg.store(autoGroups[i], model, retry).channel;
        if channel.Some? {
          c.autoGroup := Some(autoGroups[i]);
          selectGroup := autoGroups[i];
          break;
        }
        i := i + 1;
      }
    } else {
      var reply := cfg.store(group, model, retry);
      channel := reply.channel;
      if reply.err.Some? {
        return None, group, Some(StoreError(reply.err.value));
      }
    }
    err := None;
  }

  method SelectChannelFromSingleGroup(c: Context, cfg: Config, group: string, model: string, retry: int)
    returns (channel: Option<Channel>, selectGroup: string, err: Option<SelectError>)
    modifies c`selectedGroup, c`usingGroup, c`autoSmartGroupUsed, c`autoGroup
    ensures SingleGroupOutcome(c, cfg, group, model, retry, channel, selectGroup, err)
  {
    channel, selectGroup, err := CacheGetRandomSatisfiedChannel(c, cfg, group, model, retry);
    if err.None? && channel.Some? {
      SetGroupSelectionContext(c, selectGroup, false);
    }
  }

  /** The fallback chains of two and three names, read off FirstNonEmpty. */
  lemma FirstOfThree(a: string, b: string, c: string)
    ensures FirstNonEmpty([a, b]) == if a != "" then a else b
    ensures FirstNonEmpty([a, b, c]) == if a != "" then a else if b != "" then b else c
  {
    assert [a, b][1..] == [b] && [b][1..] == [];
    assert [a, b, c][1..] == [b, c] && [b, c][1..] == [c] && [c][1..] == [];
    assert FirstNonEmpty([c]) == c;
    assert FirstNonEmpty([b]) == b;
    assert FirstNonEmpty([b, c]) == if b != "" then b else c;
  }

  /**
   * Selects a channel for the token: one attempt on using_group (else the
   * token's group) when the stored list is malformed; one attempt on the
   * base group when the list is empty; otherwise the first entry, in list
   * order, whose attempt succeeds; and when all entries fail, either
   * AllGroupsFailed or, if the token opts in, the ratio fallback.
   */
  method SelectChannelWithPriority(c: Context, token: Token, parsed: PriorityParse, cfg: Config,
                                   model: string, retry: int)
    returns (channel: Option<Channel>, selectGroup: string, err: Option<SelectError>)
    modifies c`selectedGroup, c`usingGroup, c`autoSmartGroupUsed, c`autoGroup
    ensures parsed.Malformed? ==>
      SingleGroupOutcome(c, cfg, FirstNonEmpty([old(c.usingGroup), token.group]), model, retry,
                         channel, selectGroup, err)
    ensures parsed.Parsed? && parsed.priorities == [] ==>
      SingleGroupOutcome(c, cfg, FirstNonEmpty([old(c.usingGroup), token.group, c.userGroup]), model, retry,
                         channel, selectGroup, err)
    ensures parsed.Parsed? && parsed.priorities != [] ==>
      var priorities := parsed.priorities;
      var k := FirstSuccess(cfg, c.userGroup, priorities, model, retry);
      if k < |priorities| then
        var a := AttemptOf(cfg, c.userGroup, priorities[k].group, model, retry);
        && Attempt(channel, selectGroup, err) == a
        && SelectionAfter(c, a.group, false)
        && c.autoGroup == AutoGroupAfter(cfg, c.userGroup, priorities[k].group, model, retry, old(c.autoGroup))
      else if !token.autoSmartGroup then
        && channel.None? && selectGroup == "" && err == Some(AllGroupsFailed)
        && SelectionKept(c) && c.autoGroup == old(c.autoGroup)
      else
        RatioFallbackOutcome(c, old(KeysOf(c)), cfg, GroupsOf(priorities), model, retry, channel, selectGroup, err)
  {
    if parsed.Malformed? {
      var fallbackGroup := c.usingGroup;
      if fallbackGroup == "" {
        fallbackGroup := token.group;
      }
      FirstOfThree(old(c.usingGroup), token.group, "");
      channel, selectGroup, err := SelectChannelFromSingleGroup(c, cfg, fallbackGroup, model, retry);
      return;
    }
    var priorities := parsed.priorities;

    var baseGroup := c.usingGroup;
    if baseGroup == "" {
      baseGroup := token.group;
    }
    if baseGroup == "" {
      baseGroup := c.userGroup;
    }
    FirstOfThree(old(c.usingGroup), token.group, c.userGroup);

    if |priorities| == 0 {
      channel, selectGroup, err := SelectChannelFromSingleGroup(c, cfg, baseGroup, model, retry);
      return;
    }

    channel, selectGroup, err := SelectFromPriorities(c, token.autoSmartGroup, priorities, cfg, model, retry);
  }

  /**
   * The non-empty list branch of SelectChannelWithPriority: the list walk,
   * then the ratio fallback when the token allows auto smart group.
   */
  method SelectFromPriorities(c: Context, autoSmartGroup: bool, priorities: seq<GroupPriority>, cfg: Config,
                              model: string, retry: int)
    returns (channel: Option<Channel>, selectGroup: string, err: Option<SelectError>)
    modifies c`selectedGroup, c`usingGroup, c`autoSmartGroupUsed, c`autoGroup
    ensures var k := FirstSuccess(cfg, c.userGroup, priorities, model, retry);
      if k < |priorities| then
        var a := AttemptOf(cfg, c.userGroup, priorities[k].group, model, retry);
        && Attempt(channel, selectGroup, err) == a
        && SelectionAfter(c, a.group, false)
        && c.autoGroup == AutoGroupAfter(cfg, c.userGroup, priorities[k].group, model, retry, old(c.autoGroup))
      else if !autoSmartGroup then
        && channel.None? && selectGroup == "" && err == Some(AllGroupsFailed)
        && SelectionKept(c) && c.autoGroup == old(c.autoGroup)
      else
        RatioFallbackOutcome(c, old(KeysOf(c)), cfg, GroupsOf(priorities), model, retry, channel, selectGroup, err)
  {
    var found;
    channel, selectGroup, err, found := TryPriorities(c, cfg, priorities, model, retry);
    if found {
      return;
    }

    if autoSmartGroup {
      channel, selectGroup, err := SelectChannelByRatio(c, cfg, model, retry, priorities);
      return;
    }
    return None, "", Some(AllGroupsFailed);
  }

  /** The walk of SelectChannelWithPriority: tries the entries in list order and records the first success. */
  method TryPriorities(c: Context, cfg: Config, priorities: seq<GroupPriority>, model: string, retry: int)
    returns (channel: Option<Channel>, selectGroup: string, err: Option<SelectError>, found: bool)
    modifies c`selectedGroup, c`usingGroup, c`autoSmartGroupUsed, c`autoGroup
    ensures found <==> FirstSuccess(cfg, c.userGroup, priorities, model, retry) < |priorities|
    ensures found ==>
      var k := FirstSuccess(cfg, c.userGroup, priorities, model, retry);
      var a := AttemptOf(cfg, c.userGroup, priorities[k].group, model, retry);
      && Attempt(channel, selectGroup, err) == a
      && SelectionAfter(c, a.group, false)
      && c.autoGroup == AutoGroupAfter(cfg, c.userGroup, priorities[k].group, model, retry, old(c.autoGroup))
    ensures !found ==> SelectionKept(c) && c.autoGroup == old(c.autoGroup)
  {
    var i := 0;
    while i < |priorities|
      invariant 0 <= i <= |priorities|
      invariant forall j | 0 <= j < i :: !Succeeded(AttemptOf(cfg, c.userGroup, priorities[j].group, model, retry))
      invariant SelectionKept(c) && c.autoGroup == old(c.autoGroup)
    {
      var ch, g, e := CacheGetRandomSatisfiedChannel(c, cfg, priorities[i].group, model, retry);
      if e.Some? {
        i := i + 1;
        continue;
      }
      if ch.Some? {
        SetGroupSelectionContext(c, g, false);
        FirstSuccessAt(cfg, c.userGroup, priorities, model, retry, i);
        return ch, g, None, true;
      }
      i := i + 1;
    }
    FirstSuccessAt(cfg, c.userGroup, priorities, model, retry, |priorities|);
    return None, "", None, false;
  }

  /** FirstSuccess is the position before which every attempt fails and at which one succeeds. */
  lemma FirstSuccessAt(cfg: Config, userGroup: string, priorities: seq<GroupPriority>, model: string, retry: int, i: nat)
    requires i <= |priorities|
    requires forall j | 0 <= j < i :: !Succeeded(AttemptOf(cfg, userGroup, priorities[j].group, model, retry))
    requires i < |priorities| ==> Succeeded(AttemptOf(cfg, userGroup, priorities[i].group, model, retry))
    ensures FirstSuccess(cfg, userGroup, priorities, model, retry) == i
  {
  }

  /** Every usable group of the user that is not excluded and has a ratio, each once, in any order. */
  method CollectCandidates(usable: set<string>, exclude: set<string>, ratios: map<string, real>)
    returns (candidates: seq<Candidate>)
    ensures forall x :: x in candidates <==>
      x.group in usable && x.group !in exclude && x.group in ratios && x.ratio == ratios[x.group]
    ensures forall i, j | 0 <= i < j < |candidates| :: candidates[i].group != candidates[j].group
  {
    candidates := [];
    var remaining := usable;
    while remaining != {}
      invariant remaining <= usable
      invariant forall x :: x in candidates <==>
        x.group in usable - remaining && x.group !in exclude && x.group in ratios && x.ratio == ratios[x.group]
      invariant forall i, j | 0 <= i < j < |candidates| :: candidates[i].group != candidates[j].group
      decreases |remaining|
    {
      var g :| g in remaining;
      remaining := remaining - {g};
      if g in exclude {
        continue;
      }
      if g !in ratios {
        continue;
      }
      candidates := candidates + [Candidate(g, ratios[g])];
    }
  }

  /** Cheapest ratio first: sort.Slice with `ratio[i] < ratio[j]`. */
  predicate RatioSorted(s: seq<Candidate>) {
    forall p, q | 0 <= p < q < |s| :: s[p].ratio <= s[q].ratio
  }

  /** Position of a cheapest candidate among a[lo..]. */
  method CheapestFrom(a: array<Candidate>, lo: int) returns (m: int)
    requires 0 <= lo < a.Length
    ensures lo <= m < a.Length
    ensures forall q | lo <= q < a.Length :: a[m].ratio <= a[q].ratio
  {
    m := lo;
    var j := lo + 1;
    while j < a.Length
      invariant lo <= m < j <= a.Length
      invariant forall q | lo <= q < j :: a[m].ratio <= a[q].ratio
    {
      if a[j].ratio < a[m].ratio {
        m := j;
      }
      j := j + 1;
    }
  }

  /** Sorts the candidates by ratio, cheapest first, in place; ties in any order. */
  method SortByRatio(a: array<Candidate>)
    modifies a
    ensures RatioSorted(a[..])
    ensures multiset(a[..]) == old(multiset(a[..]))
  {
    var i := 0;
    while i < a.Length
      invariant 0 <= i <= a.Length
      invariant forall p, q | 0 <= p < q < i :: a[p].ratio <= a[q].ratio
      invariant forall p, q | 0 <= p < i <= q < a.Length :: a[p].ratio <= a[q].ratio
      invariant multiset(a[..]) == old(multiset(a[..]))
    {
      var m := CheapestFrom(a, i);
      Swap(a, i, m);
      i := i + 1;
    }
  }

  /** Exchanges two elements; the others stay in place. */
  method Swap(a: array<Candidate>, i: int, j: int)
    requires 0 <= i < a.Length && 0 <= j < a.Length
    modifies a
    ensures a[i] == old(a[j]) && a[j] == old(a[i])
    ensures forall k | 0 <= k < a.Length && k != i && k != j :: a[k] == old(a[k])
    ensures multiset(a[..]) == old(multiset(a[..]))
  {
    a[i], a[j] := a[j], a[i];
  }

  /** The set of groups of the priority list (the excludeMap of selectChannelByRatio). */
  method ExcludedGroups(priorities: seq<GroupPriority>) returns (exclude: set<string>)
    ensures exclude == GroupsOf(priorities)
  {
    exclude := {};
    for i := 0 to |priorities|
      invariant exclude == GroupsOf(priorities[..i])
    {
      assert priorities[..i + 1] == priorities[..i] + [priorities[i]];
      exclude := exclude + {priorities[i].group};
    }
    assert priorities[..|priorities|] == priorities;
  }

  /** Tries the candidates in array order and stops at the first success. */
  method TryInOrder(c: Context, cfg: Config, a: array<Candidate>, model: string, retry: int)
    returns (channel: Option<Channel>, selectGroup: string, err: Option<SelectError>, ghost w: int)
    modifies c`selectedGroup, c`usingGroup, c`autoSmartGroupUsed, c`autoGroup
    ensures err.Some? ==>
      && err == Some(AllGroupsFailed) && channel.None? && selectGroup == ""
      && SelectionKept(c) && c.autoGroup == old(c.autoGroup)
      && forall p | 0 <= p < a.Length :: !Succeeded(AttemptOf(cfg, c.userGroup, a[p].group, model, retry))
    ensures err.None? ==>
      && 0 <= w < a.Length
      && Succeeded(AttemptOf(cfg, c.userGroup, a[w].group, model, retry))
      && Attempt(channel, selectGroup, err) == AttemptOf(cfg, c.userGroup, a[w].group, model, retry)
      && (forall p | 0 <= p < w :: !Succeeded(AttemptOf(cfg, c.userGroup, a[p].group, model, retry)))
      && SelectionAfter(c, selectGroup, true)
      && c.autoGroup == AutoGroupAfter(cfg, c.userGroup, a[w].group, model, retry, old(c.autoGroup))
  {
    var i := 0;
    while i < a.Length
      invariant 0 <= i <= a.Length
      invariant forall p | 0 <= p < i :: !Succeeded(AttemptOf(cfg, c.userGroup, a[p].group, model, retry))
      invariant SelectionKept(c) && c.autoGroup == old(c.autoGroup)
    {
      var ch, g, e := CacheGetRandomSatisfiedChannel(c, cfg, a[i].group, model, retry);
      if e.Some? {
        i := i + 1;
        continue;
      }
      if ch.Some? {
        SetGroupSelectionContext(c, g, true);
        return ch, g, None, i;
      }
      i := i + 1;
    }
    return None, "", Some(AllGroupsFailed), 0;
  }

  /**
   * The fallback of selectChannelByRatio: the user's usable groups that are
   * not in the priority list and have a ratio, tried cheapest first.
   */
  method SelectChannelByRatio(c: Context, cfg: Config, model: string, retry: int,
                              excludePriorities: seq<GroupPriority>)
    returns (channel: Option<Channel>, selectGroup: string, err: Option<SelectError>)
    modifies c`selectedGroup, c`usingGroup, c`autoSmartGroupUsed, c`autoGroup
    ensures RatioFallbackOutcome(c, old(KeysOf(c)), cfg, GroupsOf(excludePriorities), model, retry, channel, selectGroup, err)
  {
    var userGroup := c.userGroup;
    ghost var candidateSet := CandidateGroups(cfg, userGroup, GroupsOf(excludePriorities));
    var candidates := RatioCandidates(cfg, userGroup, excludePriorities);
    if |candidates| == 0 {
      return None, "", Some(NoAvailableGroup);
    }

    channel, selectGroup, err := TryCheapestFirst(c, cfg, candidates, model, retry);
    if err.None? {
      ghost var x :| x in candidates && Succeeded(AttemptOf(cfg, userGroup, x.group, model, retry))
        && Attempt(channel, selectGroup, err) == AttemptOf(cfg, userGroup, x.group, model, retry)
        && (forall y | y in candidates && y.ratio < x.ratio :: !Succeeded(AttemptOf(cfg, userGroup, y.group, model, retry)))
        && SelectionAfter(c, selectGroup, true)
        && c.autoGroup == AutoGroupAfter(cfg, userGroup, x.group, model, retry, old(c.autoGroup));
      assert x.group in candidateSet;
      assert if selectGroup == "" then SameSelection(KeysOf(c), old(KeysOf(c))) else c.Records(selectGroup, true);
    } else {
      assert candidates[0] in candidates;
      assert KeysOf(c) == old(KeysOf(c));
    }
  }

  /**
   * The candidates of the ratio fallback: one per usable group that is not
   * in the priority list and has a ratio, carrying that ratio.
   */
  method RatioCandidates(cfg: Config, userGroup: string, excludePriorities: seq<GroupPriority>)
    returns (candidates: seq<Candidate>)
    ensures forall x :: x in candidates <==>
      x.group in CandidateGroups(cfg, userGroup, GroupsOf(excludePriorities)) && x.ratio == cfg.groupRatios[x.group]
    ensures forall g | g in CandidateGroups(cfg, userGroup, GroupsOf(excludePriorities)) ::
      Candidate(g, cfg.groupRatios[g]) in candidates
  {
    var usableGroups := cfg.userUsableGroups(userGroup);
    var ratioMap := cfg.groupRatios;
    var excludeMap := ExcludedGroups(excludePriorities);
    candidates := CollectCandidates(usableGroups, excludeMap, ratioMap);
  }

  /** Two permutations of each other hold the same candidates. */
  lemma SameMembers(a: seq<Candidate>, b: seq<Candidate>)
    requires multiset(a) == multiset(b)
    ensures forall x :: x in a <==> x in b
  {
    forall x ensures x in a <==> x in b {
      assert x in a <==> x in multiset(a);
    }
  }

  /** Sorts a copy of the candidates by ratio and tries them cheapest first. */
  method TryCheapestFirst(c: Context, cfg: Config, candidates: seq<Candidate>, model: string, retry: int)
    returns (channel: Option<Channel>, selectGroup: string, err: Option<SelectError>)
    modifies c`selectedGroup, c`usingGroup, c`autoSmartGroupUsed, c`autoGroup
    ensures err.Some? ==>
      && err == Some(AllGroupsFailed) && channel.None? && selectGroup == ""
      && SelectionKept(c) && c.autoGroup == old(c.autoGroup)
      && forall x | x in candidates :: !Succeeded(AttemptOf(cfg, c.userGroup, x.group, model, retry))
    ensures err.None? ==> exists x | x in candidates ::
      && Succeeded(AttemptOf(cfg, c.userGroup, x.group, model, retry))
      && Attempt(channel, selectGroup, err) == AttemptOf(cfg, c.userGroup, x.group, model, retry)
      && (forall y | y in candidates && y.ratio < x.ratio :: !Succeeded(AttemptOf(cfg, c.userGroup, y.group, model, retry)))
      && SelectionAfter(c, selectGroup, true)
      && c.autoGroup == AutoGroupAfter(cfg, c.userGroup, x.group, model, retry, old(c.autoGroup))
  {
    var a := new Candidate[|candidates|](k requires 0 <= k < |candidates| => candidates[k]);
    assert a[..] == candidates;
    SortByRatio(a);
    ghost var sorted := a[..];
    SameMembers(sorted, candidates);
    ghost var w;
    channel, selectGroup, err, w := TryInOrder(c, cfg, a, model, retry);
    assert a[..] == sorted;
    if err.None? {
      var x := sorted[w];
      assert x in sorted;
      forall y | y in candidates && y.ratio < x.ratio
        ensures !Succeeded(AttemptOf(cfg, c.userGroup, y.group, model, retry))
      {
        var p := CheaperBefore(sorted, w, y);
      }
    } else {
      forall y | y in candidates ensures !Succeeded(AttemptOf(cfg, c.userGroup, y.group, model, retry)) {
        var p :| 0 <= p < |sorted| && sorted[p] == y;
      }
    }
  }

  /** In a ratio-sorted array, an entry strictly cheaper than position w sits before w. */
  lemma CheaperBefore(sorted: seq<Candidate>, w: int, x: Candidate) returns (p: int)
    requires RatioSorted(sorted) && 0 <= w < |sorted|
    requires x in sorted && x.ratio < sorted[w].ratio
    ensures 0 <= p < w && sorted[p] == x
  {
    p :| 0 <= p < |sorted| && sorted[p] == x;
  }
}
