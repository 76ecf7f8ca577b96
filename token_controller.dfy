/**
 * The token write path and the two read endpoints of the token controller.
 *
 * Add and update take the request record, the stored token, the request
 * time and the user's usable groups, and return the token that would be
 * written or the error the handler reports. The store, key generation and
 * the token model's own priority codec are inputs: a lookup result, a key
 * that may be missing, and an oracle for SetGroupPriorities.
 */
module TokenController {
  import opened Wrappers
  import opened TokenRecord
  import opened Text
  import Lists

  /** Longest accepted token name, in bytes. */
  const MaxTokenNameBytes := 30

  /** The create/update request body: the token fields plus the priority array. */
  datatype TokenRequest = TokenRequest(token: Token, groupPrioritiesArray: seq<GroupPriority>)

  /** What a successful SetGroupPriorities leaves on the token: the stored list text and the synced `Group`. */
  datatype Written = Written(text: string, group: string)

  /** The token model's SetGroupPriorities: the list to what it writes, or the reason it refused. */
  type PrioritySetter = seq<GroupPriority> -> Result<Written, string>

  /**
   * Entry `i` heads the list once it is stably sorted by priority: no entry
   * has a lower priority number, and every earlier entry a higher one.
   */
  predicate HeadsSortedList(priorities: seq<GroupPriority>, i: int) {
    && 0 <= i < |priorities|
    && (forall j | 0 <= j < |priorities| :: priorities[i].priority <= priorities[j].priority)
    && (forall j | 0 <= j < i :: priorities[i].priority < priorities[j].priority)
  }

  /** `g` is the primary group of a list: the trimmed, non-blank group of the entry that heads it sorted. */
  predicate IsPrimaryGroup(priorities: seq<GroupPriority>, g: string) {
    exists i | 0 <= i < |priorities| && HeadsSortedList(priorities, i) :: g == GoTrim(priorities[i].group) && g != ""
  }

  /** The codec's promise: a successful write of a non-empty list syncs `Group` to its primary group. */
  ghost predicate SyncsPrimaryGroup(setPriorities: PrioritySetter) {
    forall priorities | priorities != [] && setPriorities(priorities).Ok? ::
      IsPrimaryGroup(priorities, setPriorities(priorities).value.group)
  }

  /** Where the requesting user's group comes from and what it may use. */
  datatype Access = Access(
    typedUserGroup: string,                  // the typed context key
    rawUserGroup: string,                    // the same key read as a plain string
    usableGroupsOf: string -> set<string>)   // GetUserUsableGroups

  datatype TokenError =
    | NameTooLong
    | KeyGenerationFailed
    | LookupFailed
    | Unauthorized(group: string)
    | SetPrioritiesFailed(reason: string)
    | ExpiredCannotEnable
    | ExhaustedCannotEnable

  /** The user-visible message of each error. */
  function Message(e: TokenError): (m: string)
    ensures |m| > 0
    ensures e.Unauthorized? ==> |e.group| < |m| && m[|m| - |e.group|..] == e.group
    ensures e.SetPrioritiesFailed? ==> |e.reason| < |m| && m[|m| - |e.reason|..] == e.reason
  {
    match e
    case NameTooLong => "令牌名称过长"
    case KeyGenerationFailed => "生成令牌失败"
    case LookupFailed => "record not found"
    case Unauthorized(g) => "无权访问分组: " + g
    case SetPrioritiesFailed(reason) => "分组优先级设置失败: " + reason
    case ExpiredCannotEnable => "令牌已过期，无法启用，请先修改令牌过期时间，或者设置为永不过期"
    case ExhaustedCannotEnable => "令牌可用额度已用尽，无法启用，请先修改令牌剩余额度，或者设置为无限额度"
  }

  /** The requesting user's group: the typed key when set, else the plain key. */
  function RequestUserGroup(access: Access): (g: string)
    ensures access.typedUserGroup != "" ==> g == access.typedUserGroup
    ensures g == "" <==> access.typedUserGroup == "" && access.rawUserGroup == ""
    ensures g == access.typedUserGroup || g == access.rawUserGroup
  {
    if access.typedUserGroup != "" then access.typedUserGroup else access.rawUserGroup
  }

  function UsableGroups(access: Access): set<string> {
    access.usableGroupsOf(RequestUserGroup(access))
  }

  /** The trimmed group of every entry, in order. */
  function TrimmedGroups(priorities: seq<GroupPriority>): (names: seq<string>)
    ensures |names| == |priorities|
    ensures forall i | 0 <= i < |priorities| :: names[i] == GoTrim(priorities[i].group)
  {
    seq(|priorities|, i requires 0 <= i < |priorities| => GoTrim(priorities[i].group))
  }

  /**
   * The groups named by a priority array: trimmed, blanks dropped, each name
   * once, in the order of its first occurrence.
   */
  method CollectGroupsFromPriorities(priorities: seq<GroupPriority>) returns (result: seq<string>)
    ensures result == Lists.KeepFirst(TrimmedGroups(priorities))
    ensures forall x | x in result :: x != "" && IsTrimmed(x, IsGoSpace)
    ensures forall x | x in result :: exists i | 0 <= i < |priorities| :: x == GoTrim(priorities[i].group)
    ensures forall i | 0 <= i < |priorities| && GoTrim(priorities[i].group) != "" :: GoTrim(priorities[i].group) in result
    ensures Lists.Distinct(result)
    ensures forall i, j | 0 <= i < j < |result| ::
      Lists.IndexOf(TrimmedGroups(priorities), result[i]) < Lists.IndexOf(TrimmedGroups(priorities), result[j])
  {
    result := [];
    var seen: set<string> := {};
    for i := 0 to |priorities|
      invariant result == Lists.KeepFirst(TrimmedGroups(priorities[..i]))
      invariant forall x :: x in seen <==> x in result
    {
      var groupName := GoTrim(priorities[i].group);
      KeepFirstStep(priorities, i);
      if groupName == "" {
        continue;
      }
      if groupName in seen {
        continue;
      }
      seen := seen + {groupName};
      result := result + [groupName];
    }
    assert priorities[..|priorities|] == priorities;
    CollectedGroups(priorities);
  }

  /** One more entry extends the collected list by its trimmed group, unless blank or already there. */
  lemma KeepFirstStep(priorities: seq<GroupPriority>, i: nat)
    requires i < |priorities|
    ensures var before := Lists.KeepFirst(TrimmedGroups(priorities[..i]));
      var g := GoTrim(priorities[i].group);
      Lists.KeepFirst(TrimmedGroups(priorities[..i + 1])) == if g == "" || g in before then before else before + [g]
  {
    TrimmedGroupsSnoc(priorities, i);
    Lists.KeepFirstSnoc(TrimmedGroups(priorities[..i]), GoTrim(priorities[i].group));
  }

  /** The trimmed groups of one more entry are those before it and its own. */
  lemma TrimmedGroupsSnoc(priorities: seq<GroupPriority>, i: nat)
    requires i < |priorities|
    ensures TrimmedGroups(priorities[..i + 1]) == TrimmedGroups(priorities[..i]) + [GoTrim(priorities[i].group)]
  {
    assert priorities[..i + 1] == priorities[..i] + [priorities[i]];
    TrimmedGroupsAppend(priorities[..i], priorities[i]);
  }

  lemma TrimmedGroupsAppend(q: seq<GroupPriority>, x: GroupPriority)
    ensures TrimmedGroups(q + [x]) == TrimmedGroups(q) + [GoTrim(x.group)]
  {
    var a := TrimmedGroups(q + [x]);
    var b := TrimmedGroups(q) + [GoTrim(x.group)];
    assert |a| == |b|;
    forall k | 0 <= k < |a| ensures a[k] == b[k] {
      if k < |q| {
        assert (q + [x])[k] == q[k];
      }
    }
  }

  /** What the collected list holds, read off KeepFirst. */
  lemma CollectedGroups(priorities: seq<GroupPriority>)
    ensures var result := Lists.KeepFirst(TrimmedGroups(priorities));
      && (forall x | x in result :: x != "" && IsTrimmed(x, IsGoSpace))
      && (forall x | x in result :: exists i | 0 <= i < |priorities| :: x == GoTrim(priorities[i].group))
      && (forall i | 0 <= i < |priorities| && GoTrim(priorities[i].group) != "" :: GoTrim(priorities[i].group) in result)
      && Lists.Distinct(result)
      && (forall i, j | 0 <= i < j < |result| ::
            Lists.IndexOf(TrimmedGroups(priorities), result[i]) < Lists.IndexOf(TrimmedGroups(priorities), result[j]))
  {
    var names := TrimmedGroups(priorities);
    var result := Lists.KeepFirst(names);
    Lists.KeepFirstOrder(names);
    forall x | x in result ensures exists i | 0 <= i < |priorities| :: x == GoTrim(priorities[i].group) {
      var i := Lists.IndexOf(names, x);
      assert x == GoTrim(priorities[i].group);
    }
    forall x | x in result ensures IsTrimmed(x, IsGoSpace) {
      var i := Lists.IndexOf(names, x);
    }
    forall i | 0 <= i < |priorities| && GoTrim(priorities[i].group) != "" ensures GoTrim(priorities[i].group) in result {
      assert names[i] in names;
    }
  }

  /** Index of the first non-empty name outside `usable`, or |groups| when there is none. */
  function FirstUnauthorized(groups: seq<string>, usable: set<string>): (k: nat)
    ensures k <= |groups|
    ensures forall j | 0 <= j < k :: groups[j] == "" || groups[j] in usable
    ensures k < |groups| ==> groups[k] != "" && groups[k] !in usable
  {
    Lists.FirstWhere(groups, (g: string) => g != "" && g !in usable)
  }

  /**
   * The authorization gate: passes when every non-empty name is usable,
   * otherwise names the first offender in input order. The usable set is
   * resolved only when there is something to check.
   */
  method EnsureUserGroupsAccessible(access: Access, groups: seq<string>) returns (err: Option<TokenError>)
    ensures err.None? <==> forall i | 0 <= i < |groups| :: groups[i] == "" || groups[i] in UsableGroups(access)
    ensures err.Some? ==>
      var k := FirstUnauthorized(groups, UsableGroups(access));
      k < |groups| && err == Some(Unauthorized(groups[k]))
  {
    if |groups| == 0 {
      return None;
    }
    var userGroup := RequestUserGroup(access);
    var usableGroups := access.usableGroupsOf(userGroup);
    for i := 0 to |groups|
      invariant forall j | 0 <= j < i :: groups[j] == "" || groups[j] in usableGroups
    {
      var group := groups[i];
      if group == "" {
        continue;
      }
      if group !in usableGroups {
        assert FirstUnauthorized(groups, usableGroups) == i by {
          FirstUnauthorizedAt(groups, usableGroups, i);
        }
        return Some(Unauthorized(group));
      }
    }
    return None;
  }

  lemma FirstUnauthorizedAt(groups: seq<string>, usable: set<string>, i: nat)
    requires i < |groups| && groups[i] != "" && groups[i] !in usable
    requires forall j | 0 <= j < i :: groups[j] == "" || groups[j] in usable
    ensures FirstUnauthorized(groups, usable) == i
  {
  }

  /** Two tokens agree on every field but `groupPriorities` and `group`. */
  predicate SameButGroups(a: Token, b: Token) {
    a.(groupPriorities := "", group := "") == b.(groupPriorities := "", group := "")
  }

  /** The record AddToken builds before any group logic; fields it does not set keep Go's zero values. */
  function FreshToken(userId: int, req: TokenRequest, key: string, now: int): (t: Token)
    ensures t.key == key && t.userId == userId && t.createdTime == now && t.accessedTime == now
    ensures t.group == GoTrim(req.token.group) && t.groupPriorities == ""
    ensures t.id == 0 && t.status == 0 && t.usedQuota == 0
    ensures t.name == req.token.name && t.expiredTime == req.token.expiredTime
    ensures t.remainQuota == req.token.remainQuota && t.unlimitedQuota == req.token.unlimitedQuota
    ensures t.modelLimitsEnabled == req.token.modelLimitsEnabled && t.modelLimits == req.token.modelLimits
    ensures t.allowIps == req.token.allowIps && t.autoSmartGroup == req.token.autoSmartGroup
  {
    Token(
      id := 0, userId := userId, key := key, status := 0, name := req.token.name,
      createdTime := now, accessedTime := now, expiredTime := req.token.expiredTime,
      remainQuota := req.token.remainQuota, unlimitedQuota := req.token.unlimitedQuota,
      modelLimitsEnabled := req.token.modelLimitsEnabled, modelLimits := req.token.modelLimits,
      allowIps := req.token.allowIps, usedQuota := 0, group := GoTrim(req.token.group),
      groupPriorities := "", autoSmartGroup := req.token.autoSmartGroup)
  }

  /**
   * The shared array branch of AddToken and UpdateToken: authorize the
   * collected groups, then hand the array to SetGroupPriorities.
   */
  method AuthorizeThenSetPriorities(cleanToken: Token, priorities: seq<GroupPriority>, access: Access,
                                    setPriorities: PrioritySetter)
    returns (r: Result<Token, TokenError>)
    ensures r == ArrayResult(cleanToken, priorities, UsableGroups(access), setPriorities)
  {
    var groups := CollectGroupsFromPriorities(priorities);
    var err := EnsureUserGroupsAccessible(access, groups);
    if err.Some? {
      return Err(err.value);
    }
    var written := setPriorities(priorities);
    if written.Err? {
      return Err(SetPrioritiesFailed(written.error));
    }
    assert FirstUnauthorized(groups, UsableGroups(access)) == |groups|;
    return Ok(cleanToken.(groupPriorities := written.value.text, group := written.value.group));
  }

  /**
   * AddToken up to the insert: name limit, key, the clean record, then
   * either authorize-then-set for a non-empty array or authorize the single
   * trimmed group.
   */
  function AddResult(req: TokenRequest, userId: int, key: Option<string>, now: int, access: Access,
                     setPriorities: PrioritySetter): Result<Token, TokenError>
  {
    if Utf8Length(req.token.name) > MaxTokenNameBytes then Err(NameTooLong)
    else if key.None? then Err(KeyGenerationFailed)
    else
      var created := FreshToken(userId, req, key.value, now);
      if req.groupPrioritiesArray != [] then
        ArrayResult(created, req.groupPrioritiesArray, UsableGroups(access), setPriorities)
      else if created.group != "" && created.group !in UsableGroups(access) then Err(Unauthorized(created.group))
      else Ok(created)
  }

  method AddToken(req: TokenRequest, userId: int, key: Option<string>, now: int, access: Access,
                  setPriorities: PrioritySetter)
    returns (r: Result<Token, TokenError>)
    ensures r == AddResult(req, userId, key, now, access, setPriorities)
  {
    if Utf8Length(req.token.name) > MaxTokenNameBytes {
      return Err(NameTooLong);
    }
    if key.None? {
      return Err(KeyGenerationFailed);
    }
    var trimmedGroup := GoTrim(req.token.group);
    var cleanToken := FreshToken(userId, req, key.value, now);
    assert AddResult(req, userId, key, now, access, setPriorities)
        == if req.groupPrioritiesArray != [] then ArrayResult(cleanToken, req.groupPrioritiesArray, UsableGroups(access), setPriorities)
           else if trimmedGroup != "" && trimmedGroup !in UsableGroups(access) then Err(Unauthorized(trimmedGroup))
           else Ok(cleanToken);

    if |req.groupPrioritiesArray| > 0 {
      r := AuthorizeThenSetPriorities(cleanToken, req.groupPrioritiesArray, access, setPriorities);
    } else {
      r := AuthorizeOwnGroup(cleanToken, access);
    }
  }

  /** The single-group check: a non-empty group of `t` must be usable. */
  method AuthorizeOwnGroup(t: Token, access: Access) returns (r: Result<Token, TokenError>)
    ensures t.group != "" && t.group !in UsableGroups(access) ==> r == Err(Unauthorized(t.group))
    ensures t.group == "" || t.group in UsableGroups(access) ==> r == Ok(t)
  {
    if t.group != "" {
      var err := EnsureUserGroupsAccessible(access, [t.group]);
      if err.Some? {
        return Err(err.value);
      }
      assert [t.group][0] in UsableGroups(access);
    }
    return Ok(t);
  }

  /**
   * The branches of AddToken: the name limit comes first, then the key; an
   * array goes through the shared array branch; without one, a non-empty
   * trimmed group must be usable and no priority list is stored.
   */
  lemma AddBranches(req: TokenRequest, userId: int, key: Option<string>, now: int, access: Access,
                    setPriorities: PrioritySetter)
    ensures var r := AddResult(req, userId, key, now, access, setPriorities);
      var nameFits := Utf8Length(req.token.name) <= MaxTokenNameBytes;
      var group := GoTrim(req.token.group);
      && (!nameFits ==> r == Err(NameTooLong))
      && (nameFits && key.None? ==> r == Err(KeyGenerationFailed))
      && (r.Ok? ==> nameFits && key.Some? && SameButGroups(r.value, FreshToken(userId, req, key.value, now)))
      && (nameFits && key.Some? && req.groupPrioritiesArray != [] ==>
            && r == ArrayResult(FreshToken(userId, req, key.value, now), req.groupPrioritiesArray,
                                UsableGroups(access), setPriorities)
            && (r.Ok? ==> Written(r.value.groupPriorities, r.value.group) == setPriorities(req.groupPrioritiesArray).value)
            && (r.Ok? && SyncsPrimaryGroup(setPriorities) ==>
                  IsPrimaryGroup(req.groupPrioritiesArray, r.value.group) && r.value.group in UsableGroups(access)))
      && (nameFits && key.Some? && req.groupPrioritiesArray == [] ==>
            && (r.Ok? <==> group == "" || group in UsableGroups(access))
            && (r.Err? ==> r.error == Unauthorized(group))
            && (r.Ok? ==> r.value.groupPriorities == "" && r.value.group == group))
  {
    if Utf8Length(req.token.name) <= MaxTokenNameBytes && key.Some? {
      var created := FreshToken(userId, req, key.value, now);
      var r := AddResult(req, userId, key, now, access, setPriorities);
      if req.groupPrioritiesArray != [] {
        assert r == ArrayResult(created, req.groupPrioritiesArray, UsableGroups(access), setPriorities);
        ArrayResultKeepsRecord(created, req.groupPrioritiesArray, UsableGroups(access), setPriorities);
        if SyncsPrimaryGroup(setPriorities) {
          ArrayResultSyncsGroup(created, req.groupPrioritiesArray, UsableGroups(access), setPriorities);
        }
      } else {
        assert r == if created.group != "" && created.group !in UsableGroups(access)
                    then Err(Unauthorized(created.group)) else Ok(created);
      }
    }
  }

  /** A successful array branch writes only the list text and the group the codec returned. */
  lemma ArrayResultKeepsRecord(u: Token, priorities: seq<GroupPriority>, usable: set<string>,
                               setPriorities: PrioritySetter)
    ensures var r := ArrayResult(u, priorities, usable, setPriorities);
      r.Ok? ==> && SameButGroups(r.value, u)
                && Written(r.value.groupPriorities, r.value.group) == setPriorities(priorities).value
  {
  }

  /**
   * When the codec keeps its promise, a successful array branch stores the
   * primary group of the list, and that group is one the user may use.
   */
  lemma ArrayResultSyncsGroup(u: Token, priorities: seq<GroupPriority>, usable: set<string>,
                              setPriorities: PrioritySetter)
    requires SyncsPrimaryGroup(setPriorities)
    ensures var r := ArrayResult(u, priorities, usable, setPriorities);
      priorities != [] && r.Ok? ==>
        && IsPrimaryGroup(priorities, r.value.group)
        && r.value.group in Lists.KeepFirst(TrimmedGroups(priorities))
        && r.value.group in usable
  {
    var r := ArrayResult(u, priorities, usable, setPriorities);
    if priorities != [] && r.Ok? {
      assert r.value.group == setPriorities(priorities).value.group;
      PrimaryGroupCollected(priorities, r.value.group);
      ArrayResultUsable(u, priorities, usable, setPriorities);
    }
  }

  /** At most one entry heads the sorted list: the lowest rank, first occurrence on ties. */
  lemma HeadUnique(priorities: seq<GroupPriority>, i1: int, i2: int)
    requires HeadsSortedList(priorities, i1) && HeadsSortedList(priorities, i2)
    ensures i1 == i2
  {
    assert priorities[i1].priority <= priorities[i2].priority <= priorities[i1].priority;
  }

  /** A list has at most one primary group. */
  lemma PrimaryGroupUnique(priorities: seq<GroupPriority>, g1: string, g2: string)
    requires IsPrimaryGroup(priorities, g1) && IsPrimaryGroup(priorities, g2)
    ensures g1 == g2
  {
    var i1 :| HeadsSortedList(priorities, i1) && g1 == GoTrim(priorities[i1].group);
    var i2 :| HeadsSortedList(priorities, i2) && g2 == GoTrim(priorities[i2].group);
    HeadUnique(priorities, i1, i2);
  }

  /**
   * Adding a token with group "vip" and the array [{default, 1}] stores group
   * "default": the group synced from the list replaces the request's group.
   */
  lemma AddStoresPrimaryGroup(t: Token, key: string, setPriorities: PrioritySetter)
    requires SyncsPrimaryGroup(setPriorities)
    ensures var req := TokenRequest(t.(name := "n", group := "vip"), [GroupPriority("default", 1)]);
      var r := AddResult(req, 0, Some(key), 0, DefaultOnlyUser, setPriorities);
      && (r.Ok? <==> setPriorities(req.groupPrioritiesArray).Ok?)
      && (r.Ok? ==> r.value.group == "default")
  {
    var req := TokenRequest(t.(name := "n", group := "vip"), [GroupPriority("default", 1)]);
    WitnessStrings();
    assert AddResult(req, 0, Some(key), 0, DefaultOnlyUser, setPriorities)
        == ArrayResult(FreshToken(0, req, key, 0), req.groupPrioritiesArray, UsableGroups(DefaultOnlyUser), setPriorities);
    SingleEntryArray(FreshToken(0, req, key, 0), "default", UsableGroups(DefaultOnlyUser), setPriorities);
  }

  /** A one-entry array of a trimmed, usable group succeeds with the codec and stores that group. */
  lemma SingleEntryArray(u: Token, g: string, usable: set<string>, setPriorities: PrioritySetter)
    requires SyncsPrimaryGroup(setPriorities)
    requires g != "" && IsTrimmed(g, IsGoSpace) && g in usable
    ensures var r := ArrayResult(u, [GroupPriority(g, 1)], usable, setPriorities);
      && (r.Ok? <==> setPriorities([GroupPriority(g, 1)]).Ok?)
      && (r.Ok? ==> r.value.group == g)
  {
    var priorities := [GroupPriority(g, 1)];
    var r := ArrayResult(u, priorities, usable, setPriorities);
    assert TrimmedGroups(priorities) == [g];
    Lists.KeepFirstSnoc([], g);
    assert [] + [g] == [g];
    ArrayBranch(u, priorities, usable, setPriorities);
    if r.Ok? {
      ArrayResultSyncsGroup(u, priorities, usable, setPriorities);
      assert HeadsSortedList(priorities, 0);
      PrimaryGroupUnique(priorities, r.value.group, g);
    }
  }

  /** The primary group of a list is among its collected groups. */
  lemma PrimaryGroupCollected(priorities: seq<GroupPriority>, g: string)
    requires IsPrimaryGroup(priorities, g)
    ensures g in Lists.KeepFirst(TrimmedGroups(priorities))
  {
    var i :| HeadsSortedList(priorities, i) && g == GoTrim(priorities[i].group) && g != "";
    CollectedGroups(priorities);
  }

  /** The stored token is expired, its expiry has passed, and it is not "never expires". */
  predicate ExpiredBlocksEnable(t: Token, now: int) {
    t.status == TokenStatusExpired && t.expiredTime <= now && t.expiredTime != NeverExpires
  }

  /** The stored token is exhausted with no quota left and no unlimited quota. */
  predicate ExhaustedBlocksEnable(t: Token) {
    t.status == TokenStatusExhausted && t.remainQuota <= 0 && !t.unlimitedQuota
  }

  /** The fields a full update copies from the request; group is trimmed, everything else is kept. */
  function FullUpdate(t: Token, req: TokenRequest): (u: Token)
    ensures u.id == t.id && u.userId == t.userId && u.key == t.key && u.status == t.status
    ensures u.createdTime == t.createdTime && u.accessedTime == t.accessedTime && u.usedQuota == t.usedQuota
    ensures u.groupPriorities == t.groupPriorities
    ensures u.group == GoTrim(req.token.group)
    ensures u.name == req.token.name && u.expiredTime == req.token.expiredTime
    ensures u.remainQuota == req.token.remainQuota && u.unlimitedQuota == req.token.unlimitedQuota
    ensures u.modelLimitsEnabled == req.token.modelLimitsEnabled && u.modelLimits == req.token.modelLimits
    ensures u.allowIps == req.token.allowIps && u.autoSmartGroup == req.token.autoSmartGroup
  {
    t.(name := req.token.name, expiredTime := req.token.expiredTime, remainQuota := req.token.remainQuota,
       unlimitedQuota := req.token.unlimitedQuota, modelLimitsEnabled := req.token.modelLimitsEnabled,
       modelLimits := req.token.modelLimits, allowIps := req.token.allowIps,
       group := GoTrim(req.token.group), autoSmartGroup := req.token.autoSmartGroup)
  }

  /**
   * The outcome of UpdateToken up to the store write. With `checkKeptGroup`
   * false this is the handler as written; with it true, a full update that
   * keeps the stored priority list also authorizes its non-empty group.
   */
  function UpdateResult(req: TokenRequest, statusOnly: string, stored: Option<Token>, now: int, access: Access,
                        setPriorities: PrioritySetter,
                        checkKeptGroup: bool): Result<Token, TokenError>
  {
    if Utf8Length(req.token.name) > MaxTokenNameBytes then Err(NameTooLong)
    else if stored.None? then Err(LookupFailed)
    else
      var t := stored.value;
      if req.token.status == TokenStatusEnabled && ExpiredBlocksEnable(t, now) then Err(ExpiredCannotEnable)
      else if req.token.status == TokenStatusEnabled && ExhaustedBlocksEnable(t) then Err(ExhaustedCannotEnable)
      else if statusOnly != "" then Ok(t.(status := req.token.status))
      else FullUpdateResult(FullUpdate(t, req), req, UsableGroups(access), setPriorities, checkKeptGroup)
  }

  /** The priority branches of a full update applied to the updated record `u`. */
  function FullUpdateResult(u: Token, req: TokenRequest, usable: set<string>,
                            setPriorities: PrioritySetter,
                            checkKeptGroup: bool): Result<Token, TokenError>
  {
    if req.groupPrioritiesArray != [] then ArrayResult(u, req.groupPrioritiesArray, usable, setPriorities)
    else if req.token.groupPriorities == "" || checkKeptGroup then
      if u.group != "" && u.group !in usable then Err(Unauthorized(u.group))
      else if req.token.groupPriorities == "" then Ok(u.(groupPriorities := ""))
      else Ok(u)
    else Ok(u)
  }

  /** Authorize the collected groups of a non-empty array, then set the list, and with it `Group`, on `u`. */
  function ArrayResult(u: Token, priorities: seq<GroupPriority>, usable: set<string>,
                       setPriorities: PrioritySetter): Result<Token, TokenError>
  {
    var groups := Lists.KeepFirst(TrimmedGroups(priorities));
    var k := FirstUnauthorized(groups, usable);
    var written := setPriorities(priorities);
    if k < |groups| then Err(Unauthorized(groups[k]))
    else if written.Err? then Err(SetPrioritiesFailed(written.error))
    else Ok(u.(groupPriorities := written.value.text, group := written.value.group))
  }

  /** UpdateToken as written, up to the store write. */
  method UpdateToken(req: TokenRequest, statusOnly: string, stored: Option<Token>, now: int, access: Access,
                     setPriorities: PrioritySetter)
    returns (r: Result<Token, TokenError>)
    ensures r == UpdateResult(req, statusOnly, stored, now, access, setPriorities, false)
  {
    if Utf8Length(req.token.name) > MaxTokenNameBytes {
      return Err(NameTooLong);
    }
    if stored.None? {
      return Err(LookupFailed);
    }
    var cleanToken := stored.value;
    if req.token.status == TokenStatusEnabled {
      if cleanToken.status == TokenStatusExpired && cleanToken.expiredTime <= now
         && cleanToken.expiredTime != NeverExpires {
        return Err(ExpiredCannotEnable);
      }
      if cleanToken.status == TokenStatusExhausted && cleanToken.remainQuota <= 0 && !cleanToken.unlimitedQuota {
        return Err(ExhaustedCannotEnable);
      }
    }
    assert UpdateResult(req, statusOnly, stored, now, access, setPriorities, false)
        == if statusOnly != "" then Ok(cleanToken.(status := req.token.status))
           else FullUpdateResult(FullUpdate(cleanToken, req), req, UsableGroups(access), setPriorities, false);
    if statusOnly != "" {
      cleanToken := cleanToken.(status := req.token.status);
    } else {
      cleanToken := CopyEditableFields(cleanToken, req);
      r := UpdatePriorities(cleanToken, req, access, setPriorities);
      return;
    }
    return Ok(cleanToken);
  }

  /** The field-by-field copy of the editable fields from the request, group trimmed. */
  method CopyEditableFields(t: Token, req: TokenRequest) returns (cleanToken: Token)
    ensures cleanToken == FullUpdate(t, req)
  {
    cleanToken := t;
    cleanToken := cleanToken.(name := req.token.name);
    cleanToken := cleanToken.(expiredTime := req.token.expiredTime);
    cleanToken := cleanToken.(remainQuota := req.token.remainQuota);
    cleanToken := cleanToken.(unlimitedQuota := req.token.unlimitedQuota);
    cleanToken := cleanToken.(modelLimitsEnabled := req.token.modelLimitsEnabled);
    cleanToken := cleanToken.(modelLimits := req.token.modelLimits);
    cleanToken := cleanToken.(allowIps := req.token.allowIps);
    cleanToken := cleanToken.(group := GoTrim(req.token.group));
    cleanToken := cleanToken.(autoSmartGroup := req.token.autoSmartGroup);
  }

  /**
   * The group-priority branches of a full update on the updated record:
   * authorize-then-set for a non-empty array, clear and re-authorize the
   * group for an empty group_priorities, and otherwise keep the stored list.
   */
  method UpdatePriorities(updated: Token, req: TokenRequest, access: Access,
                          setPriorities: PrioritySetter)
    returns (r: Result<Token, TokenError>)
    ensures r == FullUpdateResult(updated, req, UsableGroups(access), setPriorities, false)
  {
    var cleanToken := updated;
    if |req.groupPrioritiesArray| > 0 {
      r := AuthorizeThenSetPriorities(cleanToken, req.groupPrioritiesArray, access, setPriorities);
      return;
    } else if req.token.groupPriorities == "" {
      cleanToken := cleanToken.(groupPriorities := "");
      r := AuthorizeOwnGroup(cleanToken, access);
      return;
    }
    return Ok(cleanToken);
  }

  /** UpdateToken with the group of a kept priority list authorized as well. */
  method UpdateTokenChecked(req: TokenRequest, statusOnly: string, stored: Option<Token>, now: int, access: Access,
                            setPriorities: PrioritySetter)
    returns (r: Result<Token, TokenError>)
    ensures r == UpdateResult(req, statusOnly, stored, now, access, setPriorities, true)
  {
    r := UpdateToken(req, statusOnly, stored, now, access, setPriorities);
    CheckedUpdateFromAsWritten(req, statusOnly, stored, now, access, setPriorities);
    if r.Ok? && statusOnly == "" && |req.groupPrioritiesArray| == 0 && req.token.groupPriorities != "" {
      r := AuthorizeOwnGroup(r.value, access);
    }
  }

  /** The corrected update differs from the handler as written only by the extra group check. */
  lemma CheckedUpdateFromAsWritten(req: TokenRequest, statusOnly: string, stored: Option<Token>, now: int,
                                   access: Access, setPriorities: PrioritySetter)
    ensures var asWritten := UpdateResult(req, statusOnly, stored, now, access, setPriorities, false);
      UpdateResult(req, statusOnly, stored, now, access, setPriorities, true)
        == if asWritten.Ok? && statusOnly == "" && req.groupPrioritiesArray == [] && req.token.groupPriorities != ""
              && asWritten.value.group != "" && asWritten.value.group !in UsableGroups(access)
           then Err(Unauthorized(asWritten.value.group))
           else asWritten
  {
    if Utf8Length(req.token.name) <= MaxTokenNameBytes && stored.Some? && statusOnly == "" {
      var t := stored.value;
      if !(req.token.status == TokenStatusEnabled && (ExpiredBlocksEnable(t, now) || ExhaustedBlocksEnable(t))) {
        var u := FullUpdate(t, req);
        assert UpdateResult(req, statusOnly, stored, now, access, setPriorities, false)
            == FullUpdateResult(u, req, UsableGroups(access), setPriorities, false);
        assert UpdateResult(req, statusOnly, stored, now, access, setPriorities, true)
            == FullUpdateResult(u, req, UsableGroups(access), setPriorities, true);
      }
    }
  }

  /** A name over the byte limit is rejected before the lookup and every group rule. */
  lemma UpdateNameLimit(req: TokenRequest, statusOnly: string, stored: Option<Token>, now: int, access: Access,
                        setPriorities: PrioritySetter, checkKeptGroup: bool)
    ensures UpdateResult(req, statusOnly, stored, now, access, setPriorities, checkKeptGroup) == Err(NameTooLong)
        <==> Utf8Length(req.token.name) > MaxTokenNameBytes
  {
    if Utf8Length(req.token.name) <= MaxTokenNameBytes && stored.Some? && statusOnly == "" {
      FullUpdateErrors(FullUpdate(stored.value, req), req, UsableGroups(access), setPriorities, checkKeptGroup);
    }
  }

  /** Enabling is refused exactly for an expired-and-past or an exhausted-and-empty stored token, status-only or not. */
  lemma UpdateEnableGuards(req: TokenRequest, statusOnly: string, t: Token, now: int, access: Access,
                           setPriorities: PrioritySetter, checkKeptGroup: bool)
    requires Utf8Length(req.token.name) <= MaxTokenNameBytes
    ensures var r := UpdateResult(req, statusOnly, Some(t), now, access, setPriorities, checkKeptGroup);
      && (r == Err(ExpiredCannotEnable) <==> req.token.status == TokenStatusEnabled && ExpiredBlocksEnable(t, now))
      && (r == Err(ExhaustedCannotEnable) <==>
            req.token.status == TokenStatusEnabled && !ExpiredBlocksEnable(t, now) && ExhaustedBlocksEnable(t))
  {
    if statusOnly == "" {
      FullUpdateErrors(FullUpdate(t, req), req, UsableGroups(access), setPriorities, checkKeptGroup);
    }
  }

  /** The priority branches of a full update fail only on authorization or on setting the list. */
  lemma FullUpdateErrors(u: Token, req: TokenRequest, usable: set<string>,
                         setPriorities: PrioritySetter, checkKeptGroup: bool)
    ensures var r := FullUpdateResult(u, req, usable, setPriorities, checkKeptGroup);
      r.Err? ==> r.error.Unauthorized? || r.error.SetPrioritiesFailed?
  {
  }

  /** A status-only update that passes the guards changes the status and nothing else. */
  lemma UpdateStatusOnly(req: TokenRequest, statusOnly: string, t: Token, now: int, access: Access,
                         setPriorities: PrioritySetter, checkKeptGroup: bool)
    requires Utf8Length(req.token.name) <= MaxTokenNameBytes && statusOnly != ""
    requires !(req.token.status == TokenStatusEnabled && (ExpiredBlocksEnable(t, now) || ExhaustedBlocksEnable(t)))
    ensures var r := UpdateResult(req, statusOnly, Some(t), now, access, setPriorities, checkKeptGroup);
      r.Ok? && r.value.status == req.token.status && r.value.(status := t.status) == t
  {
  }

  /**
   * A full update without an array clears the stored list and re-authorizes
   * the group when group_priorities is empty, and otherwise keeps the stored
   * list; it never changes the status.
   */
  lemma UpdateWithoutArray(req: TokenRequest, t: Token, now: int, access: Access,
                           setPriorities: PrioritySetter)
    requires Utf8Length(req.token.name) <= MaxTokenNameBytes && req.groupPrioritiesArray == []
    requires !(req.token.status == TokenStatusEnabled && (ExpiredBlocksEnable(t, now) || ExhaustedBlocksEnable(t)))
    ensures var r := UpdateResult(req, "", Some(t), now, access, setPriorities, false);
      var group := GoTrim(req.token.group);
      && (req.token.groupPriorities == "" ==>
            if group != "" && group !in UsableGroups(access) then r == Err(Unauthorized(group))
            else r.Ok? && r.value.groupPriorities == "" && r.value.group == group)
      && (req.token.groupPriorities != "" ==>
            r.Ok? && r.value.groupPriorities == t.groupPriorities && r.value.group == group)
      && (r.Ok? ==> r.value.status == t.status)
  {
  }

  /** A full update with an array authorizes the collected groups before it sets the list. */
  lemma UpdateWithArray(req: TokenRequest, t: Token, now: int, access: Access,
                        setPriorities: PrioritySetter, checkKeptGroup: bool)
    requires Utf8Length(req.token.name) <= MaxTokenNameBytes && req.groupPrioritiesArray != []
    requires !(req.token.status == TokenStatusEnabled && (ExpiredBlocksEnable(t, now) || ExhaustedBlocksEnable(t)))
    ensures UpdateResult(req, "", Some(t), now, access, setPriorities, checkKeptGroup)
         == ArrayResult(FullUpdate(t, req), req.groupPrioritiesArray, UsableGroups(access), setPriorities)
  {
  }

  /**
   * The array branch succeeds exactly when every collected group is usable
   * and SetGroupPriorities succeeds; the first unusable group is reported
   * before SetGroupPriorities is consulted, and a set failure is wrapped.
   */
  lemma ArrayBranch(u: Token, priorities: seq<GroupPriority>, usable: set<string>,
                    setPriorities: PrioritySetter)
    ensures var r := ArrayResult(u, priorities, usable, setPriorities);
      var groups := Lists.KeepFirst(TrimmedGroups(priorities));
      var written := setPriorities(priorities);
      && (r.Ok? <==> (forall g | g in groups :: g in usable) && written.Ok?)
      && (r.Ok? ==> SameButGroups(r.value, u) && Written(r.value.groupPriorities, r.value.group) == written.value)
      && (!(forall g | g in groups :: g in usable) ==>
            r.Err? && r.error.Unauthorized? && r.error.group in groups && r.error.group !in usable)
      && ((forall g | g in groups :: g in usable) && written.Err? ==> r == Err(SetPrioritiesFailed(written.error)))
  {
    var r := ArrayResult(u, priorities, usable, setPriorities);
    var groups := Lists.KeepFirst(TrimmedGroups(priorities));
    var k := FirstUnauthorized(groups, usable);
    if k < |groups| {
      assert groups[k] in groups;
      assert r == Err(Unauthorized(groups[k]));
    } else {
      forall g | g in groups ensures g in usable {
        var i :| 0 <= i < |groups| && groups[i] == g;
      }
    }
  }

  /**
   * Every group a successful full update writes is usable: the collected
   * groups of the array and the primary group synced from it, or the single
   * group when no array is given.
   */
  predicate WritesUsableGroups(req: TokenRequest, statusOnly: string, usable: set<string>, u: Token) {
    statusOnly == "" ==>
      && (req.groupPrioritiesArray != [] ==>
            && (forall g | g in Lists.KeepFirst(TrimmedGroups(req.groupPrioritiesArray)) :: g in usable)
            && IsPrimaryGroup(req.groupPrioritiesArray, u.group) && u.group in usable)
      && (req.groupPrioritiesArray == [] ==> u.group == "" || u.group in usable)
  }

  /** The corrected update writes only usable groups, given the codec's promise about `Group`. */
  lemma CheckedUpdateWritesUsableGroups(req: TokenRequest, statusOnly: string, stored: Option<Token>, now: int,
                                        access: Access, setPriorities: PrioritySetter)
    requires SyncsPrimaryGroup(setPriorities)
    ensures var r := UpdateResult(req, statusOnly, stored, now, access, setPriorities, true);
      r.Ok? ==> WritesUsableGroups(req, statusOnly, UsableGroups(access), r.value)
  {
    if Utf8Length(req.token.name) <= MaxTokenNameBytes && stored.Some? && statusOnly == "" {
      var t := stored.value;
      if !(req.token.status == TokenStatusEnabled && (ExpiredBlocksEnable(t, now) || ExhaustedBlocksEnable(t))) {
        var u := FullUpdate(t, req);
        assert UpdateResult(req, statusOnly, stored, now, access, setPriorities, true)
            == FullUpdateResult(u, req, UsableGroups(access), setPriorities, true);
        FullUpdateWritesUsable(u, req, UsableGroups(access), setPriorities);
      }
    }
  }

  /** The checked priority branches write only usable groups. */
  lemma FullUpdateWritesUsable(u: Token, req: TokenRequest, usable: set<string>,
                               setPriorities: PrioritySetter)
    requires SyncsPrimaryGroup(setPriorities)
    ensures var r := FullUpdateResult(u, req, usable, setPriorities, true);
      r.Ok? ==> WritesUsableGroups(req, "", usable, r.value)
  {
    if req.groupPrioritiesArray != [] {
      ArrayResultUsable(u, req.groupPrioritiesArray, usable, setPriorities);
      ArrayResultSyncsGroup(u, req.groupPrioritiesArray, usable, setPriorities);
    }
  }

  /** A successful array branch has authorized every collected group. */
  lemma ArrayResultUsable(u: Token, priorities: seq<GroupPriority>, usable: set<string>,
                          setPriorities: PrioritySetter)
    ensures ArrayResult(u, priorities, usable, setPriorities).Ok? ==>
      forall g | g in Lists.KeepFirst(TrimmedGroups(priorities)) :: g in usable
  {
    var groups := Lists.KeepFirst(TrimmedGroups(priorities));
    if ArrayResult(u, priorities, usable, setPriorities).Ok? {
      var k := FirstUnauthorized(groups, usable);
      forall g | g in groups ensures g in usable {
        var i :| 0 <= i < |groups| && groups[i] == g;
      }
    }
  }

  /**
   * As written, a user whose usable groups are {"default"} can move a token
   * to group "vip" by sending a non-empty group_priorities string and no array.
   */
  lemma UpdateKeepsUnauthorizedGroup(t: Token, setPriorities: PrioritySetter)
    requires t.status == TokenStatusEnabled
    ensures var access := DefaultOnlyUser;
      var req := TokenRequest(t.(name := "n", group := "vip", groupPriorities := "x"), []);
      var r := UpdateResult(req, "", Some(t), 0, access, setPriorities, false);
      r.Ok? && r.value.group == "vip" && !WritesUsableGroups(req, "", UsableGroups(access), r.value)
  {
    var access := DefaultOnlyUser;
    var req := TokenRequest(t.(name := "n", group := "vip", groupPriorities := "x"), []);
    WitnessRequest(t);
    UpdateWritesUnusableGroup(req, t, 0, access, setPriorities);
  }

  /**
   * A full update that passes the name and enable guards, has no array and a
   * non-empty group_priorities string, and names a non-empty unusable group.
   */
  predicate KeepsUnusableGroup(req: TokenRequest, t: Token, now: int, access: Access) {
    && Utf8Length(req.token.name) <= MaxTokenNameBytes && req.groupPrioritiesArray == []
    && !(req.token.status == TokenStatusEnabled && (ExpiredBlocksEnable(t, now) || ExhaustedBlocksEnable(t)))
    && req.token.groupPriorities != ""
    && GoTrim(req.token.group) != "" && GoTrim(req.token.group) !in UsableGroups(access)
  }

  /** The request of UpdateKeepsUnauthorizedGroup is such an update, to group "vip". */
  lemma WitnessRequest(t: Token)
    requires t.status == TokenStatusEnabled
    ensures var access := DefaultOnlyUser;
      var req := TokenRequest(t.(name := "n", group := "vip", groupPriorities := "x"), []);
      KeepsUnusableGroup(req, t, 0, access) && GoTrim(req.token.group) == "vip"
  {
    assert !ExpiredBlocksEnable(t, 0) && !ExhaustedBlocksEnable(t);
    WitnessStrings();
  }

  /** A user in group "default" whose only usable group is "default". */
  const DefaultOnlyUser: Access := Access("default", "", (g: string) => {"default"})

  /** The name "n" fits the limit, and "vip" is trimmed and unusable for a "default" user. */
  lemma WitnessStrings()
    ensures Utf8Length("n") <= MaxTokenNameBytes
    ensures GoTrim("vip") == "vip" && GoTrim("default") == "default"
    ensures "vip" !in UsableGroups(DefaultOnlyUser) && "default" in UsableGroups(DefaultOnlyUser)
  {
    var access := DefaultOnlyUser;
    assert UsableGroups(access) == {"default"};
    assert IsTrimmed("vip", IsGoSpace);
    assert IsTrimmed("default", IsGoSpace);
    assert Utf8Length("n") == 1;
  }

  /**
   * As written, a full update without an array and with a non-empty
   * group_priorities string writes the trimmed group even when it is unusable.
   */
  lemma UpdateWritesUnusableGroup(req: TokenRequest, t: Token, now: int, access: Access,
                                  setPriorities: PrioritySetter)
    requires KeepsUnusableGroup(req, t, now, access)
    ensures var r := UpdateResult(req, "", Some(t), now, access, setPriorities, false);
      r.Ok? && r.value.group == GoTrim(req.token.group) && !WritesUsableGroups(req, "", UsableGroups(access), r.value)
  {
    UpdateWithoutArray(req, t, now, access, setPriorities);
  }

  /** expires_at: "never expires" (-1) is reported as 0. */
  function ExpiresAt(expiredTime: int): (r: int)
    ensures expiredTime == NeverExpires ==> r == 0
    ensures expiredTime != NeverExpires ==> r == expiredTime
  {
    if expiredTime == NeverExpires then 0 else expiredTime
  }

  const TwoTo63: int := 0x8000_0000_0000_0000
  const TwoTo64: int := 0x1_0000_0000_0000_0000

  /** Go int64 arithmetic: the result wraps modulo 2^64 into [-2^63, 2^63). */
  function WrapInt64(x: int): (r: int)
    ensures -TwoTo63 <= r < TwoTo63
    ensures (x - r) % TwoTo64 == 0
    ensures -TwoTo63 <= x < TwoTo63 ==> r == x
  {
    var m := x % TwoTo64;
    if m >= TwoTo63 then m - TwoTo64 else m
  }

  /** The GetTokenStatus body ("credit_summary"). */
  datatype CreditSummary = CreditSummary(totalGranted: int, totalUsed: int, totalAvailable: int, expiresAt: int)

  /** The data of the GetTokenUsage body ("token_usage"); model_limits is not part of this model. */
  datatype TokenUsage = TokenUsage(name: string, totalGranted: int, totalUsed: int, totalAvailable: int,
                                   unlimitedQuota: bool, modelLimitsEnabled: bool, expiresAt: int)

  function CreditSummaryOf(t: Token): (s: CreditSummary)
    ensures s.totalGranted == s.totalAvailable == t.remainQuota && s.totalUsed == 0
  {
    CreditSummary(t.remainQuota, 0, t.remainQuota, WrapInt64(ExpiresAt(t.expiredTime) * 1000))
  }

  function TokenUsageOf(t: Token): (u: TokenUsage)
    ensures u.totalUsed == t.usedQuota && u.totalAvailable == t.remainQuota && u.name == t.name
  {
    TokenUsage(t.name, WrapInt64(t.remainQuota + t.usedQuota), t.usedQuota, t.remainQuota,
               t.unlimitedQuota, t.modelLimitsEnabled, ExpiresAt(t.expiredTime))
  }

  /**
   * The two endpoints agree: the credit summary reports the usage endpoint's
   * expiry in milliseconds, and without overflow granted is used plus available.
   */
  lemma EndpointsAgree(t: Token)
    requires -TwoTo63 <= t.remainQuota + t.usedQuota < TwoTo63
    requires -TwoTo63 <= t.expiredTime * 1000 < TwoTo63
    ensures CreditSummaryOf(t).expiresAt == TokenUsageOf(t).expiresAt * 1000
    ensures TokenUsageOf(t).totalGranted == TokenUsageOf(t).totalUsed + TokenUsageOf(t).totalAvailable
    ensures t.expiredTime == NeverExpires ==> CreditSummaryOf(t).expiresAt == 0 && TokenUsageOf(t).expiresAt == 0
  {
  }

  datatype UsageError = NoAuthorizationHeader | InvalidBearer

  /** The scheme check: ASCII-lower-cased, the first part must read "bearer". */
  predicate IsBearerScheme(s: string) {
    AsciiLower(s) == "bearer"
  }

  /**
   * The Authorization header of GetTokenUsage: it must split on " " into
   * exactly two parts whose first is "bearer" in any case; the lookup key
   * is the second part without one leading "sk-".
   */
  function ParseBearer(header: string): (r: Result<string, UsageError>)
    ensures header == "" ==> r == Err(NoAuthorizationHeader)
    ensures r.Ok? <==> header != "" && multiset(header)[' '] == 1 && IsBearerScheme(Split(header, ' ')[0])
    ensures r.Ok? ==> ' ' !in r.value && (r.value == Split(header, ' ')[1] || "sk-" + r.value == Split(header, ' ')[1])
  {
    if header == "" then Err(NoAuthorizationHeader)
    else
      var parts := Split(header, ' ');
      if |parts| != 2 || !IsBearerScheme(parts[0]) then Err(InvalidBearer)
      else
        var key := TrimPrefix(parts[1], "sk-");
        assert ' ' !in key by {
          if HasPrefix(parts[1], "sk-") {
            assert key == parts[1][3..];
          }
        }
        Ok(key)
  }

  /** A bearer scheme has no space in it. */
  lemma SchemeHasNoSpace(scheme: string)
    requires IsBearerScheme(scheme)
    ensures ' ' !in scheme
  {
  }

  /** "<scheme> <credential>" with a bearer scheme and a space-free credential is accepted. */
  lemma BearerAccepted(scheme: string, credential: string)
    requires IsBearerScheme(scheme) && ' ' !in credential
    ensures ParseBearer(scheme + " " + credential) == Ok(TrimPrefix(credential, "sk-"))
  {
    SchemeHasNoSpace(scheme);
    assert scheme + " " + credential == scheme + [' '] + credential;
    SplitAfterFirst(scheme, ' ', credential);
    SplitNone(credential, ' ');
  }

  /** A "Bearer sk-<key>" header in any case of the scheme yields <key>, with or without the "sk-". */
  lemma BearerRoundTrip(scheme: string, key: string)
    requires IsBearerScheme(scheme) && ' ' !in key && !HasPrefix(key, "sk-")
    ensures ParseBearer(scheme + " " + "sk-" + key) == Ok(key)
    ensures ParseBearer(scheme + " " + key) == Ok(key)
  {
    BearerAccepted(scheme, "sk-" + key);
    assert scheme + " " + "sk-" + key == scheme + " " + ("sk-" + key);
    assert ("sk-" + key)[3..] == key;
    BearerAccepted(scheme, key);
  }
}
