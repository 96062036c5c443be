// What the commands of one reply report (internal/command/notice.go): pairing removals with
// additions, and grouping the rest into one message.
module Notices {
  import opened Prelude
  import opened Strings

  datatype Change = Added | Removed | Changed | Updated

  datatype Notice = Notice(icon: string, kind: string, change: Change, item: string)

  // ---- Pairing -----------------------------------------------------------------------

  predicate Is(n: Notice, kind: string, change: Change) {
    n.kind == kind && n.change == change
  }

  /** Where the notices of this kind and change stand, in order. */
  function Places(ns: seq<Notice>, kind: string, change: Change): (r: seq<nat>)
    ensures |r| <= |ns|
  {
    if ns == [] then []
    else
      var n := |ns| - 1;
      Places(ns[..n], kind, change) + if Is(ns[n], kind, change) then [n] else []
  }

  /** How many notices of the same kind and change come before the i-th. */
  function Rank(ns: seq<Notice>, i: nat): nat
    requires i < |ns|
  {
    |Places(ns[..i], ns[i].kind, ns[i].change)|
  }

  function Min(a: nat, b: nat): nat { if a <= b then a else b }

  function Pairs(ns: seq<Notice>, kind: string): nat {
    Min(|Places(ns, kind, Removed)|, |Places(ns, kind, Added)|)
  }

  /** The k-th addition of a kind becomes an update and the k-th removal goes away, for every
      k below the smaller count; everything else stays. */
  function Outcome(ns: seq<Notice>, i: nat): Option<Notice>
    requires i < |ns|
  {
    var n := ns[i];
    if (n.change == Removed || n.change == Added) && Rank(ns, i) < Pairs(ns, n.kind)
    then if n.change == Removed then None else Some(n.(change := Updated))
    else Some(n)
  }

  /** The k-th place is the one with k before it. */
  lemma {:induction false} PlaceHasRank(ns: seq<Notice>, kind: string, change: Change, k: nat)
    requires k < |Places(ns, kind, change)|
    ensures var i := Places(ns, kind, change)[k]; i < |ns| && Is(ns[i], kind, change) && Rank(ns, i) == k
  {
    var n := |ns| - 1;
    var front := Places(ns[..n], kind, change);
    if k < |front| {
      PlaceHasRank(ns[..n], kind, change, k);
      assert ns[..n][..front[k]] == ns[..front[k]];
    }
  }

  lemma {:induction false} RankHasPlace(ns: seq<Notice>, i: nat)
    requires i < |ns|
    ensures var places := Places(ns, ns[i].kind, ns[i].change); Rank(ns, i) < |places| && places[Rank(ns, i)] == i
  {
    var n := |ns| - 1;
    if i < n {
      RankHasPlace(ns[..n], i);
      assert ns[..n][..i] == ns[..i];
    }
  }

  /** No kind is reported as both added and removed: whatever could be paired was. */
  lemma NoKindKeepsBoth(ns: seq<Notice>, i: nat, j: nat)
    requires i < |ns| && j < |ns| && ns[i].kind == ns[j].kind
    ensures var one, other := Outcome(ns, i), Outcome(ns, j);
            one.Some? && one.value.change == Removed && other.Some? ==> other.value.change != Added
  {
    RankHasPlace(ns, i);
    RankHasPlace(ns, j);
  }

  /** While kind by kind is paired: which notices have had their turn. */
  predicate Paired(ns: seq<Notice>, i: nat, done: set<string>, kind: string, pairs: nat)
    requires i < |ns|
  {
    ns[i].kind in done || (ns[i].kind == kind && (ns[i].change == Removed || ns[i].change == Added) && Rank(ns, i) < pairs)
  }

  ghost predicate Partly(ns: seq<Notice>, now: seq<Option<Notice>>, done: set<string>, kind: string, pairs: nat) {
    && |now| == |ns|
    && forall i | 0 <= i < |ns| :: now[i] == if Paired(ns, i, done, kind, pairs) then Outcome(ns, i) else Some(ns[i])
  }

  lemma OnePairMore(ns: seq<Notice>, now: seq<Option<Notice>>, done: set<string>, kind: string, k: nat)
    requires Partly(ns, now, done, kind, k) && k < Pairs(ns, kind) && kind !in done
    ensures var r, a := Places(ns, kind, Removed)[k], Places(ns, kind, Added)[k];
            && r < |ns| && a < |ns| && r != a && now[a] == Some(ns[a])
            && Partly(ns, now[a := Some(ns[a].(change := Updated))][r := None], done, kind, k + 1)
  {
    PlaceHasRank(ns, kind, Removed, k);
    PlaceHasRank(ns, kind, Added, k);
    var r, a := Places(ns, kind, Removed)[k], Places(ns, kind, Added)[k];
    var next := now[a := Some(ns[a].(change := Updated))][r := None];
    forall i | 0 <= i < |ns| ensures next[i] == if Paired(ns, i, done, kind, k + 1) then Outcome(ns, i) else Some(ns[i]) {
      RankHasPlace(ns, i);
      if i != r && i != a && ns[i].kind == kind && (ns[i].change == Removed || ns[i].change == Added) {
        assert Rank(ns, i) != k;
      }
    }
  }

  lemma KindIsDone(ns: seq<Notice>, now: seq<Option<Notice>>, done: set<string>, kind: string)
    requires Partly(ns, now, done, kind, Pairs(ns, kind)) && kind !in done
    ensures forall other :: Partly(ns, now, done + {kind}, other, 0)
  {
    forall i, other | 0 <= i < |ns|
      ensures now[i] == if Paired(ns, i, done + {kind}, other, 0) then Outcome(ns, i) else Some(ns[i])
    {
    }
  }

  /** The places noted for every kind are where its notices of this change stand. */
  ghost predicate Noted(places: map<string, seq<nat>>, ns: seq<Notice>, change: Change) {
    forall kind :: Listed(places, kind) == Places(ns, kind, change)
  }

  function NoteIf(places: map<string, seq<nat>>, notice: Notice, index: nat, change: Change): map<string, seq<nat>> {
    if notice.change == change then places[notice.kind := Listed(places, notice.kind) + [index]] else places
  }

  lemma NotedMore(places: map<string, seq<nat>>, ns: seq<Notice>, index: nat, change: Change)
    requires index < |ns| && Noted(places, ns[..index], change)
    ensures Noted(NoteIf(places, ns[index], index, change), ns[..index + 1], change)
  {
    var next := NoteIf(places, ns[index], index, change);
    assert ns[..index + 1][..index] == ns[..index];
    forall kind ensures Listed(next, kind) == Places(ns[..index + 1], kind, change) {
      assert Listed(places, kind) == Places(ns[..index], kind, change);
    }
  }

  /** The first loop of pairUpdates. */
  method CollectPlaces(notices: array<Option<Notice>>, ghost ns: seq<Notice>)
    returns (removals: map<string, seq<nat>>, additions: map<string, seq<nat>>)
    requires notices.Length == |ns| && forall i | 0 <= i < |ns| :: notices[i] == Some(ns[i])
    ensures Noted(removals, ns, Removed) && Noted(additions, ns, Added)
  {
    removals, additions := map[], map[];
    for index := 0 to notices.Length
      invariant Noted(removals, ns[..index], Removed) && Noted(additions, ns[..index], Added)
    {
      hide Noted, Places, Listed;
      var notice := notices[index].value;
      NotedMore(removals, ns, index, Removed);
      NotedMore(additions, ns, index, Added);
      if notice.change == Removed {
        removals := removals[notice.kind := Listed(removals, notice.kind) + [index]];
      } else if notice.change == Added {
        additions := additions[notice.kind := Listed(additions, notice.kind) + [index]];
      }
    }
    assert ns[..|ns|] == ns;
  }

  /** pairUpdates, in place, whatever order the kinds come in. */
  method PairUpdates(notices: array<Option<Notice>>, ghost ns: seq<Notice>)
    requires notices.Length == |ns| && forall i | 0 <= i < |ns| :: notices[i] == Some(ns[i])
    modifies notices
    ensures forall i | 0 <= i < |ns| :: notices[i] == Outcome(ns, i)
  {
    var removals, additions := CollectPlaces(notices, ns);
    var left := removals.Keys;
    ghost var done: set<string> := {};
    while left != {}
      invariant left !! done && left + done == removals.Keys
      invariant forall kind :: Partly(ns, notices[..], done, kind, 0)
      decreases |left|
    {
      hide Partly;
      var kind :| kind in left;
      left := left - {kind};
      PairKind(notices, Listed(removals, kind), Listed(additions, kind), ns, kind, done);
      KindIsDone(ns, notices[..], done, kind);
      done := done + {kind};
    }
    forall i | 0 <= i < |ns| ensures notices[i] == Outcome(ns, i) {
      RankHasPlace(ns, i);
      assert Partly(ns, notices[..], done, ns[i].kind, 0);
      if ns[i].kind !in done {
        assert Listed(removals, ns[i].kind) == [];
      }
    }
  }

  /** The places noted for a kind; none if it was not seen. */
  function Listed(places: map<string, seq<nat>>, kind: string): seq<nat> {
    if kind in places then places[kind] else []
  }

  /** The inner loop of pairUpdates. */
  method PairKind(notices: array<Option<Notice>>, removed: seq<nat>, added: seq<nat>, ghost ns: seq<Notice>, ghost kind: string, ghost done: set<string>)
    requires removed == Places(ns, kind, Removed) && added == Places(ns, kind, Added) && kind !in done
    requires Partly(ns, notices[..], done, kind, 0)
    modifies notices
    ensures Partly(ns, notices[..], done, kind, Pairs(ns, kind))
  {
    var pair := 0;
    while pair < |removed| && pair < |added|
      invariant 0 <= pair <= Pairs(ns, kind) && Partly(ns, notices[..], done, kind, pair)
    {
      OnePairMore(ns, notices[..], done, kind, pair);
      notices[added[pair]] := Some(notices[added[pair]].value.(change := Updated));
      notices[removed[pair]] := None;
      pair := pair + 1;
    }
  }

  function Survivors(ns: seq<Notice>, i: nat): seq<Notice>
    requires i <= |ns|
  {
    if i == 0 then []
    else Survivors(ns, i - 1) + if Outcome(ns, i - 1).Some? then [Outcome(ns, i - 1).value] else []
  }

  // ---- Grouping --------------------------------------------------------------------------

  /** Notices under one heading, or the one notice of a changed setting. */
  datatype Group = Group(icon: string, heading: Option<(string, Change)>, items: seq<string>)

  function KeyOf(n: Notice): Option<(string, Change)> {
    if n.change == Changed then None else Some((n.kind, n.change))
  }

  /** The group with this heading, or the number of groups. */
  function GroupAt(groups: seq<Group>, heading: (string, Change), i: nat): (j: nat)
    requires i <= |groups|
    ensures i <= j <= |groups| && (j < |groups| ==> groups[j].heading == Some(heading))
    ensures forall k | i <= k < j :: groups[k].heading != Some(heading)
    decreases |groups| - i
  {
    if i == |groups| || groups[i].heading == Some(heading) then i else GroupAt(groups, heading, i + 1)
  }

  function AddTo(groups: seq<Group>, n: Notice): seq<Group> {
    match KeyOf(n)
    case None => groups + [Group(n.icon, None, [n.item])]
    case Some(heading) =>
      var j := GroupAt(groups, heading, 0);
      if j < |groups| then groups[j := groups[j].(items := groups[j].items + [n.item])]
      else groups + [Group(n.icon, Some(heading), [n.item])]
  }

  function Groups(ns: seq<Notice>): seq<Group> {
    if ns == [] then [] else AddTo(Groups(ns[..|ns| - 1]), ns[|ns| - 1])
  }

  /** The items reported under this heading, in order. */
  function ItemsOf(ns: seq<Notice>, key: Option<(string, Change)>): seq<string> {
    if ns == [] then []
    else
      var last := ns[|ns| - 1];
      ItemsOf(ns[..|ns| - 1], key) + if KeyOf(last) == key then [last.item] else []
  }

  /** The headings in the order of their first notice; a changed setting stands for itself. */
  function Headings(ns: seq<Notice>): seq<Option<(string, Change)>> {
    if ns == [] then []
    else
      var before, key := Headings(ns[..|ns| - 1]), KeyOf(ns[|ns| - 1]);
      if key.Some? && key in before then before else before + [key]
  }

  function HeadingsOf(groups: seq<Group>): (r: seq<Option<(string, Change)>>)
    ensures |r| == |groups| && forall k | 0 <= k < |groups| :: r[k] == groups[k].heading
  {
    seq(|groups|, i requires 0 <= i < |groups| => groups[i].heading)
  }

  /** Items of the settings that changed, one group each, in order. */
  function SettingItems(groups: seq<Group>): seq<string> {
    if groups == [] then []
    else
      var last := groups[|groups| - 1];
      SettingItems(groups[..|groups| - 1]) + if last.heading == None then last.items else []
  }

  /** Every surviving notice is listed once: under its heading, in the order reported, with the
      headings in the order they first appeared. */
  ghost predicate Grouped(ns: seq<Notice>, groups: seq<Group>) {
    && HeadingsOf(groups) == Headings(ns)
    && (forall i, j | 0 <= i < j < |groups| && groups[i].heading.Some? :: groups[i].heading != groups[j].heading)
    && (forall i | 0 <= i < |groups| && groups[i].heading.Some? :: groups[i].items == ItemsOf(ns, groups[i].heading))
    && SettingItems(groups) == ItemsOf(ns, None)
    && (forall n | n in ns :: KeyOf(n).Some? ==> KeyOf(n) in HeadingsOf(groups))
  }

  lemma {:induction false} NothingUnderNewHeading(ns: seq<Notice>, key: Option<(string, Change)>)
    requires forall n | n in ns :: KeyOf(n) != key
    ensures ItemsOf(ns, key) == []
  {
    if ns != [] {
      assert ns[|ns| - 1] in ns;
      NothingUnderNewHeading(ns[..|ns| - 1], key);
    }
  }

  lemma {:induction false} SettingsUnchanged(groups: seq<Group>, j: nat, g: Group)
    requires j < |groups| && groups[j].heading.Some? && g.heading.Some?
    ensures SettingItems(groups[j := g]) == SettingItems(groups)
  {
    var n := |groups| - 1;
    if j < n {
      SettingsUnchanged(groups[..n], j, g);
      assert groups[j := g][..n] == groups[..n][j := g];
    } else {
      assert groups[j := g][..n] == groups[..n];
    }
  }

  lemma {:induction false} GroupsAreGrouped(ns: seq<Notice>)
    ensures Grouped(ns, Groups(ns))
  {
    if ns != [] {
      var n := |ns| - 1;
      GroupsAreGrouped(ns[..n]);
      assert ns == ns[..n] + [ns[n]];
      GroupedMore(ns[..n], Groups(ns[..n]), ns[n]);
    }
  }

  lemma GroupedMore(ns: seq<Notice>, groups: seq<Group>, n: Notice)
    requires Grouped(ns, groups)
    ensures Grouped(ns + [n], AddTo(groups, n))
  {
    match KeyOf(n)
    case None => SettingGrouped(ns, groups, n);
    case Some(heading) =>
      if GroupAt(groups, heading, 0) < |groups| {
        JoinGrouped(ns, groups, n, heading, GroupAt(groups, heading, 0));
      } else {
        NewGrouped(ns, groups, n, heading);
      }
  }

  lemma OneMore(ns: seq<Notice>, n: Notice)
    ensures forall key :: ItemsOf(ns + [n], key) == ItemsOf(ns, key) + if KeyOf(n) == key then [n.item] else []
    ensures Headings(ns + [n]) == if KeyOf(n).Some? && KeyOf(n) in Headings(ns) then Headings(ns) else Headings(ns) + [KeyOf(n)]
  {
    assert (ns + [n])[..|ns|] == ns;
  }

  lemma OneGroupMore(groups: seq<Group>, g: Group)
    ensures HeadingsOf(groups + [g]) == HeadingsOf(groups) + [g.heading]
    ensures SettingItems(groups + [g]) == SettingItems(groups) + if g.heading == None then g.items else []
  {
    assert (groups + [g])[..|groups|] == groups;
  }

  lemma SettingGrouped(ns: seq<Notice>, groups: seq<Group>, n: Notice)
    requires Grouped(ns, groups) && KeyOf(n) == None
    ensures Grouped(ns + [n], groups + [Group(n.icon, None, [n.item])])
  {
    OneMore(ns, n);
    OneGroupMore(groups, Group(n.icon, None, [n.item]));
    hide ItemsOf, Headings, SettingItems, KeyOf, HeadingsOf;
  }

  lemma HeadingIsNew(ns: seq<Notice>, groups: seq<Group>, heading: (string, Change))
    requires Grouped(ns, groups) && forall k | 0 <= k < |groups| :: groups[k].heading != Some(heading)
    ensures Some(heading) !in HeadingsOf(groups) && ItemsOf(ns, Some(heading)) == []
  {
    hide KeyOf, Headings, ItemsOf, SettingItems;
    assert forall k | 0 <= k < |groups| :: HeadingsOf(groups)[k] != Some(heading);
    NothingUnderNewHeading(ns, Some(heading));
  }

  lemma NewGrouped(ns: seq<Notice>, groups: seq<Group>, n: Notice, heading: (string, Change))
    requires Grouped(ns, groups) && KeyOf(n) == Some(heading) && forall k | 0 <= k < |groups| :: groups[k].heading != Some(heading)
    ensures Grouped(ns + [n], groups + [Group(n.icon, Some(heading), [n.item])])
  {
    HeadingIsNew(ns, groups, heading);
    OneMore(ns, n);
    OneGroupMore(groups, Group(n.icon, Some(heading), [n.item]));
    hide ItemsOf, Headings, SettingItems, KeyOf, HeadingsOf;
  }

  lemma JoinGrouped(ns: seq<Notice>, groups: seq<Group>, n: Notice, heading: (string, Change), j: nat)
    requires Grouped(ns, groups) && KeyOf(n) == Some(heading) && j < |groups| && groups[j].heading == Some(heading)
    ensures Grouped(ns + [n], groups[j := groups[j].(items := groups[j].items + [n.item])])
  {
    var next := groups[j := groups[j].(items := groups[j].items + [n.item])];
    assert HeadingsOf(groups)[j] == Some(heading);
    assert HeadingsOf(next) == HeadingsOf(groups);
    SettingsUnchanged(groups, j, next[j]);
    OneMore(ns, n);
    hide ItemsOf, Headings, SettingItems, KeyOf, HeadingsOf;
  }

  // ---- The message ---------------------------------------------------------------------------

  /** What one command reported: a change, or plain reply text. */
  datatype Entry = Report(notice: Notice) | Plain(text: string)

  function Verb(change: Change): string {
    match change
    case Added => "added"
    case Removed => "removed"
    case Updated => "updated"
    case Changed => "changed"
  }

  function Key(kind: string, change: Change): string { kind + "\0" + Verb(change) }

  /** Two headings never share a key, whatever the kinds contain. */
  lemma KeysAreDistinct(kind: string, change: Change, kind': string, change': Change)
    requires Key(kind, change) == Key(kind', change')
    ensures kind == kind' && change == change'
  {
    LastSeparator(kind, Verb(change), kind', Verb(change'));
    assert Verb(change)[0] == Verb(change')[0];
  }

  lemma LastSeparator(a: string, b: string, a': string, b': string)
    requires a + "\0" + b == a' + "\0" + b' && '\0' !in b && '\0' !in b'
    ensures a == a' && b == b'
  {
    var whole := a + "\0" + b;
    assert whole[|a|] == '\0' && whole[|a'|] == '\0';
    assert forall i | |a| < i < |whole| :: whole[i] == b[i - |a| - 1];
    assert forall i | |a'| < i < |whole| :: whole[i] == b'[i - |a'| - 1];
    assert whole[..|a|] == a && whole[..|a'|] == a';
    assert whole[|a| + 1..] == b && whole[|a'| + 1..] == b';
  }

  function Join(parts: seq<string>, separator: string): string {
    if parts == [] then ""
    else if |parts| == 1 then parts[0]
    else Join(parts[..|parts| - 1], separator) + separator + parts[|parts| - 1]
  }

  function Line(group: Group): string
    requires group.items != []
  {
    match group.heading
    case None => Trim(group.icon + " " + group.items[0])
    case Some(heading) =>
      var prefix := Trim(group.icon + " " + heading.0 + " " + Verb(heading.1));
      if |group.items| == 1 then prefix + ": " + group.items[0]
      else prefix + ":\n\U{2022} " + Join(group.items, "\n\U{2022} ")
  }

  predicate AllHaveItems(groups: seq<Group>) { forall g | g in groups :: g.items != [] }

  function Lines(groups: seq<Group>): (r: seq<string>)
    requires AllHaveItems(groups)
    ensures |r| == |groups|
  {
    seq(|groups|, i requires 0 <= i < |groups| => Line(groups[i]))
  }

  function Reported(entries: seq<Entry>): seq<Notice> {
    if entries == [] then []
    else
      var last := entries[|entries| - 1];
      Reported(entries[..|entries| - 1]) + if last.Report? then [last.notice] else []
  }

  function Texts(entries: seq<Entry>): seq<string> {
    if entries == [] then []
    else
      var last := entries[|entries| - 1];
      Texts(entries[..|entries| - 1]) + if last.Plain? && Trim(last.text) != "" then [Trim(last.text)] else []
  }

  lemma {:induction false} GroupsHaveItems(ns: seq<Notice>)
    ensures AllHaveItems(Groups(ns))
  {
    if ns != [] {
      GroupsHaveItems(ns[..|ns| - 1]);
    }
  }

  /** Every key leads to the group with its heading. */
  ghost predicate Indexed(byKey: map<string, nat>, groups: seq<Group>) {
    forall kind, change :: change != Changed ==>
      var j := GroupAt(groups, (kind, change), 0);
      (Key(kind, change) in byKey <==> j < |groups|) && (Key(kind, change) in byKey ==> byKey[Key(kind, change)] == j)
  }

  lemma FirstGroup(groups: seq<Group>, heading: (string, Change), j: nat)
    requires j <= |groups| && (j < |groups| ==> groups[j].heading == Some(heading))
    requires forall k | 0 <= k < j :: groups[k].heading != Some(heading)
    ensures GroupAt(groups, heading, 0) == j
  {
  }

  lemma IndexedJoin(byKey: map<string, nat>, groups: seq<Group>, j: nat, g: Group)
    requires Indexed(byKey, groups) && j < |groups| && g.heading == groups[j].heading
    ensures Indexed(byKey, groups[j := g])
  {
    forall kind, change | change != Changed
      ensures GroupAt(groups[j := g], (kind, change), 0) == GroupAt(groups, (kind, change), 0)
    {
      FirstGroup(groups[j := g], (kind, change), GroupAt(groups, (kind, change), 0));
    }
  }

  lemma IndexedSetting(byKey: map<string, nat>, groups: seq<Group>, g: Group)
    requires Indexed(byKey, groups) && g.heading == None
    ensures Indexed(byKey, groups + [g])
  {
    forall kind, change | change != Changed
      ensures var j := GroupAt(groups, (kind, change), 0);
              GroupAt(groups + [g], (kind, change), 0) == if j < |groups| then j else j + 1
    {
      var j := GroupAt(groups, (kind, change), 0);
      FirstGroup(groups + [g], (kind, change), if j < |groups| then j else j + 1);
    }
  }

  lemma IndexedNew(byKey: map<string, nat>, groups: seq<Group>, kind: string, change: Change, g: Group)
    requires Indexed(byKey, groups) && change != Changed && Key(kind, change) !in byKey && g.heading == Some((kind, change))
    ensures Indexed(byKey[Key(kind, change) := |groups|], groups + [g])
  {
    var byKey' := byKey[Key(kind, change) := |groups|];
    forall kind', change' | change' != Changed
      ensures var j := GroupAt(groups + [g], (kind', change'), 0);
              && (Key(kind', change') in byKey' <==> j < |groups| + 1)
              && (Key(kind', change') in byKey' ==> byKey'[Key(kind', change')] == j)
    {
      var j := GroupAt(groups, (kind', change'), 0);
      if Key(kind', change') == Key(kind, change) {
        KeysAreDistinct(kind', change', kind, change);
        FirstGroup(groups + [g], (kind', change'), |groups|);
      } else {
        FirstGroup(groups + [g], (kind', change'), if j < |groups| then j else j + 1);
      }
    }
  }

  /** The grouping loop of Text, over what pairing left. */
  method GroupAll(notices: array<Option<Notice>>, ghost ns: seq<Notice>) returns (groups: seq<Group>)
    requires notices.Length == |ns| && forall i | 0 <= i < |ns| :: notices[i] == Outcome(ns, i)
    ensures groups == Groups(Survivors(ns, |ns|))
  {
    groups := [];
    var byKey: map<string, nat> := map[];
    for i := 0 to notices.Length
      invariant groups == Groups(Survivors(ns, i)) && Indexed(byKey, groups)
    {
      if notices[i].Some? {
        var notice := notices[i].value;
        SurvivorGroups(ns, i);
        groups, byKey := AddNotice(groups, byKey, notice);
      } else {
        assert Survivors(ns, i + 1) == Survivors(ns, i);
      }
    }
  }

  lemma SurvivorGroups(ns: seq<Notice>, i: nat)
    requires i < |ns| && Outcome(ns, i).Some?
    ensures Groups(Survivors(ns, i + 1)) == AddTo(Groups(Survivors(ns, i)), Outcome(ns, i).value)
  {
    hide AddTo, Outcome;
    var before := Survivors(ns, i);
    assert Survivors(ns, i + 1) == before + [Outcome(ns, i).value];
    assert (before + [Outcome(ns, i).value])[..|before|] == before;
  }

  method AddNotice(groups: seq<Group>, byKey: map<string, nat>, notice: Notice) returns (groups': seq<Group>, byKey': map<string, nat>)
    requires Indexed(byKey, groups)
    ensures groups' == AddTo(groups, notice) && Indexed(byKey', groups')
  {
    groups', byKey' := groups, byKey;
    if notice.change == Changed {
      groups' := groups + [Group(notice.icon, None, [notice.item])];
      IndexedSetting(byKey, groups, groups'[|groups|]);
      return;
    }
    var key := Key(notice.kind, notice.change);
    assert key in byKey ==> byKey[key] == GroupAt(groups, (notice.kind, notice.change), 0);
    assert key in byKey <==> GroupAt(groups, (notice.kind, notice.change), 0) < |groups|;
    hide Indexed;
    if key in byKey {
      var existing := byKey[key];
      groups' := groups[existing := groups[existing].(items := groups[existing].items + [notice.item])];
      IndexedJoin(byKey, groups, existing, groups'[existing]);
    } else {
      var added := Group(notice.icon, Some((notice.kind, notice.change)), [notice.item]);
      groups' := groups + [added];
      byKey' := byKey[key := |groups|];
      IndexedNew(byKey, groups, notice.kind, notice.change, added);
    }
  }

  /** Text: the message for everything a reply's commands reported. */
  method Text(entries: seq<Entry>) returns (message: string)
    ensures var ns := Reported(entries);
            AllHaveItems(Groups(Survivors(ns, |ns|)))
            && message == Join(Lines(Groups(Survivors(ns, |ns|))) + Texts(entries), "\n")
  {
    var reported: seq<Notice> := [];
    var texts: seq<string> := [];
    for i := 0 to |entries|
      invariant reported == Reported(entries[..i]) && texts == Texts(entries[..i])
    {
      assert entries[..i + 1][..i] == entries[..i];
      match entries[i]
      case Report(notice) => reported := reported + [notice];
      case Plain(text) =>
        var trimmed := Trim(text);
        if trimmed != "" {
          texts := texts + [trimmed];
        }
    }
    assert entries[..|entries|] == entries;
    var notices := new Option<Notice>[|reported|](i requires 0 <= i < |reported| => Some(reported[i]));
    PairUpdates(notices, reported);
    var groups := GroupAll(notices, reported);
    GroupsHaveItems(Survivors(reported, |reported|));
    message := Join(Lines(groups) + texts, "\n");
  }
}
