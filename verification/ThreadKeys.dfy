/** The keys that threads are shown under tell them apart, and each thread is led by its first message. */
module ThreadKeys {
  import opened Options
  import opened Threads
  import opened ThreadsProperties

  // Every message has an id of its own.
  ghost predicate DistinctIds(messages: seq<Message>) {
    forall i, j | 0 <= i < j < |messages| :: messages[i].id != messages[j].id
  }

  lemma {:induction false} IdsAt(members: seq<Message>)
    ensures |Ids(members)| == |members| && forall i | 0 <= i < |members| :: Ids(members)[i] == members[i].id
  {
    if members != [] {
      IdsAt(members[1..]);
    }
  }

  lemma {:induction false} DistinctOnce(ids: seq<string>, x: string)
    requires forall i, j | 0 <= i < j < |ids| :: ids[i] != ids[j]
    ensures multiset(ids)[x] <= 1
  {
    if ids != [] {
      var init, last := ids[..|ids| - 1], ids[|ids| - 1];
      assert ids == init + [last];
      DistinctOnce(init, x);
      assert x == last ==> x !in init;
    }
  }

  lemma {:induction false} CountOne(merged: seq<Merged>, i: nat, x: string)
    requires i < |merged| && x in Ids(merged[i].members)
    ensures CountMerged(merged)[x] >= 1
  {
    hide Ids;
    if i > 0 {
      CountOne(merged[1..], i - 1, x);
    }
  }

  lemma {:induction false} CountTwo(merged: seq<Merged>, i: nat, j: nat, x: string)
    requires i < j < |merged| && x in Ids(merged[i].members) && x in Ids(merged[j].members)
    ensures CountMerged(merged)[x] >= 2
  {
    hide Ids;
    if i == 0 {
      CountOne(merged[1..], j - 1, x);
    } else {
      CountTwo(merged[1..], i - 1, j - 1, x);
    }
  }

  // A keyed thread carries the key text of some group, and no thread is empty.
  ghost predicate Formed(merged: seq<Merged>, groups: seq<Group>, normal: Normal) {
    forall t | t in merged :: t.members != [] && exists g :: g in groups && t.key == KeyText(g, normal)
  }

  lemma {:induction false} MergeIntoForms(merged: seq<Merged>, g: Group, groups: seq<Group>, normal: Normal)
    requires Formed(merged, groups, normal) && g in groups && g.members != []
    ensures Formed(MergeInto(merged, KeyText(g, normal), g.members), groups, normal)
  {
    hide KeyText;
    if merged != [] && merged[0].key != KeyText(g, normal) {
      assert merged == [merged[0]] + merged[1..];
      MergeIntoForms(merged[1..], g, groups, normal);
    } else if merged != [] {
      assert merged == [merged[0]] + merged[1..] && merged[0] in merged;
    }
  }

  lemma MoreGroupsForm(merged: seq<Merged>, groups: seq<Group>, more: seq<Group>, normal: Normal)
    requires Formed(merged, groups, normal) && forall g | g in groups :: g in more
    ensures Formed(merged, more, normal)
  {
  }

  lemma {:induction false} MergeForms(groups: seq<Group>, normal: Normal)
    requires forall g | g in groups :: g.members != []
    ensures Formed(Merge(groups, normal).0 + Merge(groups, normal).1, groups, normal)
    ensures forall t | t in Merge(groups, normal).1 :: t.key == ""
  {
    hide KeyText, MergeInto, Formed;
    if groups == [] {
      NothingForms(groups, normal);
    } else {
      var init, last := groups[..|groups| - 1], groups[|groups| - 1];
      assert groups == init + [last] && last in groups;
      MergeForms(init, normal);
      var (merged, solo) := Merge(init, normal);
      MoreGroupsForm(merged + solo, init, groups, normal);
      OneForms(last, groups, normal);
      if KeyText(last, normal) == "" {
        JoinForms(merged + solo, [Merged("", last.members)], groups, normal);
        assert merged + (solo + [Merged("", last.members)]) == (merged + solo) + [Merged("", last.members)];
      } else {
        PartsForm(merged, solo, groups, normal);
        MergeIntoForms(merged, last, groups, normal);
        JoinForms(MergeInto(merged, KeyText(last, normal), last.members), solo, groups, normal);
      }
    }
  }

  lemma NothingForms(groups: seq<Group>, normal: Normal)
    ensures Formed([] + [], groups, normal)
  {
  }

  lemma OneForms(g: Group, groups: seq<Group>, normal: Normal)
    requires g in groups && g.members != []
    ensures Formed([Merged(KeyText(g, normal), g.members)], groups, normal)
  {
  }

  lemma JoinForms(a: seq<Merged>, b: seq<Merged>, groups: seq<Group>, normal: Normal)
    requires Formed(a, groups, normal) && Formed(b, groups, normal)
    ensures Formed(a + b, groups, normal)
  {
  }

  lemma PartsForm(a: seq<Merged>, b: seq<Merged>, groups: seq<Group>, normal: Normal)
    requires Formed(a + b, groups, normal)
    ensures Formed(a, groups, normal) && Formed(b, groups, normal)
  {
    assert forall t | t in a :: t in a + b;
    assert forall t | t in b :: t in a + b;
  }

  lemma {:induction false} AddMessageFills(groups: seq<Group>, m: Message, root: string)
    requires forall g | g in groups :: g.members != []
    ensures forall g | g in AddMessage(groups, m, root) :: g.members != []
  {
    if groups != [] {
      assert groups == [groups[0]] + groups[1..] && groups[0] in groups;
      AddMessageFills(groups[1..], m, root);
    }
  }

  lemma {:induction false} GroupsAreFilled(messages: seq<Message>, parent: map<string, string>)
    ensures forall g | g in Groups(messages, parent) :: g.members != []
  {
    if messages != [] {
      var init, last := messages[..|messages| - 1], messages[|messages| - 1];
      GroupsAreFilled(init, parent);
      AddMessageFills(Groups(init, parent), last, RootOf(parent, last.id));
    }
  }

  lemma {:induction false} DisplayedAt(merged: seq<Merged>)
    ensures |DisplayAll(merged)| == |merged|
    ensures forall i | 0 <= i < |merged| :: DisplayAll(merged)[i] == Display(merged[i])
  {
    if merged != [] {
      DisplayedAt(merged[1..]);
    }
  }

  // What separates two threads before they are shown.
  lemma MergedApart(messages: seq<Message>, normal: Normal, i: nat, j: nat)
    requires DistinctIds(messages) && i < j < |MergedThreads(messages, normal)|
    ensures var a, b := MergedThreads(messages, normal)[i], MergedThreads(messages, normal)[j];
      && a.members != [] && b.members != [] && a.members[0].id != b.members[0].id
      && (a.key == b.key ==> a.key == "")
  {
    var parent := Parents(messages, KnownIds(messages));
    var groups := Groups(messages, parent);
    var (merged, solo) := Merge(groups, normal);
    var all := merged + solo;
    GroupsAreFilled(messages, parent);
    MergeForms(groups, normal);
    MergeIsSorted(groups, normal);
    assert all[i] in all && all[j] in all;
    var x := all[i].members[0].id;
    IdsAt(messages);
    DistinctOnce(Ids(messages), x);
    GroupsCount(messages, parent);
    MergeCounts(groups, normal);
    CountMergedAdds(merged, solo);
    IdsAt(all[i].members);
    IdsAt(all[j].members);
    assert Ids(all[i].members)[0] == x;
    if all[j].members[0].id == x {
      assert Ids(all[j].members)[0] == x;
      CountTwo(all, i, j, x);
    }
    if j >= |merged| {
      assert all[j] in solo;
    }
  }

  // The key a thread is shown under starts with what it was made from.
  lemma ShownKey(messages: seq<Message>, normal: Normal, i: nat)
    requires i < |MergedThreads(messages, normal)|
    ensures var t := MergedThreads(messages, normal)[i];
      && t.members != [] && (t.key != "" ==> t.key[0] == 'l' || t.key[0] == 's')
      && var shown := if t.key != "" then t.key else "message:" + t.members[0].id;
      Display(t) == Thread(shown, t.members[0].id, Ids(t.members))
  {
    var parent := Parents(messages, KnownIds(messages));
    var groups := Groups(messages, parent);
    GroupsAreFilled(messages, parent);
    MergeForms(groups, normal);
    var t := MergedThreads(messages, normal)[i];
    assert t in MergedThreads(messages, normal);
    var g :| g in groups && t.key == KeyText(g, normal);
    KeyTextOf(g, normal);
  }

  /** Where messages have ids of their own, no two threads are shown under one key, none is empty, and each
      names its first message as its root. */
  lemma ShownKeysAreDistinct(messages: seq<Message>, normal: Normal, i: nat, j: nat)
    requires DistinctIds(messages) && i < j < |DisplayAll(MergedThreads(messages, normal))|
    ensures var a, b := DisplayAll(MergedThreads(messages, normal))[i], DisplayAll(MergedThreads(messages, normal))[j];
      && a.key != b.key && a.rootMessageId != b.rootMessageId
      && a.messageIds != [] && a.rootMessageId == a.messageIds[0]
  {
    var merged := MergedThreads(messages, normal);
    DisplayedAt(merged);
    MergedApart(messages, normal, i, j);
    ShownKey(messages, normal, i);
    ShownKey(messages, normal, j);
    IdsAt(merged[i].members);
    hide MergedThreads, DisplayAll, Display;
    var a, b := merged[i], merged[j];
    if a.key == "" && b.key == "" {
      assert ("message:" + a.members[0].id)[8..] == a.members[0].id;
      assert ("message:" + b.members[0].id)[8..] == b.members[0].id;
    } else if a.key == "" {
      assert ("message:" + a.members[0].id)[0] == 'm';
    } else if b.key == "" {
      assert ("message:" + b.members[0].id)[0] == 'm';
    }
  }

  // Increasing positions.
  ghost predicate Rising(at: seq<nat>, bound: nat) {
    (forall k | 0 <= k < |at| :: at[k] < bound) && forall i, j | 0 <= i < j < |at| :: at[i] < at[j]
  }

  ghost predicate StartAt(groups: seq<Group>, at: seq<nat>, messages: seq<Message>) {
    && |at| == |groups| && Rising(at, |messages|)
    && forall k | 0 <= k < |groups| :: groups[k].members != [] && groups[k].members[0] == messages[at[k]]
  }

  ghost predicate MergedFrom(merged: seq<Merged>, at: seq<nat>, groups: seq<Group>) {
    && |at| == |merged| && Rising(at, |groups|)
    && forall k | 0 <= k < |merged| ::
         groups[at[k]].members != [] && merged[k].members != [] && merged[k].members[0] == groups[at[k]].members[0]
  }

  // A message joins a group, whose first message stays, or founds the last group.
  lemma {:induction false} JoinsOrFounds(groups: seq<Group>, m: Message, root: string)
    requires forall g | g in groups :: g.members != []
    ensures var all := AddMessage(groups, m, root);
      || (|all| == |groups| && forall k | 0 <= k < |all| ::
            all[k].members != [] && all[k].members[0] == groups[k].members[0])
      || (groups < all && |all| == |groups| + 1 && all[|groups|].members == [m])
  {
    if groups != [] && groups[0].root != root {
      JoinsOrFounds(groups[1..], m, root);
      assert groups == [groups[0]] + groups[1..];
    }
  }

  lemma {:induction false} GroupsStart(messages: seq<Message>, parent: map<string, string>) returns (at: seq<nat>)
    ensures StartAt(Groups(messages, parent), at, messages)
  {
    at := [];
    if messages != [] {
      var init, last := messages[..|messages| - 1], messages[|messages| - 1];
      at := GroupsStart(init, parent);
      GroupsAreFilled(init, parent);
      var groups := Groups(init, parent);
      JoinsOrFounds(groups, last, RootOf(parent, last.id));
      if |Groups(messages, parent)| > |groups| {
        at := at + [|init|];
      }
    }
  }

  lemma {:induction false} MergesOrFounds(merged: seq<Merged>, key: string, members: seq<Message>)
    requires members != [] && forall t | t in merged :: t.members != []
    ensures var all := MergeInto(merged, key, members);
      || (|all| == |merged| && forall k | 0 <= k < |all| ::
            all[k].members != [] && all[k].members[0] == merged[k].members[0])
      || (all == merged + [Merged(key, members)])
  {
    if merged != [] && merged[0].key != key {
      MergesOrFounds(merged[1..], key, members);
      assert merged == [merged[0]] + merged[1..];
    }
  }

  lemma {:induction false} MergeStarts(groups: seq<Group>, normal: Normal) returns (at: seq<nat>, alone: seq<nat>)
    requires forall g | g in groups :: g.members != []
    ensures MergedFrom(Merge(groups, normal).0, at, groups) && MergedFrom(Merge(groups, normal).1, alone, groups)
    ensures (forall t | t in Merge(groups, normal).0 :: t.key != "")
    ensures (forall t | t in Merge(groups, normal).1 :: t.key == "")
  {
    hide KeyText, MergeInto;
    at, alone := [], [];
    if groups != [] {
      var init, last := groups[..|groups| - 1], groups[|groups| - 1];
      at, alone := MergeStarts(init, normal);
      var (merged, solo) := Merge(init, normal);
      var key := KeyText(last, normal);
      StillFrom(merged, at, init, groups);
      StillFrom(solo, alone, init, groups);
      hide MergedFrom;
      if key == "" {
        alone := FoundedFrom(solo, alone, groups, Merged("", last.members));
      } else {
        MergesOrFounds(merged, key, last.members);
        MergeIntoKeys(merged, key, last.members);
        if MergeInto(merged, key, last.members) == merged + [Merged(key, last.members)] {
          at := FoundedFrom(merged, at, groups, Merged(key, last.members));
        } else {
          JoinedFrom(merged, at, groups, MergeInto(merged, key, last.members));
        }
      }
    }
  }

  lemma StillFrom(merged: seq<Merged>, at: seq<nat>, init: seq<Group>, groups: seq<Group>)
    requires MergedFrom(merged, at, init) && init <= groups
    ensures MergedFrom(merged, at, groups) && Rising(at, |init|)
  {
  }

  lemma FoundedFrom(merged: seq<Merged>, at: seq<nat>, groups: seq<Group>, t: Merged) returns (more: seq<nat>)
    requires groups != [] && MergedFrom(merged, at, groups) && Rising(at, |groups| - 1)
    requires t.members == groups[|groups| - 1].members && t.members != []
    ensures MergedFrom(merged + [t], more, groups)
  {
    more := at + [|groups| - 1];
  }

  lemma JoinedFrom(merged: seq<Merged>, at: seq<nat>, groups: seq<Group>, all: seq<Merged>)
    requires MergedFrom(merged, at, groups) && |all| == |merged|
    requires forall k | 0 <= k < |all| :: all[k].members != [] && all[k].members[0] == merged[k].members[0]
    ensures MergedFrom(all, at, groups)
  {
  }

  lemma {:induction false} MergeIntoKeys(merged: seq<Merged>, key: string, members: seq<Message>)
    requires key != "" && forall t | t in merged :: t.key != ""
    ensures forall t | t in MergeInto(merged, key, members) :: t.key != ""
  {
    if merged != [] && merged[0].key != key {
      MergeIntoKeys(merged[1..], key, members);
    }
  }

  /** Threads that merge under a key come ahead of those that stay alone, and of each kind they come in the
      order of their first messages. */
  lemma ThreadsAreInOrder(messages: seq<Message>, normal: Normal, i: nat, j: nat)
    requires i < j < |MergedThreads(messages, normal)|
    ensures var a, b := MergedThreads(messages, normal)[i], MergedThreads(messages, normal)[j];
      && a.members != [] && b.members != [] && (b.key != "" ==> a.key != "")
      && ((a.key == "" <==> b.key == "") ==>
            exists p, q :: 0 <= p < q < |messages| && messages[p] == a.members[0] && messages[q] == b.members[0])
  {
    var parent := Parents(messages, KnownIds(messages));
    var groups := Groups(messages, parent);
    GroupsAreFilled(messages, parent);
    var first := GroupsStart(messages, parent);
    var at, alone := MergeStarts(groups, normal);
    var (merged, solo) := Merge(groups, normal);
    var m := |merged|;
    if j < m {
      assert messages[first[at[i]]] == merged[i].members[0] && messages[first[at[j]]] == merged[j].members[0];
    } else if i >= m {
      assert messages[first[alone[i - m]]] == solo[i - m].members[0];
      assert messages[first[alone[j - m]]] == solo[j - m].members[0];
    } else {
      assert merged[i] in merged && solo[j - m] in solo;
    }
  }
}
