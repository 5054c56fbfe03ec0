/** What thread derivation keeps: every message, every reply link, and exactly the intended merges. */
module ThreadsProperties {
  import opened Options
  import opened ParticipantKey
  import opened Threads

  // Independent of the grouping loop: the messages under a root, and what counts among them.
  function Members(messages: seq<Message>, parent: map<string, string>, root: string): seq<Message> {
    if messages == [] then []
    else
      var last := messages[|messages| - 1];
      Members(messages[..|messages| - 1], parent, root) + if RootOf(parent, last.id) == root then [last] else []
  }

  function FirstListId(members: seq<Message>): Option<string> {
    if members == [] then None
    else if members[0].listId.Some? then members[0].listId
    else FirstListId(members[1..])
  }

  function FirstSubject(members: seq<Message>): Option<string> {
    if members == [] then None
    else if members[0].subject.Some? then members[0].subject
    else FirstSubject(members[1..])
  }

  function GroupOf(messages: seq<Message>, parent: map<string, string>, root: string): Group {
    var members := Members(messages, parent, root);
    Group(root, members, FirstListId(members), FirstSubject(members))
  }

  // What decides merging: a shared List-ID, a shared subject and correspondents, or nothing.
  datatype Key = ByList(listId: string) | BySubject(subject: string, participants: set<string>) | Alone(root: string)

  // Who writes or is written to in some messages: every From, To and Cc address, normalized.
  ghost function Correspondents(members: seq<Message>, normal: Normal): set<string> {
    set m, a | m in members && a in {m.from} + (set x | x in m.to) + (set x | x in m.cc) :: normal.address(a)
  }

  ghost function KeyOfGroup(g: Group, normal: Normal): Key {
    var subject := match g.subject case None => "" case Some(text) => normal.subject(text);
    if g.listId.Some? then ByList(g.listId.value)
    else if subject == "" then Alone(g.root)
    else BySubject(subject, Correspondents(g.members, normal))
  }

  lemma {:induction false} AddressesAre(addresses: seq<string>, normal: Normal, p: string)
    ensures p in Addresses(addresses, normal) <==> exists a :: a in addresses && p == normal.address(a)
  {
    if addresses != [] {
      AddressesAre(addresses[1..], normal, p);
      assert addresses == [addresses[0]] + addresses[1..];
    }
  }

  /** The participants of a group are those addresses and no others. */
  lemma {:induction false} ParticipantsAreCorrespondents(members: seq<Message>, normal: Normal)
    ensures Elements(AllParticipants(members, normal)) == Correspondents(members, normal)
  {
    if members != [] {
      var m, rest := members[0], members[1..];
      ParticipantsAreCorrespondents(rest, normal);
      assert members == [m] + rest;
      forall p ensures p in Elements(AllParticipants(members, normal)) <==> p in Correspondents(members, normal) {
        AddressesAre(m.to + m.cc, normal, p);
        assert p in Elements(AllParticipants(rest, normal)) <==> p in Correspondents(rest, normal);
      }
    }
  }

  ghost predicate Grouped(groups: seq<Group>, messages: seq<Message>, parent: map<string, string>) {
    && Distinct(groups)
    && (forall i | 0 <= i < |groups| :: groups[i] == GroupOf(messages, parent, groups[i].root))
    && (forall m | m in messages :: HasRoot(groups, RootOf(parent, m.id)))
  }

  lemma {:induction false} FirstOfAppended(members: seq<Message>, m: Message)
    ensures FirstListId(members + [m]) == if FirstListId(members).Some? then FirstListId(members) else m.listId
    ensures FirstSubject(members + [m]) == if FirstSubject(members).Some? then FirstSubject(members) else m.subject
  {
    if members != [] {
      assert (members + [m])[1..] == members[1..] + [m];
      FirstOfAppended(members[1..], m);
    }
  }

  lemma {:induction false} MembersUnder(messages: seq<Message>, parent: map<string, string>, root: string, m: Message)
    ensures m in Members(messages, parent, root) <==> m in messages && RootOf(parent, m.id) == root
  {
    if messages != [] {
      MembersUnder(messages[..|messages| - 1], parent, root, m);
      assert messages == messages[..|messages| - 1] + [messages[|messages| - 1]];
    }
  }

  // One message added: its group grows or appears, every other group stays.
  lemma HasRootLater(groups: seq<Group>, root: string)
    requires groups != [] && groups[0].root != root
    ensures HasRoot(groups, root) <==> HasRoot(groups[1..], root)
  {
  }

  lemma {:induction false} AddMessageAt(groups: seq<Group>, m: Message, root: string)
    requires Distinct(groups)
    ensures var after := AddMessage(groups, m, root);
      if HasRoot(groups, root) then
        |after| == |groups| &&
        forall i | 0 <= i < |groups| :: after[i] ==
          if groups[i].root != root then groups[i]
          else Group(root, groups[i].members + [m],
                     if groups[i].listId.None? then m.listId else groups[i].listId,
                     if groups[i].subject.None? then m.subject else groups[i].subject)
      else after == groups + [Group(root, [m], m.listId, m.subject)]
  {
    if groups != [] && groups[0].root != root {
      var rest := groups[1..];
      AddMessageAt(rest, m, root);
      HasRootLater(groups, root);
      hide HasRoot, Distinct;
    }
  }

  lemma {:induction false} GroupsAreGrouped(messages: seq<Message>, parent: map<string, string>)
    ensures Grouped(Groups(messages, parent), messages, parent)
  {
    if messages != [] {
      var init, last := messages[..|messages| - 1], messages[|messages| - 1];
      GroupsAreGrouped(init, parent);
      GroupedStep(Groups(init, parent), init, parent, last);
      assert init + [last] == messages;
    }
  }

  lemma GroupOfAppended(init: seq<Message>, parent: map<string, string>, last: Message, root: string)
    ensures var before, after := GroupOf(init, parent, root), GroupOf(init + [last], parent, root);
      after == if RootOf(parent, last.id) != root then before
               else Group(root, before.members + [last],
                          if before.listId.None? then last.listId else before.listId,
                          if before.subject.None? then last.subject else before.subject)
  {
    var messages := init + [last];
    var members := Members(init, parent, root);
    assert messages[..|messages| - 1] == init && messages[|messages| - 1] == last;
    assert members + [] == members;
    FirstOfAppended(members, last);
  }

  lemma NoMembers(messages: seq<Message>, parent: map<string, string>, root: string)
    requires forall m | m in messages :: RootOf(parent, m.id) != root
    ensures Members(messages, parent, root) == []
  {
  }

  ghost predicate Distinct(groups: seq<Group>) {
    forall i, j | 0 <= i < j < |groups| :: groups[i].root != groups[j].root
  }

  ghost predicate HasRoot(groups: seq<Group>, root: string) {
    exists i :: 0 <= i < |groups| && groups[i].root == root
  }

  lemma StaysDistinct(groups: seq<Group>, m: Message, root: string)
    requires Distinct(groups)
    ensures Distinct(AddMessage(groups, m, root))
    ensures forall r :: HasRoot(AddMessage(groups, m, root), r) <==> HasRoot(groups, r) || r == root
  {
    hide AddMessage;
    var after := AddMessage(groups, m, root);
    AddMessageAt(groups, m, root);
    forall r ensures HasRoot(after, r) <==> HasRoot(groups, r) || r == root {
      if HasRoot(groups, r) {
        var i :| 0 <= i < |groups| && groups[i].root == r;
        assert after[i].root == r;
      }
      if r == root && !HasRoot(groups, root) {
        assert after[|groups|].root == root;
      }
      if HasRoot(after, r) {
        var i :| 0 <= i < |after| && after[i].root == r;
        assert i < |groups| ==> groups[i].root == r;
      }
    }
  }

  lemma GroupedStep(groups: seq<Group>, init: seq<Message>, parent: map<string, string>, last: Message)
    requires Grouped(groups, init, parent)
    ensures Grouped(AddMessage(groups, last, RootOf(parent, last.id)), init + [last], parent)
  {
    hide RootOf, AddMessage, Distinct;
    var root := RootOf(parent, last.id);
    var after := AddMessage(groups, last, root);
    AddMessageAt(groups, last, root);
    StaysDistinct(groups, last, root);
    forall i | 0 <= i < |after| ensures after[i] == GroupOf(init + [last], parent, after[i].root) {
      var r := after[i].root;
      GroupOfAppended(init, parent, last, r);
      if i < |groups| {
        assert groups[i] == GroupOf(init, parent, r);
      } else {
        NoMembers(init, parent, r);
      }
    }
  }

  // Conservation, counted in message ids.
  ghost function Count(members: seq<Message>): multiset<string> {
    multiset(Ids(members))
  }

  lemma {:induction false} CountAdds(a: seq<Message>, b: seq<Message>)
    ensures Count(a + b) == Count(a) + Count(b)
  {
    if a == [] {
      assert a + b == b;
    } else {
      assert (a + b)[1..] == a[1..] + b;
      CountAdds(a[1..], b);
      assert Ids(a) == [a[0].id] + Ids(a[1..]);
      assert Ids(a + b) == [a[0].id] + Ids(a[1..] + b);
    }
  }

  ghost function CountGroups(groups: seq<Group>): multiset<string> {
    if groups == [] then multiset{} else Count(groups[0].members) + CountGroups(groups[1..])
  }

  ghost function CountMerged(merged: seq<Merged>): multiset<string> {
    if merged == [] then multiset{} else Count(merged[0].members) + CountMerged(merged[1..])
  }

  ghost function CountThreads(threads: seq<Thread>): multiset<string> {
    if threads == [] then multiset{} else multiset(threads[0].messageIds) + CountThreads(threads[1..])
  }

  lemma {:induction false} AddMessageCounts(groups: seq<Group>, m: Message, root: string)
    ensures CountGroups(AddMessage(groups, m, root)) == CountGroups(groups) + multiset{m.id}
  {
    assert Ids([m]) == [m.id];
    if groups != [] && groups[0].root == root {
      CountAdds(groups[0].members, [m]);
      var after := AddMessage(groups, m, root);
      assert after[0].members == groups[0].members + [m] && after[1..] == groups[1..];
    } else if groups != [] {
      AddMessageCounts(groups[1..], m, root);
      var after := AddMessage(groups, m, root);
      assert after[0] == groups[0] && after[1..] == AddMessage(groups[1..], m, root);
    }
  }

  lemma NoGroupsCount()
    ensures CountGroups([]) == multiset{}
  {
  }

  lemma {:induction false} GroupsCount(messages: seq<Message>, parent: map<string, string>)
    ensures CountGroups(Groups(messages, parent)) == Count(messages)
  {
    hide RootOf, AddMessage, CountGroups;
    if messages == [] {
      NoGroupsCount();
    } else {
      var init, last := messages[..|messages| - 1], messages[|messages| - 1];
      GroupsCount(init, parent);
      AddMessageCounts(Groups(init, parent), last, RootOf(parent, last.id));
      CountAdds(init, [last]);
      assert init + [last] == messages && Ids([last]) == [last.id];
    }
  }

  lemma {:induction false} CountGroupsLast(groups: seq<Group>)
    requires groups != []
    ensures CountGroups(groups) == CountGroups(groups[..|groups| - 1]) + Count(groups[|groups| - 1].members)
  {
    hide Count;
    if |groups| > 1 {
      CountGroupsLast(groups[1..]);
      assert groups[1..][..|groups| - 2] == groups[..|groups| - 1][1..];
    }
  }

  lemma {:induction false} CountMergedAdds(a: seq<Merged>, b: seq<Merged>)
    ensures CountMerged(a + b) == CountMerged(a) + CountMerged(b)
  {
    if a == [] {
      assert a + b == b;
    } else {
      assert (a + b)[1..] == a[1..] + b;
      CountMergedAdds(a[1..], b);
    }
  }

  lemma {:induction false} MergeIntoCounts(merged: seq<Merged>, key: string, members: seq<Message>)
    ensures CountMerged(MergeInto(merged, key, members)) == CountMerged(merged) + Count(members)
  {
    if merged != [] {
      if merged[0].key == key {
        CountAdds(merged[0].members, members);
      } else {
        MergeIntoCounts(merged[1..], key, members);
      }
    }
  }

  lemma {:induction false} MergeCounts(groups: seq<Group>, normal: Normal)
    ensures var (merged, solo) := Merge(groups, normal);
      CountMerged(merged) + CountMerged(solo) == CountGroups(groups)
  {
    if groups != [] {
      var last := groups[|groups| - 1];
      MergeCounts(groups[..|groups| - 1], normal);
      CountGroupsLast(groups);
      var (merged, solo) := Merge(groups[..|groups| - 1], normal);
      MergeIntoCounts(merged, KeyText(last, normal), last.members);
      CountMergedAdds(solo, [Merged("", last.members)]);
    }
  }

  lemma {:induction false} DisplayCounts(merged: seq<Merged>)
    ensures CountThreads(DisplayAll(merged)) == CountMerged(merged)
  {
    if merged != [] {
      DisplayCounts(merged[1..]);
    }
  }

  /** Conservation: over all threads every message id appears as often as in the input. */
  lemma ThreadsConserveMessages(messages: seq<Message>, normal: Normal)
    ensures CountThreads(DisplayAll(MergedThreads(messages, normal))) == multiset(Ids(messages))
  {
    var parent := Parents(messages, KnownIds(messages));
    var groups := Groups(messages, parent);
    var (merged, solo) := Merge(groups, normal);
    GroupsCount(messages, parent);
    MergeCounts(groups, normal);
    CountMergedAdds(merged, solo);
    DisplayCounts(merged + solo);
  }

  // The messages of all groups with one key text, and the threads of the groups without one.
  ghost function Under(groups: seq<Group>, key: string, normal: Normal): seq<Message> {
    if groups == [] then []
    else
      var last := groups[|groups| - 1];
      Under(groups[..|groups| - 1], key, normal) + if KeyText(last, normal) == key then last.members else []
  }

  ghost function Solos(groups: seq<Group>, normal: Normal): seq<Merged> {
    if groups == [] then []
    else
      var last := groups[|groups| - 1];
      Solos(groups[..|groups| - 1], normal) + if KeyText(last, normal) == "" then [Merged("", last.members)] else []
  }

  ghost predicate HasKey(merged: seq<Merged>, key: string) {
    exists i :: 0 <= i < |merged| && merged[i].key == key
  }

  ghost predicate DistinctKeys(merged: seq<Merged>) {
    forall i, j | 0 <= i < j < |merged| :: merged[i].key != merged[j].key
  }

  lemma {:induction false} MergeIntoAt(merged: seq<Merged>, key: string, members: seq<Message>)
    requires DistinctKeys(merged)
    ensures var after := MergeInto(merged, key, members);
      if HasKey(merged, key) then
        |after| == |merged| &&
        forall i | 0 <= i < |merged| :: after[i] ==
          if merged[i].key != key then merged[i] else Merged(key, merged[i].members + members)
      else after == merged + [Merged(key, members)]
  {
    if merged != [] && merged[0].key != key {
      var rest := merged[1..];
      MergeIntoAt(rest, key, members);
      if HasKey(merged, key) {
        var i :| 0 <= i < |merged| && merged[i].key == key;
        assert rest[i - 1].key == key;
      }
    }
  }

  // Keyed threads collect every group with their key, each key once; solo threads are the other groups.
  ghost predicate Sorted(merged: seq<Merged>, groups: seq<Group>, normal: Normal) {
    && DistinctKeys(merged)
    && (forall i | 0 <= i < |merged| ::
          merged[i].key != "" && merged[i].members == Under(groups, merged[i].key, normal))
    && (forall k | 0 <= k < |groups| && KeyText(groups[k], normal) != "" :: HasKey(merged, KeyText(groups[k], normal)))
  }

  lemma {:induction false} NothingUnder(groups: seq<Group>, key: string, normal: Normal)
    requires forall k | 0 <= k < |groups| :: KeyText(groups[k], normal) != key
    ensures Under(groups, key, normal) == []
  {
    if groups != [] {
      NothingUnder(groups[..|groups| - 1], key, normal);
    }
  }

  lemma KeysAfter(merged: seq<Merged>, key: string, members: seq<Message>)
    requires DistinctKeys(merged)
    ensures DistinctKeys(MergeInto(merged, key, members))
    ensures forall k :: HasKey(MergeInto(merged, key, members), k) <==> HasKey(merged, k) || k == key
  {
    hide MergeInto;
    var after := MergeInto(merged, key, members);
    MergeIntoAt(merged, key, members);
    forall k ensures HasKey(after, k) <==> HasKey(merged, k) || k == key {
      if HasKey(merged, k) {
        var i :| 0 <= i < |merged| && merged[i].key == k;
        assert after[i].key == k;
      }
      if k == key && !HasKey(merged, key) {
        assert after[|merged|].key == key;
      }
      if HasKey(after, k) {
        var i :| 0 <= i < |after| && after[i].key == k;
        assert i < |merged| ==> merged[i].key == k;
      }
    }
  }

  lemma UnderAppended(init: seq<Group>, last: Group, key: string, normal: Normal)
    ensures Under(init + [last], key, normal) ==
            if KeyText(last, normal) == key then Under(init, key, normal) + last.members else Under(init, key, normal)
  {
  }

  lemma MergeStep(merged: seq<Merged>, init: seq<Group>, last: Group, normal: Normal)
    requires Sorted(merged, init, normal)
    ensures var key := KeyText(last, normal);
      Sorted(if key == "" then merged else MergeInto(merged, key, last.members), init + [last], normal)
  {
    hide KeyText, MergeInto, Under;
    var key, groups := KeyText(last, normal), init + [last];
    if key == "" {
      forall i | 0 <= i < |merged| ensures merged[i].members == Under(groups, merged[i].key, normal) {
        UnderAppended(init, last, merged[i].key, normal);
      }
    } else {
      var after := MergeInto(merged, key, last.members);
      MergeIntoAt(merged, key, last.members);
      KeysAfter(merged, key, last.members);
      forall i | 0 <= i < |after|
        ensures after[i].key != "" && after[i].members == Under(groups, after[i].key, normal)
      {
        UnderAppended(init, last, after[i].key, normal);
        if i < |merged| {
          assert merged[i].members == Under(init, merged[i].key, normal);
        } else {
          NothingUnder(init, key, normal);
          assert [] + last.members == last.members;
        }
      }
    }
  }

  lemma {:induction false} MergeIsSorted(groups: seq<Group>, normal: Normal)
    ensures Sorted(Merge(groups, normal).0, groups, normal) && Merge(groups, normal).1 == Solos(groups, normal)
  {
    hide KeyText, MergeInto;
    if groups != [] {
      hide Sorted;
      var init, last := groups[..|groups| - 1], groups[|groups| - 1];
      MergeIsSorted(init, normal);
      MergeStep(Merge(init, normal).0, init, last, normal);
      assert init + [last] == groups;
    }
  }

  lemma {:induction false} UnderHas(groups: seq<Group>, key: string, normal: Normal, m: Message)
    ensures m in Under(groups, key, normal) <==>
            exists k :: 0 <= k < |groups| && KeyText(groups[k], normal) == key && m in groups[k].members
  {
    hide KeyText;
    if groups != [] {
      var init := groups[..|groups| - 1];
      UnderHas(init, key, normal, m);
      if m in Under(init, key, normal) {
        var k :| 0 <= k < |init| && KeyText(init[k], normal) == key && m in init[k].members;
        assert groups[k] == init[k];
      }
      if k :| 0 <= k < |groups| && KeyText(groups[k], normal) == key && m in groups[k].members {
        assert k < |init| ==> init[k] == groups[k];
      }
    }
  }

  lemma {:induction false} SolosHas(groups: seq<Group>, normal: Normal, t: Merged)
    ensures t in Solos(groups, normal) <==>
            exists k :: 0 <= k < |groups| && KeyText(groups[k], normal) == "" && t == Merged("", groups[k].members)
  {
    hide KeyText;
    if groups != [] {
      var init := groups[..|groups| - 1];
      SolosHas(init, normal, t);
      if t in Solos(init, normal) {
        var k :| 0 <= k < |init| && KeyText(init[k], normal) == "" && t == Merged("", init[k].members);
        assert groups[k] == init[k];
      }
      if k :| 0 <= k < |groups| && KeyText(groups[k], normal) == "" && t == Merged("", groups[k].members) {
        assert k < |init| ==> init[k] == groups[k];
      }
    }
  }

  lemma NulSplits(a: string, p: string, b: string, q: string)
    requires '\0' !in p && '\0' !in q && a + "\0" + p == b + "\0" + q
    ensures a == b && p == q
  {
    var s := a + "\0" + p;
    assert s[|a|] == '\0' && s[|b|] == '\0';
    assert forall x | |a| < x < |s| :: s[x] == p[x - |a| - 1];
    assert forall x | |b| < x < |s| :: s[x] == q[x - |b| - 1];
    assert |a| == |b|;
    assert s[..|a|] == a && s[..|b|] == b && s[|a| + 1..] == p && s[|b| + 1..] == q;
  }

  // The text that a group's key is written as.
  lemma KeyTextOf(g: Group, normal: Normal)
    ensures match KeyOfGroup(g, normal)
            case Alone(_) => KeyText(g, normal) == ""
            case ByList(id) => KeyText(g, normal) == "list:" + id && KeyText(g, normal)[0] == 'l'
            case BySubject(subject, people) =>
              var all := AllParticipants(g.members, normal);
              && KeyText(g, normal) == "subject:" + subject + "\0participants:" + KeyOf(all)
              && KeyText(g, normal)[0] == 's' && Elements(all) == people
  {
    hide AllParticipants, Elements, Correspondents, KeyOf;
    ParticipantsAreCorrespondents(g.members, normal);
  }

  /** The text keys are faithful: non-empty keys are equal exactly when the groups share a List-ID, or
      share a normalized subject and a participant set. */
  lemma KeyTextIsFaithful(g: Group, h: Group, normal: Normal)
    ensures KeyText(g, normal) == "" <==> KeyOfGroup(g, normal).Alone?
    ensures KeyText(g, normal) != "" ==>
      (KeyText(g, normal) == KeyText(h, normal) <==> KeyOfGroup(g, normal) == KeyOfGroup(h, normal))
  {
    KeyTextOf(g, normal);
    KeyTextOf(h, normal);
    hide KeyText, KeyOfGroup, AllParticipants, KeyOf, Elements;
    var k, l := KeyOfGroup(g, normal), KeyOfGroup(h, normal);
    if k.ByList? && l.ByList? {
      assert ("list:" + k.listId)[5..] == k.listId && ("list:" + l.listId)[5..] == l.listId;
    } else if k.BySubject? && l.BySubject? {
      SubjectKeysAreFaithful(k.subject, AllParticipants(g.members, normal),
                             l.subject, AllParticipants(h.members, normal));
    }
  }

  lemma Cancel(prefix: string, p: string, q: string)
    requires prefix + p == prefix + q
    ensures p == q
  {
    assert (prefix + p)[|prefix|..] == p && (prefix + q)[|prefix|..] == q;
  }

  lemma SubjectKeyParts(subject: string, code: string)
    ensures "subject:" + subject + "\0participants:" + code == "subject:" + (subject + "\0" + ("participants:" + code))
  {
  }

  lemma SubjectKeysAreFaithful(a: string, xs: seq<string>, b: string, ys: seq<string>)
    ensures "subject:" + a + "\0participants:" + KeyOf(xs) == "subject:" + b + "\0participants:" + KeyOf(ys) <==>
            a == b && Elements(xs) == Elements(ys)
  {
    hide KeyOf;
    KeyIsTheSet(xs, ys);
    SubjectKeyParts(a, KeyOf(xs));
    SubjectKeyParts(b, KeyOf(ys));
    if "subject:" + a + "\0participants:" + KeyOf(xs) == "subject:" + b + "\0participants:" + KeyOf(ys) {
      var p, q := "participants:" + KeyOf(xs), "participants:" + KeyOf(ys);
      Cancel("subject:", a + "\0" + p, b + "\0" + q);
      NulSplits(a, p, b, q);
      Cancel("participants:", KeyOf(xs), KeyOf(ys));
    }
  }

  ghost predicate Together(messages: seq<Message>, normal: Normal, a: Message, b: Message) {
    exists t :: t in MergedThreads(messages, normal) && a in t.members && b in t.members
  }

  // The group a message's reply chain puts it in.
  function GroupFor(messages: seq<Message>, m: Message): Group {
    var parent := Parents(messages, KnownIds(messages));
    GroupOf(messages, parent, RootOf(parent, m.id))
  }

  // That group is among the groups, and it is the only one with the message.
  lemma OwnGroup(messages: seq<Message>, m: Message) returns (k: nat)
    requires m in messages
    ensures var groups := Groups(messages, Parents(messages, KnownIds(messages)));
      && k < |groups| && groups[k] == GroupFor(messages, m) && m in groups[k].members
      && forall i | 0 <= i < |groups| && m in groups[i].members :: i == k
  {
    var parent := Parents(messages, KnownIds(messages));
    var groups := Groups(messages, parent);
    GroupsAreGrouped(messages, parent);
    var root := RootOf(parent, m.id);
    assert HasRoot(groups, root);
    k :| 0 <= k < |groups| && groups[k].root == root;
    MembersUnder(messages, parent, root, m);
    forall i | 0 <= i < |groups| && m in groups[i].members ensures i == k {
      MembersUnder(messages, parent, groups[i].root, m);
    }
  }

  lemma MergesWithSameKey(messages: seq<Message>, normal: Normal, a: Message, b: Message)
    requires a in messages && b in messages
    requires KeyOfGroup(GroupFor(messages, a), normal) == KeyOfGroup(GroupFor(messages, b), normal)
    ensures Together(messages, normal, a, b)
  {
    var groups := Groups(messages, Parents(messages, KnownIds(messages)));
    var (merged, solo) := Merge(groups, normal);
    var i := OwnGroup(messages, a);
    var j := OwnGroup(messages, b);
    var key := KeyText(groups[i], normal);
    MergeIsSorted(groups, normal);
    KeyTextIsFaithful(groups[i], groups[j], normal);
    if key == "" {
      var t := Merged("", groups[i].members);
      SolosHas(groups, normal, t);
      assert t in merged + solo;
    } else {
      assert HasKey(merged, key);
      var x :| 0 <= x < |merged| && merged[x].key == key;
      UnderHas(groups, key, normal, a);
      UnderHas(groups, key, normal, b);
      assert merged[x] in merged + solo;
    }
  }

  lemma MergesOnlyWithSameKey(messages: seq<Message>, normal: Normal, a: Message, b: Message)
    requires a in messages && b in messages && Together(messages, normal, a, b)
    ensures KeyOfGroup(GroupFor(messages, a), normal) == KeyOfGroup(GroupFor(messages, b), normal)
  {
    var groups := Groups(messages, Parents(messages, KnownIds(messages)));
    var (merged, solo) := Merge(groups, normal);
    var i := OwnGroup(messages, a);
    var j := OwnGroup(messages, b);
    MergeIsSorted(groups, normal);
    var t :| t in merged + solo && a in t.members && b in t.members;
    if t in solo {
      SolosHas(groups, normal, t);
      var k :| 0 <= k < |groups| && KeyText(groups[k], normal) == "" && t == Merged("", groups[k].members);
      assert k == i == j;
    } else {
      var x :| 0 <= x < |merged| && merged[x] == t;
      UnderHas(groups, t.key, normal, a);
      UnderHas(groups, t.key, normal, b);
      KeyTextIsFaithful(groups[i], groups[j], normal);
    }
  }

  /** Merging is sound and complete: two messages share a thread exactly when their groups have the
      same root, the same first List-ID, or the same subject and participants. */
  lemma TogetherIffSameKey(messages: seq<Message>, normal: Normal, a: Message, b: Message)
    requires a in messages && b in messages
    ensures Together(messages, normal, a, b) <==>
            KeyOfGroup(GroupFor(messages, a), normal) == KeyOfGroup(GroupFor(messages, b), normal)
  {
    if Together(messages, normal, a, b) {
      MergesOnlyWithSameKey(messages, normal, a, b);
    } else if KeyOfGroup(GroupFor(messages, a), normal) == KeyOfGroup(GroupFor(messages, b), normal) {
      MergesWithSameKey(messages, normal, a, b);
    }
  }

  /** Reply links never cross threads: with acyclic links, a message and its resolved parent are together. */
  lemma RepliesStayTogether(messages: seq<Message>, normal: Normal, m: Message, up: Message)
    requires m in messages && up in messages
    requires var parent := Parents(messages, KnownIds(messages));
      Acyclic(parent) && m.id in parent && parent[m.id] == up.id
    ensures Together(messages, normal, m, up)
  {
    RootIsStable(Parents(messages, KnownIds(messages)), m.id);
    MergesWithSameKey(messages, normal, m, up);
  }

  /** The parent is the message replied to, if known, and else the last reference that is. */
  lemma ParentIsNearestKnown(m: Message, known: set<string>)
    ensures match ParentId(m, known)
            case None =>
              (m.inReplyTo.Some? ==> m.inReplyTo.value !in known) && forall r | r in m.references :: r !in known
            case Some(up) =>
              up in known &&
              if m.inReplyTo.Some? && m.inReplyTo.value in known then up == m.inReplyTo.value
              else exists i :: 0 <= i < |m.references| && m.references[i] == up &&
                               forall j | i < j < |m.references| :: m.references[j] !in known
  {
    LastKnownIsLast(m.references, known);
  }

  lemma {:induction false} LastKnownIsLast(references: seq<string>, known: set<string>)
    ensures match LastKnown(references, known)
            case None => forall r | r in references :: r !in known
            case Some(last) =>
              last in known &&
              exists i :: 0 <= i < |references| && references[i] == last &&
                          forall j | i < j < |references| :: references[j] !in known
  {
    if references != [] {
      var init := references[..|references| - 1];
      assert references == init + [references[|references| - 1]];
      LastKnownIsLast(init, known);
      if references[|references| - 1] in known {
        assert references[|references| - 1] == LastKnown(references, known).value;
      } else if LastKnown(init, known).Some? {
        var last := LastKnown(init, known).value;
        var i :| 0 <= i < |init| && init[i] == last && forall j | i < j < |init| :: init[j] !in known;
        assert references[i] == last;
        forall j | i < j < |references| ensures references[j] !in known {
          assert j < |init| ==> references[j] == init[j];
        }
      }
    }
  }

  /** A resolved parent is always one of the messages. */
  lemma {:induction false} ParentsAreKnown(messages: seq<Message>, known: set<string>, id: string)
    requires id in Parents(messages, known)
    ensures Parents(messages, known)[id] in known
  {
    var init, last := messages[..|messages| - 1], messages[|messages| - 1];
    ParentIsNearestKnown(last, known);
    if id in Parents(init, known) {
      ParentsAreKnown(init, known, id);
    }
  }
}
