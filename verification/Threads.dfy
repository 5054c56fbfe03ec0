/**
 * Thread derivation: messages group under the root of their reply chain, and groups merge by List-ID,
 * else by normalized subject and participant set.
 */
module Threads {
  import opened Options
  import opened ParticipantKey

  datatype Message = Message(id: string, from: string, to: seq<string>, cc: seq<string>,
                             subject: Option<string>, listId: Option<string>,
                             inReplyTo: Option<string>, references: seq<string>)

  // Address and subject normalization: trimming, reply prefixes and case folding.
  datatype Normal = Normal(address: string -> string, subject: string -> string)

  // Messages under one root; the first List-ID and the first subject among them count.
  datatype Group = Group(root: string, members: seq<Message>, listId: Option<string>, subject: Option<string>)

  // A thread before its display key is chosen; solo groups carry the empty key.
  datatype Merged = Merged(key: string, members: seq<Message>)

  datatype Thread = Thread(key: string, rootMessageId: string, messageIds: seq<string>)

  function LastKnown(references: seq<string>, known: set<string>): Option<string> {
    if references == [] then None
    else if references[|references| - 1] in known then Some(references[|references| - 1])
    else LastKnown(references[..|references| - 1], known)
  }

  function ParentId(m: Message, known: set<string>): Option<string> {
    if m.inReplyTo.Some? && m.inReplyTo.value in known then m.inReplyTo
    else LastKnown(m.references, known)
  }

  function KnownIds(messages: seq<Message>): set<string> {
    set m | m in messages :: m.id
  }

  // A later message with a repeated id overrides the parent of an earlier one.
  function Parents(messages: seq<Message>, known: set<string>): map<string, string> {
    if messages == [] then map[]
    else
      var before := Parents(messages[..|messages| - 1], known);
      var last := messages[|messages| - 1];
      var parent := ParentId(last, known);
      if parent.Some? then before[last.id := parent.value] else before
  }

  // k steps up the reply chain; a root stays where it is.
  function Walk(parent: map<string, string>, id: string, k: nat): string
    decreases k
  {
    if k == 0 || id !in parent then id else Walk(parent, parent[id], k - 1)
  }

  ghost predicate Acyclic(parent: map<string, string>) {
    forall id, k: nat :: id in parent && k > 0 ==> Walk(parent, id, k) != id
  }

  // With acyclic links no chain is longer than the number of links.
  function RootOf(parent: map<string, string>, id: string): string {
    Walk(parent, id, |parent|)
  }

  function AddMessage(groups: seq<Group>, m: Message, root: string): seq<Group> {
    if groups == [] then [Group(root, [m], m.listId, m.subject)]
    else if groups[0].root == root then
      var g := groups[0];
      [Group(root, g.members + [m],
             if g.listId.None? then m.listId else g.listId,
             if g.subject.None? then m.subject else g.subject)] + groups[1..]
    else [groups[0]] + AddMessage(groups[1..], m, root)
  }

  function Groups(messages: seq<Message>, parent: map<string, string>): seq<Group> {
    if messages == [] then []
    else
      var last := messages[|messages| - 1];
      AddMessage(Groups(messages[..|messages| - 1], parent), last, RootOf(parent, last.id))
  }

  function Participants(m: Message, normal: Normal): seq<string> {
    [normal.address(m.from)] + Addresses(m.to + m.cc, normal)
  }

  function Addresses(addresses: seq<string>, normal: Normal): seq<string> {
    if addresses == [] then [] else [normal.address(addresses[0])] + Addresses(addresses[1..], normal)
  }

  function AllParticipants(members: seq<Message>, normal: Normal): seq<string> {
    if members == [] then [] else Participants(members[0], normal) + AllParticipants(members[1..], normal)
  }

  function SubjectOf(g: Group, normal: Normal): string {
    if g.subject.None? then "" else normal.subject(g.subject.value)
  }

  // The text key a group merges under; empty when it stays alone.
  function KeyText(g: Group, normal: Normal): string {
    if g.listId.Some? then "list:" + g.listId.value
    else if SubjectOf(g, normal) == "" then ""
    else "subject:" + SubjectOf(g, normal) + "\0participants:" + KeyOf(AllParticipants(g.members, normal))
  }

  function MergeInto(merged: seq<Merged>, key: string, members: seq<Message>): seq<Merged> {
    if merged == [] then [Merged(key, members)]
    else if merged[0].key == key then [Merged(key, merged[0].members + members)] + merged[1..]
    else [merged[0]] + MergeInto(merged[1..], key, members)
  }

  // The keyed threads in the order of their first group, and the solo groups.
  function Merge(groups: seq<Group>, normal: Normal): (seq<Merged>, seq<Merged>) {
    if groups == [] then ([], [])
    else
      var (merged, solo) := Merge(groups[..|groups| - 1], normal);
      var last := groups[|groups| - 1];
      var key := KeyText(last, normal);
      if key == "" then (merged, solo + [Merged("", last.members)])
      else (MergeInto(merged, key, last.members), solo)
  }

  function Ids(members: seq<Message>): seq<string> {
    if members == [] then [] else [members[0].id] + Ids(members[1..])
  }

  function Display(m: Merged): Thread {
    var first := if m.members == [] then "" else m.members[0].id;
    Thread(if m.key == "" then "message:" + first else m.key, first, Ids(m.members))
  }

  function DisplayAll(merged: seq<Merged>): seq<Thread> {
    if merged == [] then [] else [Display(merged[0])] + DisplayAll(merged[1..])
  }

  function MergedThreads(messages: seq<Message>, normal: Normal): seq<Merged> {
    var parent := Parents(messages, KnownIds(messages));
    var (merged, solo) := Merge(Groups(messages, parent), normal);
    merged + solo
  }

  // Removing a link changes a walk only by stopping it there.
  lemma {:induction false} WalkWithout(parent: map<string, string>, cut: string, id: string, k: nat)
    ensures Walk(parent - {cut}, id, k) == cut || Walk(parent - {cut}, id, k) == Walk(parent, id, k)
    decreases k
  {
    if k > 0 && id in parent && id != cut {
      WalkWithout(parent, cut, parent[id], k - 1);
    }
  }

  lemma {:induction false} WalkStops(parent: map<string, string>, id: string, k: nat)
    requires id !in parent
    ensures Walk(parent, id, k) == id
  {
  }

  lemma {:induction false} WalkAdds(parent: map<string, string>, id: string, j: nat, k: nat)
    ensures Walk(parent, Walk(parent, id, j), k) == Walk(parent, id, j + k)
    decreases j
  {
    if j > 0 && id in parent {
      WalkAdds(parent, parent[id], j - 1, k);
    } else if id !in parent {
      WalkStops(parent, id, k);
    }
  }

  /** When the reply links are acyclic, every chain reaches a root within as many steps as there are
      links. */
  lemma {:induction false} ChainsEnd(parent: map<string, string>, id: string)
    requires Acyclic(parent)
    ensures RootOf(parent, id) !in parent
    decreases |parent|
  {
    if id in parent {
      var rest := parent - {id};
      var next := parent[id];
      assert |rest| == |parent| - 1;
      forall x, k: nat | x in rest && k > 0 ensures Walk(rest, x, k) != x {
        WalkWithout(parent, id, x, k);
      }
      ChainsEnd(rest, next);
      var k := |rest|;
      WalkWithout(parent, id, next, k);
      assert Walk(parent, id, k + 1) == Walk(parent, next, k);
      assert Walk(parent, id, k + 1) != id;
      AvoidsStart(parent, id, k);
    }
  }

  // The walk from the parent of id, when it never returns to id, does not miss that link.
  lemma {:induction false} AvoidsStart(parent: map<string, string>, id: string, k: nat)
    requires Acyclic(parent) && id in parent
    ensures Walk(parent - {id}, parent[id], k) == Walk(parent, parent[id], k)
  {
    if k > 0 {
      AvoidsStart(parent, id, k - 1);
      var at := Walk(parent, parent[id], k - 1);
      assert at == Walk(parent, id, k);
      WalkAdds(parent, parent[id], k - 1, 1);
      WalkAdds(parent - {id}, parent[id], k - 1, 1);
      assert at != id;
    }
  }

  lemma RootIsStable(parent: map<string, string>, id: string)
    requires Acyclic(parent) && id in parent
    ensures RootOf(parent, id) == RootOf(parent, parent[id])
  {
    ChainsEnd(parent, id);
    WalkAdds(parent, id, |parent|, 1);
    WalkStops(parent, RootOf(parent, id), 1);
    assert Walk(parent, id, |parent| + 1) == Walk(parent, parent[id], |parent|);
  }

  /** On a cycle the walk never reaches a root, so the links must be acyclic for every walk to end. */
  lemma {:induction false} CyclesNeverEnd(parent: map<string, string>, id: string, period: nat, k: nat)
    requires id in parent && period > 0 && Walk(parent, id, period) == id
    ensures Walk(parent, id, k) in parent
    decreases k
  {
    if k >= period {
      WalkAdds(parent, id, period, k - period);
      CyclesNeverEnd(parent, id, period, k - period);
    } else if Walk(parent, id, k) !in parent {
      WalkAdds(parent, id, k, period - k);
      WalkStops(parent, Walk(parent, id, k), period - k);
    }
  }

  // The loop up the reply chain.
  method FindRoot(parent: map<string, string>, id: string) returns (root: string)
    requires Acyclic(parent)
    ensures root == RootOf(parent, id) && root !in parent
  {
    ChainsEnd(parent, id);
    root := id;
    ghost var k := 0;
    while root in parent
      invariant k <= |parent| && root == Walk(parent, id, k)
      decreases |parent| - k
    {
      WalkAdds(parent, id, k, 1);
      if k == |parent| {
        assert false;
      }
      root := parent[root];
      k := k + 1;
    }
    WalkAdds(parent, id, k, |parent| - k);
    WalkStops(parent, root, |parent| - k);
  }

  // The loop back through the references.
  method FindParent(m: Message, known: set<string>) returns (parent: Option<string>)
    ensures parent == ParentId(m, known)
  {
    if m.inReplyTo.Some? && m.inReplyTo.value in known {
      return m.inReplyTo;
    }
    assert m.references[..|m.references|] == m.references;
    for index := |m.references| downto 0
      invariant LastKnown(m.references, known) == LastKnown(m.references[..index], known)
    {
      assert m.references[..index + 1][..index] == m.references[..index];
      if m.references[index] in known {
        return Some(m.references[index]);
      }
    }
    parent := None;
  }

  method CollectParents(messages: seq<Message>, known: set<string>) returns (parent: map<string, string>)
    ensures parent == Parents(messages, known)
  {
    parent := map[];
    for i := 0 to |messages|
      invariant parent == Parents(messages[..i], known)
    {
      assert messages[..i + 1][..i] == messages[..i];
      var up := FindParent(messages[i], known);
      if up.Some? {
        parent := parent[messages[i].id := up.value];
      }
    }
    assert messages[..|messages|] == messages;
  }

  method GroupByRoot(messages: seq<Message>, parent: map<string, string>) returns (groups: seq<Group>)
    requires Acyclic(parent)
    ensures groups == Groups(messages, parent)
  {
    groups := [];
    for i := 0 to |messages|
      invariant groups == Groups(messages[..i], parent)
    {
      assert messages[..i + 1][..i] == messages[..i];
      var root := FindRoot(parent, messages[i].id);
      groups := AddMessage(groups, messages[i], root);
    }
    assert messages[..|messages|] == messages;
  }

  method MergeGroups(groups: seq<Group>, normal: Normal) returns (merged: seq<Merged>, solo: seq<Merged>)
    ensures (merged, solo) == Merge(groups, normal)
  {
    merged, solo := [], [];
    for i := 0 to |groups|
      invariant (merged, solo) == Merge(groups[..i], normal)
    {
      assert groups[..i + 1][..i] == groups[..i];
      var key := KeyText(groups[i], normal);
      if key == "" {
        solo := solo + [Merged("", groups[i].members)];
      } else {
        merged := MergeInto(merged, key, groups[i].members);
      }
    }
    assert groups[..|groups|] == groups;
  }

  method DeriveThreads(messages: seq<Message>, normal: Normal) returns (threads: seq<Thread>)
    requires Acyclic(Parents(messages, KnownIds(messages)))
    ensures threads == DisplayAll(MergedThreads(messages, normal))
  {
    var parent := CollectParents(messages, KnownIds(messages));
    var groups := GroupByRoot(messages, parent);
    var merged, solo := MergeGroups(groups, normal);
    threads := DisplayAll(merged + solo);
  }
}
